/**
 * The environment interfaces the episode loops are written against.
 *
 * Every generation talks to its environment through a fixed set of calls
 * (an interface in Go, a trait in Rust, function pointers in C, duck typing
 * in Python and Ruby). Here an environment is a value of some state type E
 * together with the functions that implement those calls; running a step is
 * replacing the current state by `step(e, a)`.
 */
module Environments {

  /**
   * The config generation's interface: state_size, action_size, state,
   * reward, info, run_step, reset and is_finish. `ok` says which states the
   * environment can be in (a maze position inside the grid, a cartpole state
   * of four numbers): the queries are defined there.
   */
  datatype RlEnv<!E> = RlEnv(
    stateSize: nat,
    actionSize: nat,
    ok: E -> bool,
    reset: E,
    step: (E, nat) --> E,
    state: E --> nat,
    reward: E --> real,
    info: E --> string,
    isFinish: E --> bool)

  /**
   * What the loops rely on: the reset state is a state, every query is
   * defined on every state, state indices fit the Q-table, and a step taken
   * from the reset state or from a state that has not finished leads to a
   * state again. Nothing is promised after a step from a finished state:
   * the loops never take one.
   */
  ghost predicate RlEnvValid<E(!new)>(env: RlEnv<E>) {
    && env.ok(env.reset)
    && env.actionSize > 0
    && (forall e :: env.ok(e) ==>
          && env.state.requires(e) && env.state(e) < env.stateSize
          && env.reward.requires(e) && env.info.requires(e) && env.isFinish.requires(e))
    && (forall e, a: nat :: env.ok(e) && a < env.actionSize ==> env.step.requires(e, a))
    && (forall e, a: nat :: env.ok(e) && a < env.actionSize && (e == env.reset || !env.isFinish(e)) ==>
          env.ok(env.step(e, a)))
  }

  /**
   * The experiment generation's interface: s_space, a_space, s, r, info,
   * run_step, reset, is_done and is_success.
   */
  datatype ExperimentEnv<!E> = ExperimentEnv(
    stateSize: nat,
    actionSize: nat,
    ok: E -> bool,
    reset: E,
    step: (E, nat) --> E,
    state: E --> nat,
    reward: E --> real,
    info: E --> string,
    isDone: E --> bool,
    isSuccess: E --> bool)

  /** As RlEnvValid, with is_done in the place of is_finish. */
  ghost predicate ExperimentEnvValid<E(!new)>(env: ExperimentEnv<E>) {
    && env.ok(env.reset)
    && env.actionSize > 0
    && (forall e :: env.ok(e) ==>
          && env.state.requires(e) && env.state(e) < env.stateSize
          && env.reward.requires(e) && env.info.requires(e)
          && env.isDone.requires(e) && env.isSuccess.requires(e))
    && (forall e, a: nat :: env.ok(e) && a < env.actionSize ==> env.step.requires(e, a))
    && (forall e, a: nat :: env.ok(e) && a < env.actionSize && (e == env.reset || !env.isDone(e)) ==>
          env.ok(env.step(e, a)))
  }
}
