/**
 * The first generation's experiment (c_clang_sfmt/experiment.c,
 * go/experiment.go, pypy3/experiment.py, ruby/experiment.rb).
 *
 * `one_episode` resets the cartpole and runs exactly steps_num steps, with
 * no early termination. Each step first stores, in the history's next
 * slot, the current state with the action that led to it and the reward
 * that followed (slot 0 holds action 0.0 and reward 0.0). It then chooses
 * an action, runs it, reads the reward and learns once from (s, a, r, s').
 * `run` plays episodes_num episodes and keeps, for each, the sum of the
 * stored rewards: the last step's reward is read but never stored, so it
 * is never counted. `test` stops learning and exploring, then plays one
 * episode.
 *
 * The cartpole's equations of motion, reward and initial state are a
 * parameter (`Physics`). As in ExperimentLoop, the episode and the training
 * are functions over values, and the methods are proved to compute them.
 */
module FixedEpisode {
  import opened QTables
  import Agents
  import CartpoleAgent
  import Histories
  import RlLoop

  /** `fps`, the first generation's frame rate. */
  const Fps: nat := 50

  /** An episode lasts ten seconds: `steps_num = fps * 10`. */
  const StepsNum: nat := Fps * 10

  /** The cartpole: its initial state, one integration step under a force, and the reward of a state. */
  datatype Physics = Physics(init: seq<real>, step: (seq<real>, real) -> seq<real>, reward: seq<real> -> real)

  /** States have the four components x, theta, x-dot and theta-dot, and a step keeps them. */
  ghost predicate PhysicsOk(ph: Physics) {
    |ph.init| == 4 && forall s: seq<real>, u: real :: |s| == 4 ==> |ph.step(s, u)| == 4
  }

  /** The cartpole object, whose state `reset_env` / `reset_state` and `run_step` / `step` replace. */
  class Env {
    const physics: Physics
    var s: seq<real>

    constructor (physics: Physics)
      ensures this.physics == physics && s == physics.init
    {
      this.physics := physics;
      s := physics.init;
    }

    /** `reset_env` / `ResetEnv` / `reset_state`: the initial state again. */
    method Reset()
      modifies this
      ensures s == physics.init
    {
      s := physics.init;
    }

    /** `run_step` / `Step` / `step`: one integration step under the force a. */
    method Step(a: real)
      modifies this
      ensures s == physics.step(old(s), a)
    {
      s := physics.step(s, a);
    }
  }

  /** What an episode reads and never changes: the agent with its alpha and eps, the cartpole, the random stream. */
  datatype Setup = Setup(agent: CartpoleAgent.Agent, alpha: real, eps: real, physics: Physics, rng: nat -> Agents.Draw)

  ghost predicate SetupOk(su: Setup) {
    su.agent.Discretised() && |su.agent.actions| > 0 && PhysicsOk(su.physics)
  }

  ghost predicate TableFits(su: Setup, t: seq<seq<real>>) {
    |su.agent.axes| == 4 && Shaped(t, su.agent.StateCount(), |su.agent.actions|)
  }

  /**
   * The loop variables between two steps: the state s, the last action a and
   * reward r, the table, the position in the random stream, and the slots
   * the history has filled so far.
   */
  datatype Snap = Snap(s: seq<real>, a: real, r: real, table: seq<seq<real>>, clock: nat,
                       states: seq<seq<real>>, actions: seq<real>, rewards: seq<real>)

  ghost predicate Ready(su: Setup, sn: Snap) {
    SetupOk(su) && |sn.s| == 4 && TableFits(su, sn.table)
  }

  /** `decide_action` / `Action` / `action` on the state s, using draw number clock. */
  ghost function Choose(su: Setup, t: seq<seq<real>>, s: seq<real>, clock: nat): (a: real)
    requires SetupOk(su) && TableFits(su, t) && |s| == 4
    ensures a in su.agent.actions
  {
    var d := su.rng(clock);
    su.agent.actions[Agents.Choice(su.eps, t[su.agent.StateIndex(s)], d.u, d.pick)]
  }

  /** After `reset`: the initial state, a = 0.0 and r = 0.0, nothing stored. */
  function Start(su: Setup, t: seq<seq<real>>, clock: nat): (sn: Snap)
    ensures sn.states == [] && sn.actions == [] && sn.rewards == []
  {
    Snap(su.physics.init, 0.0, 0.0, t, clock, [], [], [])
  }

  /** One pass of the step loop: store (s, a, r), choose, run, read the reward, learn, s := s'. */
  ghost function Step(su: Setup, sn: Snap): (next: Snap)
    requires Ready(su, sn)
    ensures Ready(su, next)
  {
    var ag := su.agent;
    var a := Choose(su, sn.table, sn.s, sn.clock);
    var s' := su.physics.step(sn.s, a);
    var r := su.physics.reward(s');
    var k := CartpoleAgent.FirstIndex(ag.actions, a).value;
    Snap(s', a, r, Agents.QLearned(sn.table, su.alpha, ag.gamma, ag.StateIndex(sn.s), k, r, ag.StateIndex(s')),
         sn.clock + 1, sn.states + [sn.s], sn.actions + [sn.a], sn.rewards + [sn.r])
  }

  /** n passes of the step loop. */
  ghost function Steps(su: Setup, sn: Snap, n: nat): (last: Snap)
    requires Ready(su, sn)
    ensures Ready(su, last)
    ensures |last.states| == |sn.states| + n && |last.actions| == |sn.actions| + n && |last.rewards| == |sn.rewards| + n
    decreases n, 2
  {
    if n == 0 then sn else StepsPass(su, sn, n)
  }

  /** Pass n of the step loop. */
  ghost function StepsPass(su: Setup, sn: Snap, n: nat): (last: Snap)
    requires Ready(su, sn) && n > 0
    ensures Ready(su, last)
    ensures |last.states| == |sn.states| + n && |last.actions| == |sn.actions| + n && |last.rewards| == |sn.rewards| + n
    decreases n, 1
  {
    StepsAdvance(su, sn, n)
  }

  /** Pass n of the step loop: one more Step. */
  ghost function StepsAdvance(su: Setup, sn: Snap, n: nat): (last: Snap)
    requires Ready(su, sn) && n > 0
    ensures Ready(su, last)
    ensures |last.states| == |sn.states| + n && |last.actions| == |sn.actions| + n && |last.rewards| == |sn.rewards| + n
    decreases n, 0
  {
    Step(su, Steps(su, sn, n - 1))
  }

  /** Pass n of the step loop, in one piece. */
  lemma StepsUnfold(su: Setup, sn: Snap, n: nat)
    requires Ready(su, sn) && n > 0
    ensures Steps(su, sn, n) == Step(su, Steps(su, sn, n - 1))
  {
    assert Steps(su, sn, n) == StepsPass(su, sn, n) == StepsAdvance(su, sn, n);
  }

  /** `one_episode` with n steps, from a table and a position in the random stream. */
  ghost function Episode(su: Setup, t: seq<seq<real>>, clock: nat, n: nat): (last: Snap)
    requires SetupOk(su) && TableFits(su, t)
    ensures Ready(su, last) && |last.states| == n && |last.actions| == n && |last.rewards| == n
  {
    Steps(su, Start(su, t, clock), n)
  }

  /** The stored states followed by the state after the last step. */
  function StateTrail(sn: Snap): seq<seq<real>> {
    sn.states + [sn.s]
  }

  /** The stored actions followed by the last step's action. */
  function ActionTrail(sn: Snap): seq<real> {
    sn.actions + [sn.a]
  }

  /** The stored rewards followed by the last step's reward. */
  function RewardTrail(sn: Snap): seq<real> {
    sn.rewards + [sn.r]
  }

  /**
   * Along the trail of sn, entry k + 1 is one step on from entry k: the
   * state is the step from state k under action k + 1, that action is one of
   * the agent's, and reward k + 1 is the reward of state k + 1.
   */
  ghost predicate Linked(su: Setup, sn: Snap, k: nat) {
    && k < |sn.states| && |sn.actions| == |sn.states| && |sn.rewards| == |sn.states|
    && StateTrail(sn)[k + 1] == su.physics.step(StateTrail(sn)[k], ActionTrail(sn)[k + 1])
    && ActionTrail(sn)[k + 1] in su.agent.actions
    && RewardTrail(sn)[k + 1] == su.physics.reward(StateTrail(sn)[k + 1])
  }

  /**
   * n passes fill n more slots and keep the earlier ones; the first new slot
   * holds the loop variables the passes started from, and each new entry of
   * the trail is linked to the one before it.
   */
  lemma {:induction false} StepsTrail(su: Setup, sn: Snap, n: nat)
    requires Ready(su, sn) && |sn.actions| == |sn.states| && |sn.rewards| == |sn.states|
    ensures var last := Steps(su, sn, n);
            var m := |sn.states|;
            && |last.states| == m + n && |last.actions| == m + n && |last.rewards| == m + n
            && last.states[..m] == sn.states && last.actions[..m] == sn.actions && last.rewards[..m] == sn.rewards
            && StateTrail(last)[m] == sn.s && ActionTrail(last)[m] == sn.a && RewardTrail(last)[m] == sn.r
            && forall k :: m <= k < m + n ==> Linked(su, last, k)
    decreases n
  {
    if n > 0 {
      StepsTrail(su, sn, n - 1);
      StepsUnfold(su, sn, n);
      var m := |sn.states|;
      var before := Steps(su, sn, n - 1);
      var last := Step(su, before);
      assert StateTrail(last) == StateTrail(before) + [last.s];
      assert ActionTrail(last) == ActionTrail(before) + [last.a];
      assert RewardTrail(last) == RewardTrail(before) + [last.r];
      assert last.states[..m] == before.states[..m];
      assert last.actions[..m] == before.actions[..m];
      assert last.rewards[..m] == before.rewards[..m];
      forall k | m <= k < m + n
        ensures Linked(su, last, k)
      {
        if k < m + n - 1 {
          assert Linked(su, before, k);
        }
      }
    }
  }

  /**
   * `one_episode` runs exactly n steps and stores n slots: slot 0 is the
   * initial state with action 0.0 and reward 0.0, and slot k + 1 holds the
   * state step k reached, the action that reached it and its reward; the
   * state, action and reward of the last step are what the loop variables
   * are left with.
   */
  lemma EpisodeRecords(su: Setup, t: seq<seq<real>>, clock: nat, n: nat)
    requires SetupOk(su) && TableFits(su, t)
    ensures var last := Episode(su, t, clock, n);
            && |last.states| == n && |last.actions| == n && |last.rewards| == n
            && StateTrail(last)[0] == su.physics.init && ActionTrail(last)[0] == 0.0 && RewardTrail(last)[0] == 0.0
            && forall k :: 0 <= k < n ==> Linked(su, last, k)
  {
    StepsTrail(su, Start(su, t, clock), n);
  }

  /**
   * The sum `run` keeps for an episode of n > 0 steps leaves out the reward
   * of the last step, which is never stored: adding it gives the sum of the
   * rewards of all n steps, and slot 0 adds nothing.
   */
  lemma {:induction false} ReturnSkipsLastStep(su: Setup, t: seq<seq<real>>, clock: nat, n: nat)
    requires SetupOk(su) && TableFits(su, t) && n > 0
    ensures var last := Episode(su, t, clock, n);
            && RlLoop.Sum(last.rewards) == RlLoop.Sum(last.rewards[1..])
            && RlLoop.Sum(last.rewards) + last.r == RlLoop.Sum(RewardTrail(last)[1..])
  {
    EpisodeRecords(su, t, clock, n);
    var last := Episode(su, t, clock, n);
    RlLoop.SumFront(last.rewards);
    assert RewardTrail(last)[1..] == last.rewards[1..] + [last.r];
    assert (last.rewards[1..] + [last.r])[..n - 1] == last.rewards[1..];
  }

  /** m copies of b added up. */
  function Times(m: nat, b: real): real {
    if m == 0 then 0.0 else Times(m - 1, b) + b
  }

  lemma {:induction false} TimesIsProduct(m: nat, b: real)
    ensures Times(m, b) == m as real * b
  {
    if m > 0 {
      TimesIsProduct(m - 1, b);
    }
  }

  /** A sum of values at most b each is at most b times their number. */
  lemma {:induction false} SumAtMost(rs: seq<real>, b: real)
    requires forall i :: 0 <= i < |rs| ==> rs[i] <= b
    ensures RlLoop.Sum(rs) <= Times(|rs|, b)
    decreases |rs|
  {
    if |rs| > 0 {
      SumAtMost(rs[..|rs| - 1], b);
    }
  }

  /**
   * When no state earns more than b, the sum `run` keeps for an episode of
   * n > 0 steps is at most (n - 1) * b: slot 0 adds nothing and the last
   * step is not counted.
   */
  lemma ReturnAtMost(su: Setup, t: seq<seq<real>>, clock: nat, n: nat, b: real)
    requires SetupOk(su) && TableFits(su, t) && n > 0
    requires forall s :: su.physics.reward(s) <= b
    ensures RlLoop.Sum(Episode(su, t, clock, n).rewards) <= (n - 1) as real * b
  {
    EpisodeRecords(su, t, clock, n);
    TrailReturnAtMost(su, Episode(su, t, clock, n), b);
  }

  /**
   * On a linked trail whose slot 0 holds reward 0.0, every stored reward
   * after slot 0 is the reward of a state, so the stored rewards add up to
   * at most b times one less than their number.
   */
  lemma TrailReturnAtMost(su: Setup, last: Snap, b: real)
    requires |last.rewards| > 0 && RewardTrail(last)[0] == 0.0
    requires forall k :: 0 <= k < |last.rewards| ==> Linked(su, last, k)
    requires forall s :: su.physics.reward(s) <= b
    ensures RlLoop.Sum(last.rewards) <= (|last.rewards| - 1) as real * b
  {
    var earned := last.rewards[1..];
    forall i | 0 <= i < |earned|
      ensures earned[i] <= b
    {
      assert Linked(su, last, i);
      assert earned[i] == RewardTrail(last)[i + 1];
    }
    SumAtMost(earned, b);
    RlLoop.SumFront(last.rewards);
    TimesIsProduct(|earned|, b);
  }

  /**
   * A step learns once, from the state it started in, the action it ran,
   * the reward and the state it reached: only that cell can change, and it
   * moves toward the reward plus gamma times the best value of the new
   * state's row.
   */
  lemma StepLearnsOneCell(su: Setup, sn: Snap)
    requires Ready(su, sn)
    ensures var next := Step(su, sn);
            var ag := su.agent;
            var s1, s2 := ag.StateIndex(sn.s), ag.StateIndex(next.s);
            var k := CartpoleAgent.FirstIndex(ag.actions, next.a).value;
            && ag.actions[k] == next.a
            && next.table[s1][k] == Agents.TdUpdate(sn.table[s1][k], su.alpha, ag.gamma, next.r, Agents.MaxOf(sn.table[s2]))
            && (forall i, j :: 0 <= i < |sn.table| && 0 <= j < |sn.table[i]| && (i != s1 || j != k) ==>
                  next.table[i][j] == sn.table[i][j])
  {
  }

  /** With alpha = 0, as after `set_test_params`, the steps leave the table as it was. */
  lemma {:induction false} FrozenStepsKeepTable(su: Setup, sn: Snap, n: nat)
    requires Ready(su, sn) && su.alpha == 0.0
    ensures Steps(su, sn, n).table == sn.table
    decreases n
  {
    if n > 0 {
      FrozenStepsKeepTable(su, sn, n - 1);
      StepsUnfold(su, sn, n);
      var before := Steps(su, sn, n - 1);
      var ag := su.agent;
      var next := Step(su, before);
      Agents.QLearnedFrozen(before.table, ag.gamma, ag.StateIndex(before.s), CartpoleAgent.FirstIndex(ag.actions, next.a).value,
                            next.r, ag.StateIndex(next.s));
    }
  }

  /** The returns, the table, the random stream and the cartpole after k episodes of `run`. */
  datatype Progress = Progress(sums: seq<real>, table: seq<seq<real>>, clock: nat, s: seq<real>)

  /** k episodes of n steps, each from where the previous one left the table and the stream. */
  ghost function Train(su: Setup, t: seq<seq<real>>, clock: nat, s0: seq<real>, n: nat, k: nat): (p: Progress)
    requires SetupOk(su) && TableFits(su, t)
    ensures TableFits(su, p.table) && |p.sums| == k
    decreases k
  {
    if k == 0 then Progress([], t, clock, s0)
    else
      var p := Train(su, t, clock, s0, n, k - 1);
      var ep := Episode(su, p.table, p.clock, n);
      Progress(p.sums + [RlLoop.Sum(ep.rewards)], ep.table, ep.clock, ep.s)
  }

  /** When no state earns more than b, each of the returns `run` keeps is at most (n - 1) * b. */
  lemma {:induction false} TrainReturnsAtMost(su: Setup, t: seq<seq<real>>, clock: nat, s0: seq<real>, n: nat, k: nat, b: real)
    requires SetupOk(su) && TableFits(su, t) && n > 0
    requires forall s :: su.physics.reward(s) <= b
    ensures forall i :: 0 <= i < k ==> Train(su, t, clock, s0, n, k).sums[i] <= (n - 1) as real * b
    decreases k
  {
    if k > 0 {
      TrainReturnsAtMost(su, t, clock, s0, n, k - 1, b);
      var p := Train(su, t, clock, s0, n, k - 1);
      var q := Train(su, t, clock, s0, n, k);
      var ret := RlLoop.Sum(Episode(su, p.table, p.clock, n).rewards);
      ReturnAtMost(su, p.table, p.clock, n, b);
      assert q.sums == p.sums + [ret];
      forall i | 0 <= i < k
        ensures q.sums[i] <= (n - 1) as real * b
      {
        if i < k - 1 {
          assert q.sums[i] == p.sums[i];
        } else {
          assert q.sums[i] == ret;
        }
      }
    }
  }

  /** The inner loop of `experiment_run`: every stored reward added into sums[episode]. */
  method AddRewards(sums: array<real>, episode: nat, rewards: array<real>)
    requires episode < sums.Length && sums != rewards
    modifies sums
    ensures sums[..] == old(sums[..])[episode := old(sums[episode]) + RlLoop.Sum(old(rewards[..]))]
  {
    ghost var rs := rewards[..];
    ghost var before := sums[..];
    var i := 0;
    while i < rewards.Length
      invariant 0 <= i <= rewards.Length && rewards[..] == rs
      invariant sums[..] == before[episode := before[episode] + RlLoop.Sum(rs[..i])]
    {
      assert rs[..i + 1][..i] == rs[..i];
      sums[episode] := sums[episode] + rewards[i];
      i := i + 1;
    }
    assert rs[..i] == rs;
  }

  /** c_clang_sfmt, go, pypy3 and ruby `Experiment`: the agent, the cartpole, the random stream and the two counts. */
  class Experiment {
    const agent: CartpoleAgent.Agent
    const env: Env
    const stream: Agents.Stream
    const episodesNum: nat
    const stepsNum: nat

    ghost function CurrentSetup(): Setup
      reads agent
    {
      Setup(agent, agent.alpha, agent.eps, env.physics, stream.rng)
    }

    ghost predicate Valid()
      reads agent, agent.qtable
    {
      agent.Valid() && PhysicsOk(env.physics)
    }

    /**
     * `new_experiment` / `NewExperiment` / `Experiment()`: steps_num is
     * fps * 10; episodes_num is 20000000 in c_clang_sfmt and go, 10000000
     * in pypy3 and ruby.
     */
    constructor (agent: CartpoleAgent.Agent, env: Env, stream: Agents.Stream, episodesNum: nat)
      requires agent.Valid() && PhysicsOk(env.physics)
      ensures Valid() && this.agent == agent && this.env == env && this.stream == stream
      ensures this.episodesNum == episodesNum && stepsNum == StepsNum
    {
      this.agent := agent;
      this.env := env;
      this.stream := stream;
      this.episodesNum := episodesNum;
      stepsNum := StepsNum;
    }

    /** The loop variables and the objects' state are those of the snapshot sn. */
    ghost predicate Holds(sn: Snap, s: seq<real>, a: real, r: real)
      reads env, stream, agent.qtable
    {
      sn.s == s && s == env.s && sn.a == a && sn.r == r && sn.table == agent.qtable.table && sn.clock == stream.clock
    }

    /** The step loop's body after the stores: choose, run, read the reward, learn. It computes one Step. */
    method StepOnce(s: seq<real>, ghost su: Setup, ghost cur: Snap) returns (a: real, r: real, s': seq<real>, ghost next: Snap)
      requires Valid() && su == CurrentSetup() && Ready(su, cur)
      requires cur.s == s && s == env.s && cur.table == agent.qtable.table && cur.clock == stream.clock
      modifies env, stream, agent.qtable
      ensures Valid() && next == Step(su, cur) && Holds(next, s', a, r)
    {
      var d := stream.rng(stream.clock);
      a := agent.Action(s, d.u, d.pick);
      stream.clock := stream.clock + 1;
      env.Step(a);
      s' := env.s;
      r := env.physics.reward(s');
      var ok := agent.Learn(s, a, r, s');
      next := Step(su, cur);
    }

    /** Pass i of the step loop: store (s, a, r) in slot i, then one Step; pass i + 1 of Steps. */
    method Pass(hist: Histories.FixedHistory, s: seq<real>, a: real, r: real, ghost su: Setup, ghost start: Snap,
                i: nat, ghost cur: Snap) returns (a': real, r': real, s': seq<real>, ghost next: Snap)
      requires Valid() && su == CurrentSetup() && Ready(su, start) && hist.Valid() && i < hist.stepsNum
      requires cur == Steps(su, start, i) && Holds(cur, s, a, r)
      requires hist.states[..i] == cur.states && hist.actions[..i] == cur.actions && hist.rewards[..i] == cur.rewards
      modifies env, stream, agent.qtable, hist.states, hist.actions, hist.rewards
      ensures Valid() && next == Steps(su, start, i + 1) && Holds(next, s', a', r')
      ensures hist.states[..i + 1] == next.states && hist.actions[..i + 1] == next.actions
      ensures hist.rewards[..i + 1] == next.rewards
    {
      hist.states[i] := s;
      hist.actions[i] := a;
      hist.rewards[i] := r;
      assert hist.states[..i + 1] == cur.states + [s];
      assert hist.actions[..i + 1] == cur.actions + [a];
      assert hist.rewards[..i + 1] == cur.rewards + [r];
      StepsUnfold(su, start, i + 1);
      a', r', s', next := StepOnce(s, su, cur);
    }

    /** `one_episode`: the stored slots, the table, the cartpole and the stream are those of Episode. */
    method OneEpisode() returns (hist: Histories.FixedHistory)
      requires Valid()
      modifies env, stream, agent.qtable
      ensures Valid() && fresh(hist) && hist.Valid() && hist.stepsNum == stepsNum
      ensures fresh(hist.states) && fresh(hist.actions) && fresh(hist.rewards)
      ensures var last := Episode(CurrentSetup(), old(agent.qtable.table), old(stream.clock), stepsNum);
              && hist.states[..] == last.states && hist.actions[..] == last.actions && hist.rewards[..] == last.rewards
              && agent.qtable.table == last.table && env.s == last.s && stream.clock == last.clock
    {
      ghost var su := CurrentSetup();
      hist := new Histories.FixedHistory(stepsNum);
      var a := 0.0;
      var r := 0.0;
      env.Reset();
      var s := env.s;
      ghost var start := Start(su, agent.qtable.table, stream.clock);
      ghost var cur := start;
      var step := 0;
      while step < stepsNum
        invariant 0 <= step <= stepsNum && Valid() && hist.Valid()
        invariant cur == Steps(su, start, step) && Holds(cur, s, a, r)
        invariant hist.states[..step] == cur.states && hist.actions[..step] == cur.actions
        invariant hist.rewards[..step] == cur.rewards
      {
        a, r, s, cur := Pass(hist, s, a, r, su, start, step, cur);
        step := step + 1;
      }
      assert hist.states[..] == hist.states[..step];
      assert hist.actions[..] == hist.actions[..step];
      assert hist.rewards[..] == hist.rewards[..step];
    }

    /**
     * `experiment_run` / `Run` / `run`: a return per episode, zeroed first,
     * then the sum of that episode's stored rewards.
     */
    method Run() returns (sums: array<real>)
      requires Valid()
      modifies env, stream, agent.qtable
      ensures Valid() && fresh(sums)
      ensures var p := Train(CurrentSetup(), old(agent.qtable.table), old(stream.clock), old(env.s), stepsNum, episodesNum);
              && sums[..] == p.sums && agent.qtable.table == p.table && stream.clock == p.clock && env.s == p.s
    {
      ghost var su := CurrentSetup();
      ghost var t0, k0, s0 := agent.qtable.table, stream.clock, env.s;
      sums := new real[episodesNum];
      var i := 0;
      while i < episodesNum
        invariant 0 <= i <= episodesNum && unchanged(env, stream, agent.qtable)
        invariant forall j :: 0 <= j < i ==> sums[j] == 0.0
      {
        sums[i] := 0.0;
        i := i + 1;
      }
      var episode := 0;
      while episode < episodesNum
        invariant 0 <= episode <= episodesNum && Valid()
        invariant var p := Train(su, t0, k0, s0, stepsNum, episode);
                  && sums[..episode] == p.sums && agent.qtable.table == p.table
                  && stream.clock == p.clock && env.s == p.s
        invariant forall j :: episode <= j < episodesNum ==> sums[j] == 0.0
      {
        ghost var before := sums[..];
        var hist := OneEpisode();
        AddRewards(sums, episode, hist.rewards);
        assert sums[..episode + 1] == before[..episode] + [RlLoop.Sum(hist.rewards[..])];
        episode := episode + 1;
      }
      assert sums[..] == sums[..episode];
    }

    /** `experiment_test` / `Test` / `test`: learning and exploring stopped, then one episode, the table untouched. */
    method Test() returns (hist: Histories.FixedHistory)
      requires Valid()
      modifies agent, env, stream, agent.qtable
      ensures Valid() && agent.alpha == 0.0 && agent.eps == 0.0
      ensures fresh(hist) && hist.Valid() && hist.stepsNum == stepsNum && agent.qtable.table == old(agent.qtable.table)
      ensures var last := Episode(CurrentSetup(), old(agent.qtable.table), old(stream.clock), stepsNum);
              && hist.states[..] == last.states && hist.actions[..] == last.actions && hist.rewards[..] == last.rewards
              && env.s == last.s && stream.clock == last.clock
    {
      agent.SetTestParams();
      FrozenStepsKeepTable(CurrentSetup(), Start(CurrentSetup(), agent.qtable.table, stream.clock), stepsNum);
      hist := OneEpisode();
    }
  }
}
