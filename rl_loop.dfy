/**
 * The config generation's runner (C_GCC rl.c, Rust_rustc rl.rs, Go_go
 * rl.go, Python3_CPython rl.py, Ruby_MRI rl.rb).
 *
 * An episode resets the environment, records the reset state with the
 * first chosen action, and then, for at most max_step steps: runs the
 * action, reads the new state, reward and info, chooses the next action,
 * records the executed action with what followed, zeroes the Q-table row
 * of a terminal state, learns once from (s1, a1, r, s2, a2), and stops
 * right after a terminal state or shifts s1 := s2, a1 := a2.
 *
 * The episode is specified by a function over values (Start, Step, Steps,
 * Episode) and the method is proved to compute exactly it; the properties
 * the runners promise are proved as lemmas about that function.
 */
module RlLoop {
  import opened Wrappers
  import opened QTables
  import opened Agents
  import opened Histories
  import opened Environments

  /**
   * What an episode reads and never changes: the environment, the agent's
   * action choice and learning rule, the random stream and max_step.
   */
  datatype Setup<!E> = Setup(env: RlEnv<E>, agent: AgentFns, rng: nat -> Draw, maxStep: nat)

  /** The environment meets what the loop relies on, and the agent fits its table. */
  ghost predicate SetupOk<E(!new)>(su: Setup<E>) {
    RlEnvValid(su.env) && AgentFnsValid(su.agent, su.env.stateSize, su.env.actionSize)
  }

  /**
   * The loop variables between two steps: the environment state, the
   * table, s1 and a1, the position in the random stream, the history so
   * far, the environment states after each step, and whether the last
   * step finished the episode.
   */
  datatype Snapshot<E> = Snapshot(e: E, table: seq<seq<real>>, s1: nat, a1: nat, clock: nat,
                                  entries: seq<Entry>, visited: seq<E>, done: bool)

  ghost predicate TableFits<E(!new)>(su: Setup<E>, t: seq<seq<real>>) {
    Shaped(t, su.env.stateSize, su.env.actionSize)
  }

  /** The loop variables are in range and the environment may take a step. */
  ghost predicate Ready<E(!new)>(su: Setup<E>, sn: Snapshot<E>) {
    && SetupOk(su)
    && su.env.ok(sn.e) && (sn.e == su.env.reset || !su.env.isFinish(sn.e))
    && TableFits(su, sn.table)
    && sn.s1 < su.env.stateSize && sn.a1 < su.env.actionSize
  }

  /** The epsilon-greedy action for state s, using draw number clock. */
  function Choose<E(!new)>(su: Setup<E>, t: seq<seq<real>>, s: nat, clock: nat): (a: nat)
    requires SetupOk(su) && TableFits(su, t) && s < su.env.stateSize
    ensures a < su.env.actionSize
  {
    su.agent.action(t, s, su.rng(clock))
  }

  /** After `reset`: s1 = s2 = state(), the first action chosen and the reset state recorded. */
  function Start<E(!new)>(su: Setup<E>, t: seq<seq<real>>, clock: nat): (sn: Snapshot<E>)
    requires SetupOk(su) && TableFits(su, t)
    ensures Ready(su, sn)
  {
    var env := su.env;
    var e := env.reset;
    var s := env.state(e);
    var a := Choose(su, t, s, clock);
    Snapshot(e, t, s, a, clock + 1, [Entry(a, env.reward(e), s, env.info(e))], [], false)
  }

  /** One pass through the loop body. */
  function Step<E(!new)>(su: Setup<E>, sn: Snapshot<E>): (next: Snapshot<E>)
    requires Ready(su, sn)
    ensures !next.done ==> Ready(su, next)
    ensures su.env.ok(next.e) && TableFits(su, next.table)
  {
    var env := su.env;
    var e := env.step(sn.e, sn.a1);
    var s2 := env.state(e);
    var r := env.reward(e);
    var a2 := Choose(su, sn.table, s2, sn.clock);
    var entries := sn.entries + [Entry(sn.a1, r, s2, env.info(e))];
    var fin := env.isFinish(e);
    var t := if fin then sn.table[s2 := Zeros(env.actionSize)] else sn.table;
    Snapshot(e, su.agent.learn(t, sn.s1, sn.a1, r, s2, a2),
             s2, a2, sn.clock + 1, entries, sn.visited + [e], fin)
  }

  /**
   * At most n passes: each pass after the first that finishes changes
   * nothing, so this is the state after leaving the loop, or after n
   * passes if none finished.
   */
  function Steps<E(!new)>(su: Setup<E>, sn: Snapshot<E>, n: nat): (last: Snapshot<E>)
    requires Ready(su, sn)
    ensures su.env.ok(last.e) && TableFits(su, last.table)
    ensures !last.done ==> Ready(su, last)
    decreases n
  {
    if n == 0 then sn
    else
      var before := Steps(su, sn, n - 1);
      if before.done then before else Step(su, before)
  }

  /** `run_episode` from a table and a position in the random stream. */
  function Episode<E(!new)>(su: Setup<E>, t: seq<seq<real>>, clock: nat): (last: Snapshot<E>)
    requires SetupOk(su) && TableFits(su, t)
    ensures su.env.ok(last.e) && TableFits(su, last.table)
  {
    Steps(su, Start(su, t, clock), su.maxStep)
  }

  /** Before the loop has been left, one more pass is one more Step. */
  lemma StepsNext<E(!new)>(su: Setup<E>, sn: Snapshot<E>, i: nat)
    requires Ready(su, sn) && !Steps(su, sn, i).done
    ensures Steps(su, sn, i + 1) == Step(su, Steps(su, sn, i))
  {
  }

  /** Once the loop has been left, further passes change nothing. */
  lemma {:induction false} StepsStayDone<E(!new)>(su: Setup<E>, sn: Snapshot<E>, k: nat, n: nat)
    requires Ready(su, sn) && k <= n && Steps(su, sn, k).done
    ensures Steps(su, sn, n) == Steps(su, sn, k)
    decreases n
  {
    if k < n {
      StepsStayDone(su, sn, k, n - 1);
    }
  }

  /**
   * What n passes do to the history: the earlier records stay, one record
   * and one visited state are added per step, at least one step runs when
   * n > 0, and fewer than n only when the last step finished.
   */
  lemma {:induction false} StepsHistory<E(!new)>(su: Setup<E>, sn: Snapshot<E>, n: nat)
    requires Ready(su, sn) && !sn.done
    ensures var last := Steps(su, sn, n);
            && |sn.entries| <= |last.entries| <= |sn.entries| + n
            && last.entries[..|sn.entries|] == sn.entries
            && (n > 0 ==> |last.entries| > |sn.entries|)
            && |last.visited| - |sn.visited| == |last.entries| - |sn.entries|
            && (|last.entries| < |sn.entries| + n ==> last.done)
    decreases n
  {
    if n > 0 {
      StepsHistory(su, sn, n - 1);
      var before := Steps(su, sn, n - 1);
      if !before.done {
        var last := Step(su, before);
        assert last.entries[..|sn.entries|] == last.entries[..|before.entries|][..|sn.entries|];
      }
    }
  }

  /**
   * The states the environment passes through: each pass adds the state
   * it leads to, the loop leaves on a terminal state, which is the last one
   * visited, and no state visited before it was terminal.
   */
  lemma {:induction false} StepsVisited<E(!new)>(su: Setup<E>, sn: Snapshot<E>, n: nat)
    requires Ready(su, sn) && !sn.done
    ensures var last := Steps(su, sn, n);
            && |sn.visited| <= |last.visited|
            && last.visited[..|sn.visited|] == sn.visited
            && (|last.visited| > |sn.visited| ==>
                  last.visited[|last.visited| - 1] == last.e && last.done == su.env.isFinish(last.e))
            && (last.done ==> |last.visited| > |sn.visited| && su.env.isFinish(last.e))
            && (forall k :: |sn.visited| <= k < |last.visited| - 1 ==>
                  su.env.ok(last.visited[k]) && !su.env.isFinish(last.visited[k]))
    decreases n
  {
    if n > 0 {
      StepsVisited(su, sn, n - 1);
      var before := Steps(su, sn, n - 1);
      if !before.done {
        var last := Step(su, before);
        assert last.visited[..|sn.visited|] == last.visited[..|before.visited|][..|sn.visited|];
        assert |before.visited| > |sn.visited| ==> last.visited[|before.visited| - 1] == before.e;
      }
    }
  }

  /**
   * An episode's history: one record for the reset state, whose action is
   * the first chosen and whose reward and state are the reset state's, then
   * between 1 and max_step step records; fewer than max_step only when the
   * last step reached a terminal state, and no earlier step did.
   */
  lemma EpisodeShape<E(!new)>(su: Setup<E>, t: seq<seq<real>>, clock: nat)
    requires SetupOk(su) && TableFits(su, t)
    ensures var last := Episode(su, t, clock);
            var env := su.env;
            && 1 <= |last.entries| <= su.maxStep + 1
            && (su.maxStep > 0 ==> |last.entries| >= 2)
            && last.entries[0] == Entry(Choose(su, t, env.state(env.reset), clock), env.reward(env.reset),
                                        env.state(env.reset), env.info(env.reset))
            && |last.visited| == |last.entries| - 1
            && (|last.entries| < su.maxStep + 1 ==> env.isFinish(last.e))
            && (forall k :: 0 <= k < |last.visited| - 1 ==> env.ok(last.visited[k]) && !env.isFinish(last.visited[k]))
  {
    var start := Start(su, t, clock);
    StepsHistory(su, start, su.maxStep);
    StepsVisited(su, start, su.maxStep);
    var last := Episode(su, t, clock);
    assert last.entries[0] == last.entries[..1][0] == start.entries[0];
  }

  /**
   * Every step's record holds the action just executed, and that action
   * was chosen for the state the step started in (the previous record's
   * state), and learning uses exactly that record: only the cell (s1, a1)
   * can change, apart from a terminal row that is zeroed.
   */
  lemma StepRecordsExecutedAction<E(!new)>(su: Setup<E>, sn: Snapshot<E>,
                                           algorithm: Algorithm, alpha: real, gamma: real, eps: real)
    requires Ready(su, sn) && su.agent == Fns(algorithm, alpha, gamma, eps)
    ensures var next := Step(su, sn);
            var rec := next.entries[|next.entries| - 1];
            && next.entries == sn.entries + [rec]
            && rec.action == sn.a1 && rec.state == next.s1 == su.env.state(next.e)
            && rec.reward == su.env.reward(next.e) && rec.info == su.env.info(next.e)
            && next.a1 == Choose(su, sn.table, next.s1, sn.clock) && next.clock == sn.clock + 1
            && (forall i, j :: 0 <= i < |sn.table| && 0 <= j < |sn.table[i]| && (i != sn.s1 || j != sn.a1) ==>
                  next.table[i][j] == if next.done && i == next.s1 then 0.0 else sn.table[i][j])
  {
    var env := su.env;
    var e := env.step(sn.e, sn.a1);
    var s2 := env.state(e);
    var t := if env.isFinish(e) then sn.table[s2 := Zeros(env.actionSize)] else sn.table;
    LearnedFrame(algorithm, alpha, gamma, t, sn.s1, sn.a1, env.reward(e), s2, Choose(su, sn.table, s2, sn.clock));
  }

  /**
   * The terminal row is zeroed before learning, so on the terminal step
   * Q-learning and Sarsa make the same update: the cell moves toward the
   * reward alone.
   */
  lemma {:induction false} TerminalStepTarget<E(!new)>(su: Setup<E>, sn: Snapshot<E>,
                                                      algorithm: Algorithm, alpha: real, gamma: real, eps: real)
    requires Ready(su, sn) && su.agent == Fns(algorithm, alpha, gamma, eps)
    requires Step(su, sn).done
    ensures var next := Step(su, sn);
            var r := next.entries[|next.entries| - 1].reward;
            next.table[sn.s1][sn.a1] == (1.0 - alpha) * sn.table[sn.s1][sn.a1] + alpha * r
              || (sn.s1 == next.s1 && next.table[sn.s1][sn.a1] == (1.0 - alpha) * 0.0 + alpha * r)
  {
    var env := su.env;
    var e := env.step(sn.e, sn.a1);
    var s2 := env.state(e);
    var r := env.reward(e);
    var a2 := Choose(su, sn.table, s2, sn.clock);
    var t := sn.table[s2 := Zeros(env.actionSize)];
    TerminalRowTargets(t, alpha, gamma, sn.s1, sn.a1, r, s2, a2);
    assert Learned(Sarsa, alpha, gamma, t, sn.s1, sn.a1, r, s2, a2)
        == Learned(QLearning, alpha, gamma, t, sn.s1, sn.a1, r, s2, a2);
  }

  /** With alpha = 0 a step changes the table only by zeroing a terminal state's row. */
  lemma FrozenStep<E(!new)>(su: Setup<E>, sn: Snapshot<E>, algorithm: Algorithm, gamma: real, eps: real)
    requires Ready(su, sn) && su.agent == Fns(algorithm, 0.0, gamma, eps)
    ensures var next := Step(su, sn);
            next.table == if next.done then sn.table[next.s1 := Zeros(su.env.actionSize)] else sn.table
  {
    var next := Step(su, sn);
    var env := su.env;
    var e := env.step(sn.e, sn.a1);
    var s2 := env.state(e);
    var a2 := Choose(su, sn.table, s2, sn.clock);
    var t := if next.done then sn.table[s2 := Zeros(env.actionSize)] else sn.table;
    LearnedFrozen(algorithm, gamma, t, sn.s1, sn.a1, env.reward(e), s2, a2);
  }

  /**
   * With alpha = 0, as after `fix`, an episode leaves the table as it was,
   * except that the row of the terminal state it ended on, if any, is zeroed.
   */
  lemma {:induction false} FrozenStepsOnlyZero<E(!new)>(su: Setup<E>, sn: Snapshot<E>, n: nat,
                                                       algorithm: Algorithm, gamma: real, eps: real)
    requires Ready(su, sn) && !sn.done && su.agent == Fns(algorithm, 0.0, gamma, eps)
    ensures var last := Steps(su, sn, n);
            && last.s1 < |sn.table|
            && last.table == if last.done then sn.table[last.s1 := Zeros(su.env.actionSize)] else sn.table
    decreases n
  {
    if n > 0 {
      FrozenStepsOnlyZero(su, sn, n - 1, algorithm, gamma, eps);
      var before := Steps(su, sn, n - 1);
      if !before.done {
        FrozenStep(su, before, algorithm, gamma, eps);
      }
    }
  }

  /** The rewards of a history, in order. */
  function RewardsOf(es: seq<Entry>): (rs: seq<real>)
    ensures |rs| == |es| && forall i :: 0 <= i < |es| ==> rs[i] == es[i].reward
  {
    seq(|es|, i requires 0 <= i < |es| => es[i].reward)
  }

  function Sum(rs: seq<real>): real {
    if |rs| == 0 then 0.0 else Sum(rs[..|rs| - 1]) + rs[|rs| - 1]
  }

  /** The sum can be taken from the front as well: the first record's reward plus the rest. */
  lemma {:induction false} SumFront(rs: seq<real>)
    requires |rs| > 0
    ensures Sum(rs) == rs[0] + Sum(rs[1..])
    decreases |rs|
  {
    if |rs| > 1 {
      SumFront(rs[..|rs| - 1]);
      assert rs[..|rs| - 1][1..] == rs[1..][..|rs[1..]| - 1];
    }
  }

  /** A return is the sum over the whole history, the reset state's reward included. */
  function Return(es: seq<Entry>): real {
    Sum(RewardsOf(es))
  }

  lemma ReturnIncludesResetReward(es: seq<Entry>)
    requires |es| > 0
    ensures Return(es) == es[0].reward + Sum(RewardsOf(es)[1..])
  {
    SumFront(RewardsOf(es));
  }

  /** The returns and final state after k episodes from a table and a position in the random stream. */
  datatype Progress<E> = Progress(episodeReturns: seq<real>, e: E, table: seq<seq<real>>, clock: nat)

  function Episodes<E(!new)>(su: Setup<E>, e: E, t: seq<seq<real>>, clock: nat, k: nat): (p: Progress<E>)
    requires SetupOk(su) && TableFits(su, t)
    ensures |p.episodeReturns| == k && TableFits(su, p.table)
  {
    if k == 0 then Progress([], e, t, clock)
    else
      var before := Episodes(su, e, t, clock, k - 1);
      var ep := Episode(su, before.table, before.clock);
      Progress(before.episodeReturns + [Return(ep.entries)], ep.e, ep.table, ep.clock)
  }

  /** One more episode runs from where the earlier ones left the table and the random stream. */
  lemma EpisodesNext<E(!new)>(su: Setup<E>, e: E, t: seq<seq<real>>, clock: nat, k: nat)
    requires SetupOk(su) && TableFits(su, t)
    ensures var before := Episodes(su, e, t, clock, k);
            var ep := Episode(su, before.table, before.clock);
            Episodes(su, e, t, clock, k + 1) == Progress(before.episodeReturns + [Return(ep.entries)], ep.e, ep.table, ep.clock)
  {
  }

  /** C_GCC's closing loop: every entry overwritten with the last return. */
  function AllLast(rs: seq<real>): (out: seq<real>)
    ensures |out| == |rs| && forall i :: 0 <= i < |rs| ==> out[i] == rs[|rs| - 1]
  {
    seq(|rs|, _ requires |rs| > 0 => rs[|rs| - 1])
  }

  /** Two episodes with returns 1 and 2 are reported as 2 and 2. */
  lemma OverwriteLosesEarlierReturns()
    ensures AllLast([1.0, 2.0]) == [2.0, 2.0] != [1.0, 2.0]
  {
    assert AllLast([1.0, 2.0])[0] == 2.0;
  }

  /** Which agent an AGENT_NAME selects. */
  function ChooseAgent(name: string): (r: Option<Algorithm>)
    ensures r == Some(QLearning) <==> name == "Q-learning"
    ensures r == Some(Sarsa) <==> name == "Sarsa"
  {
    if name == "Q-learning" then Some(QLearning)
    else if name == "Sarsa" then Some(Sarsa)
    else None
  }

  datatype EnvKind = Maze | Cartpole

  /** Which environment an ENV_NAME selects. */
  function ChooseEnvironment(name: string): (r: Option<EnvKind>)
    ensures r == Some(Maze) <==> name == "Maze"
    ensures r == Some(Cartpole) <==> name == "Cartpole"
  {
    if name == "Maze" then Some(Maze)
    else if name == "Cartpole" then Some(Cartpole)
    else None
  }

  function AgentName(a: Algorithm): string {
    match a
    case QLearning => "Q-learning"
    case Sarsa => "Sarsa"
  }

  function EnvName(k: EnvKind): string {
    match k
    case Maze => "Maze"
    case Cartpole => "Cartpole"
  }

  /** Every agent and environment has a name that selects it, and any other name selects nothing. */
  lemma ChooseByName(a: Algorithm, k: EnvKind, name: string)
    ensures ChooseAgent(AgentName(a)) == Some(a) && ChooseEnvironment(EnvName(k)) == Some(k)
    ensures ChooseAgent(name).None? <==> name != "Q-learning" && name != "Sarsa"
    ensures ChooseEnvironment(name).None? <==> name != "Maze" && name != "Cartpole"
  {
  }

  /** Sum of a list of rewards by a running total, as C_GCC and Go_go compute it. */
  method TotalReward(rs: seq<real>) returns (total: real)
    ensures total == Sum(rs)
  {
    total := 0.0;
    var j := 0;
    while j < |rs|
      invariant 0 <= j <= |rs|
      invariant total == Sum(rs[..j])
    {
      assert rs[..j + 1][..j] == rs[..j];
      total := total + rs[j];
      j := j + 1;
    }
    assert rs[..|rs|] == rs;
  }

  class Rl<E(!new)> {
    const env: RlEnv<E>
    const agent: Agent
    const qtable: QTable
    const maxEpisode: nat
    const maxStep: nat
    /** The random stream the agent's draws come from. */
    const rng: nat -> Draw
    /** The environment's current state. */
    var e: E
    /** How many draws have been taken from rng. */
    var clock: nat
    var episodeReturns: seq<real>
    var testHistory: History

    /** The setup the next episode runs with: the agent's current parameters. */
    ghost function CurrentSetup(): Setup<E>
      reads agent
    {
      Setup(env, agent.behaviour, rng, maxStep)
    }

    /** The table has a row per state and an entry per action. */
    ghost predicate Valid()
      reads qtable
    {
      qtable.Valid() && qtable.stateSize == env.stateSize && qtable.actionSize == env.actionSize
    }

    /** The environment and the agent with its current parameters meet what an episode relies on. */
    ghost predicate SetupValid()
      reads agent
    {
      agent.Valid() && SetupOk(CurrentSetup())
    }

    /** `new_rl` / `RL::new` from an environment and an agent already chosen: a filled table, no returns, an empty test history. */
    constructor (env: RlEnv<E>, agent: Agent, initQValue: real, maxEpisode: nat, maxStep: nat, rng: nat -> Draw)
      requires RlEnvValid(env) && agent.Valid()
      ensures Valid() && SetupValid() && fresh(qtable) && fresh(testHistory)
      ensures this.env == env && this.agent == agent && this.maxEpisode == maxEpisode && this.maxStep == maxStep
      ensures this.rng == rng && e == env.reset && clock == 0
      ensures qtable.table == Filled(env.stateSize, env.actionSize, initQValue)
      ensures episodeReturns == [] && testHistory.Valid() && testHistory.Length() == 0
    {
      this.env := env;
      this.agent := agent;
      this.maxEpisode := maxEpisode;
      this.maxStep := maxStep;
      this.rng := rng;
      qtable := new QTable(env.stateSize, env.actionSize, initQValue);
      e := env.reset;
      clock := 0;
      episodeReturns := [];
      testHistory := new History();
      ImplementsValid(agent.behaviour, agent.algorithm, agent.alpha, agent.gamma, agent.eps, env.stateSize, env.actionSize);
    }

    /** The loop variables of `run_episode` and this object's state are those of the snapshot sn. */
    ghost predicate Mirrors(sn: Snapshot<E>, s1: nat, a1: nat, h: History)
      reads this, qtable, h
    {
      && h.Valid() && sn.e == e && sn.table == qtable.table && sn.s1 == s1 && sn.a1 == a1
      && sn.clock == clock && sn.entries == h.Entries() && !sn.done
    }

    /**
     * One pass through the loop body of `run_episode`, up to the break test:
     * it computes Step, which either ends the remaining n passes or leaves
     * n - 1 of them.
     */
    method StepOnce(h: History, s1: nat, a1: nat, ghost su: Setup<E>, ghost cur: Snapshot<E>)
      returns (s2: nat, a2: nat, fin: bool, ghost next: Snapshot<E>)
      requires Valid() && agent.Valid() && su == CurrentSetup() && Ready(su, cur) && Mirrors(cur, s1, a1, h)
      modifies this, qtable, h
      ensures Valid() && h.Valid() && unchanged(this`episodeReturns) && unchanged(this`testHistory)
      ensures next == Step(su, cur)
      ensures fin == next.done && next.e == e && next.table == qtable.table && next.clock == clock && next.entries == h.Entries()
      ensures !fin ==> Mirrors(next, s2, a2, h)
    {
      e := env.step(e, a1);
      s2 := env.state(e);
      var r := env.reward(e);
      var info := env.info(e);
      var d := rng(clock);
      a2 := agent.Action(qtable, s2, d.u, d.pick);
      clock := clock + 1;
      h.Push(a1, r, s2, info);
      fin := env.isFinish(e);
      if fin {
        qtable.ZeroRow(s2);
      }
      agent.Learn(qtable, s1, a1, r, s2, a2);
      next := Step(su, cur);
    }

    /** The start of `run_episode`: reset, the first action chosen, the reset state recorded. */
    method Begin(ghost su: Setup<E>) returns (h: History, s1: nat, a1: nat, ghost cur: Snapshot<E>)
      requires Valid() && agent.Valid() && su == CurrentSetup() && SetupOk(su)
      modifies this
      ensures Valid() && fresh(h) && qtable.table == old(qtable.table)
      ensures unchanged(this`episodeReturns) && unchanged(this`testHistory)
      ensures cur == Start(su, old(qtable.table), old(clock)) && Ready(su, cur) && Mirrors(cur, s1, a1, h)
    {
      h := new History();
      e := env.reset;
      s1 := env.state(e);
      var r := env.reward(e);
      var info := env.info(e);
      var d := rng(clock);
      a1 := agent.Action(qtable, s1, d.u, d.pick);
      clock := clock + 1;
      h.Push(a1, r, s1, info);
      cur := Start(su, old(qtable.table), old(clock));
    }

    /** The loop of `run_episode` from the snapshot after reset: it computes max_step passes of Steps. */
    method StepLoop(h: History, s: nat, a: nat, ghost su: Setup<E>, ghost start: Snapshot<E>)
      requires Valid() && agent.Valid() && su == CurrentSetup() && Ready(su, start) && Mirrors(start, s, a, h)
      modifies this, qtable, h
      ensures Valid() && h.Valid() && unchanged(this`episodeReturns) && unchanged(this`testHistory)
      ensures var last := Steps(su, start, maxStep);
              h.Entries() == last.entries && qtable.table == last.table && e == last.e && clock == last.clock
    {
      ghost var cur := start;
      var s1, a1 := s, a;
      var i := 0;
      while i < maxStep
        invariant 0 <= i <= maxStep && Valid() && unchanged(this`episodeReturns) && unchanged(this`testHistory)
        invariant cur == Steps(su, start, i) && Mirrors(cur, s1, a1, h)
      {
        var s2, a2, fin;
        StepsNext(su, start, i);
        s2, a2, fin, cur := StepOnce(h, s1, a1, su, cur);
        if fin {
          StepsStayDone(su, start, i + 1, maxStep);
          return;
        }
        s1 := s2;
        a1 := a2;
        i := i + 1;
      }
    }

    /** `run_episode`: the history it returns, the table and the environment are those of Episode. */
    method RunEpisode() returns (h: History)
      requires Valid() && SetupValid()
      modifies this, qtable
      ensures Valid() && SetupValid() && fresh(h) && h.Valid()
      ensures unchanged(this`episodeReturns) && unchanged(this`testHistory)
      ensures var last := Episode(old(CurrentSetup()), old(qtable.table), old(clock));
              h.Entries() == last.entries && qtable.table == last.table && e == last.e && clock == last.clock
    {
      ghost var su := CurrentSetup();
      var s1, a1;
      ghost var start;
      h, s1, a1, start := Begin(su);
      StepLoop(h, s1, a1, su, start);
    }

    /** The state after k episodes of `run` from (e0, t0, c0), the returns appended to r0. */
    ghost predicate AfterEpisodes(su: Setup<E>, e0: E, t0: seq<seq<real>>, c0: nat, r0: seq<real>, k: nat)
      reads this, qtable
      requires SetupOk(su) && TableFits(su, t0)
    {
      var p := Episodes(su, e0, t0, c0, k);
      episodeReturns == r0 + p.episodeReturns && qtable.table == p.table && e == p.e && clock == p.clock
    }

    /** One pass of the loop of `run`: an episode, and its return appended. */
    method RunAndRecord(ghost su: Setup<E>, ghost e0: E, ghost t0: seq<seq<real>>, ghost c0: nat, ghost r0: seq<real>, ghost k: nat)
      requires Valid() && SetupValid() && su == CurrentSetup() && TableFits(su, t0)
      requires AfterEpisodes(su, e0, t0, c0, r0, k)
      modifies this, qtable
      ensures Valid() && SetupValid() && su == CurrentSetup() && unchanged(this`testHistory)
      ensures AfterEpisodes(su, e0, t0, c0, r0, k + 1)
    {
      ghost var before := Episodes(su, e0, t0, c0, k);
      var history := RunEpisode();
      var total := TotalReward(history.rewards);
      EpisodesNext(su, e0, t0, c0, k);
      assert history.rewards == RewardsOf(history.Entries());
      assert r0 + (before.episodeReturns + [total]) == episodeReturns + [total];
      episodeReturns := episodeReturns + [total];
    }

    /** `run`: one return per episode, the sum of that episode's recorded rewards, appended in order. */
    method Run()
      requires Valid() && SetupValid()
      modifies this, qtable
      ensures Valid() && SetupValid() && unchanged(this`testHistory)
      ensures var p := Episodes(old(CurrentSetup()), old(e), old(qtable.table), old(clock), maxEpisode);
              episodeReturns == old(episodeReturns) + p.episodeReturns && qtable.table == p.table && e == p.e && clock == p.clock
    {
      ghost var su := CurrentSetup();
      ghost var e0, t0, c0, r0 := e, qtable.table, clock, episodeReturns;
      var episode := 0;
      while episode < maxEpisode
        invariant 0 <= episode <= maxEpisode && Valid() && SetupValid() && unchanged(this`testHistory) && su == CurrentSetup()
        invariant AfterEpisodes(su, e0, t0, c0, r0, episode)
      {
        RunAndRecord(su, e0, t0, c0, r0, episode);
        episode := episode + 1;
      }
    }

    /**
     * C_GCC's `rl_run`: each episode's return is written to its slot, and
     * then a second loop writes the last episode's return into every slot.
     */
    method RunAsWritten()
      requires Valid() && SetupValid()
      modifies this, qtable
      ensures Valid() && SetupValid() && unchanged(this`testHistory)
      ensures var p := Episodes(old(CurrentSetup()), old(e), old(qtable.table), old(clock), maxEpisode);
              episodeReturns == AllLast(p.episodeReturns) && qtable.table == p.table && e == p.e && clock == p.clock
    {
      ghost var su := CurrentSetup();
      ghost var e0, t0, c0 := e, qtable.table, clock;
      var slots: seq<real> := [];
      var last := 0.0;
      var i := 0;
      while i < maxEpisode
        invariant 0 <= i <= maxEpisode && Valid() && SetupValid() && unchanged(this`testHistory) && su == CurrentSetup()
        invariant var p := Episodes(su, e0, t0, c0, i);
                  slots == p.episodeReturns && qtable.table == p.table && e == p.e && clock == p.clock
        invariant i > 0 ==> last == slots[i - 1]
      {
        ghost var before := Episodes(su, e0, t0, c0, i);
        var history := RunEpisode();
        last := TotalReward(history.rewards);
        EpisodesNext(su, e0, t0, c0, i);
        assert history.rewards == RewardsOf(history.Entries());
        slots := slots + [last];
        i := i + 1;
      }
      ghost var written := slots;
      var j := 0;
      while j < maxEpisode
        invariant 0 <= j <= maxEpisode && |slots| == maxEpisode
        invariant forall k :: 0 <= k < maxEpisode ==> slots[k] == if k < j then last else written[k]
      {
        slots := slots[j := last];
        j := j + 1;
      }
      episodeReturns := slots;
    }

    /** `run_test`: `fix`, then one episode whose history becomes the test history. */
    method RunTest()
      requires Valid() && SetupValid()
      modifies this, qtable, agent
      ensures Valid() && SetupValid() && agent.alpha == 0.0 && agent.eps == 0.0
      ensures agent.behaviour == Fns(agent.algorithm, 0.0, agent.gamma, 0.0)
      ensures unchanged(this`episodeReturns) && fresh(testHistory) && testHistory.Valid()
      ensures var last := Episode(CurrentSetup(), old(qtable.table), old(clock));
              testHistory.Entries() == last.entries && qtable.table == last.table && e == last.e && clock == last.clock
    {
      agent.Fix();
      ImplementsValid(agent.behaviour, agent.algorithm, agent.alpha, agent.gamma, agent.eps, env.stateSize, env.actionSize);
      testHistory := RunEpisode();
    }
  }
}
