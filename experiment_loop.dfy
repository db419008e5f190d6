/**
 * The experiment generation's runner (rust/src experiment.rs, python3
 * experiment.py).
 *
 * `run` plays up to max_episode episodes and keeps a success streak: it
 * grows by one after an episode that ends in success and drops to 0 after
 * one that does not; one return is recorded per episode, and training stops
 * as soon as the streak reaches max_succeeded_episode.
 *
 * The two ports run an episode differently:
 *   - rust/src records the reset state with the first chosen action, and
 *     then, for at most max_step steps, executes the pending action, chooses
 *     the next one, learns from (s1, a1, r, s2, a2), records the executed
 *     action with its reward and state, and stops after a step that is done.
 *     Nothing zeroes the terminal row. The return is the sum of the recorded
 *     rewards, the reset state's included.
 *   - python3 records nothing; each step chooses an action for the current
 *     state, executes it, adds the reward to a running total and learns from
 *     (s, a, r, s', 0), and it stops after a step that is done.
 * Both report success as `is_success` of the state the episode ends in.
 *
 * As in RlLoop, the episode and the training are functions over values, and
 * the methods are proved to compute exactly them.
 */
module ExperimentLoop {
  import opened QTables
  import opened Agents
  import opened Histories
  import opened Environments
  import RlLoop

  /** Which port's episode loop. */
  datatype Style = RustSrc | Python3

  /**
   * What an episode reads and never changes: the environment, the agent's
   * algorithm and parameters, the random stream and max_step.
   */
  datatype Setup<!E> = Setup(env: ExperimentEnv<E>, algorithm: Algorithm, alpha: real, gamma: real, eps: real,
                             rng: nat -> Draw, maxStep: nat)

  ghost predicate SetupOk<E(!new)>(su: Setup<E>) {
    ExperimentEnvValid(su.env)
  }

  ghost predicate TableFits<E(!new)>(su: Setup<E>, t: seq<seq<real>>) {
    Shaped(t, su.env.stateSize, su.env.actionSize)
  }

  /**
   * The loop variables between two steps: the environment state, the table,
   * the current state index s1, the action a (in rust/src the pending one,
   * in python3 the last one executed), the position in the random stream,
   * the records (rust/src), the step rewards (python3), and whether the
   * last step was done.
   */
  datatype Snapshot<E> = Snapshot(e: E, table: seq<seq<real>>, s1: nat, a: nat, clock: nat,
                                  entries: seq<Entry>, rewards: seq<real>, done: bool)

  ghost predicate Ready<E(!new)>(su: Setup<E>, sn: Snapshot<E>) {
    && SetupOk(su)
    && su.env.ok(sn.e) && (sn.e == su.env.reset || !su.env.isDone(sn.e))
    && TableFits(su, sn.table)
    && sn.s1 < su.env.stateSize && sn.a < su.env.actionSize
  }

  /** `agent.a(q_table, s)`, using draw number clock. */
  function Choose<E(!new)>(su: Setup<E>, t: seq<seq<real>>, s: nat, clock: nat): (a: nat)
    requires SetupOk(su) && TableFits(su, t) && s < su.env.stateSize
    ensures a < su.env.actionSize
  {
    var d := su.rng(clock);
    Choice(su.eps, t[s], d.u, d.pick)
  }

  /**
   * After `reset`. rust/src: s1 = s2 = s(), a1 = a2 = the first choice, and
   * the reset state recorded. python3: s = s(), nothing chosen or recorded.
   */
  function Start<E(!new)>(style: Style, su: Setup<E>, t: seq<seq<real>>, clock: nat): (sn: Snapshot<E>)
    requires SetupOk(su) && TableFits(su, t)
    ensures Ready(su, sn) && !sn.done
  {
    var env := su.env;
    var e := env.reset;
    var s := env.state(e);
    match style
    case RustSrc =>
      var a := Choose(su, t, s, clock);
      Snapshot(e, t, s, a, clock + 1, [Entry(a, env.reward(e), s, env.info(e))], [], false)
    case Python3 =>
      Snapshot(e, t, s, 0, clock, [], [], false)
  }

  /** One pass through the loop body of `run_episode`, up to the break test. */
  function Step<E(!new)>(style: Style, su: Setup<E>, sn: Snapshot<E>): (next: Snapshot<E>)
    requires Ready(su, sn)
    ensures !next.done ==> Ready(su, next)
    ensures su.env.ok(next.e) && TableFits(su, next.table)
  {
    var env := su.env;
    match style
    case RustSrc =>
      var e := env.step(sn.e, sn.a);
      var s2 := env.state(e);
      var a2 := Choose(su, sn.table, s2, sn.clock);
      var r := env.reward(e);
      Snapshot(e, Learned(su.algorithm, su.alpha, su.gamma, sn.table, sn.s1, sn.a, r, s2, a2), s2, a2, sn.clock + 1,
               sn.entries + [Entry(sn.a, r, s2, env.info(e))], sn.rewards, env.isDone(e))
    case Python3 =>
      var a := Choose(su, sn.table, sn.s1, sn.clock);
      var e := env.step(sn.e, a);
      var s := env.state(e);
      var r := env.reward(e);
      Snapshot(e, Learned(su.algorithm, su.alpha, su.gamma, sn.table, sn.s1, a, r, s, 0), s, a, sn.clock + 1,
               sn.entries, sn.rewards + [r], env.isDone(e))
  }

  /** A python3 step appends the reward of the state it reaches, so the sum of the rewards grows by exactly that. */
  lemma Python3StepAddsReward<E(!new)>(su: Setup<E>, sn: Snapshot<E>)
    requires Ready(su, sn)
    ensures var next := Step(Python3, su, sn);
            && next.rewards == sn.rewards + [su.env.reward(next.e)]
            && RlLoop.Sum(next.rewards) == RlLoop.Sum(sn.rewards) + su.env.reward(next.e)
  {
    var next := Step(Python3, su, sn);
    assert next.rewards[..|next.rewards| - 1] == sn.rewards;
  }

  /** At most n passes, leaving the loop after the first pass that is done. */
  function Steps<E(!new)>(style: Style, su: Setup<E>, sn: Snapshot<E>, n: nat): (last: Snapshot<E>)
    requires Ready(su, sn)
    ensures su.env.ok(last.e) && TableFits(su, last.table)
    ensures !last.done ==> Ready(su, last)
    decreases n, 2
  {
    if n == 0 then sn else StepsPass(style, su, sn, n)
  }

  /** Pass n of the loop: nothing once an earlier pass has broken out, one more Step otherwise. */
  function StepsPass<E(!new)>(style: Style, su: Setup<E>, sn: Snapshot<E>, n: nat): (last: Snapshot<E>)
    requires Ready(su, sn) && n > 0
    ensures su.env.ok(last.e) && TableFits(su, last.table)
    ensures !last.done ==> Ready(su, last)
    decreases n, 1
  {
    var before := Steps(style, su, sn, n - 1);
    if before.done then before else StepsAdvance(style, su, sn, n)
  }

  /** Pass n when the earlier ones have not broken out: one more Step. */
  function StepsAdvance<E(!new)>(style: Style, su: Setup<E>, sn: Snapshot<E>, n: nat): (last: Snapshot<E>)
    requires Ready(su, sn) && n > 0 && !Steps(style, su, sn, n - 1).done
    ensures su.env.ok(last.e) && TableFits(su, last.table)
    ensures !last.done ==> Ready(su, last)
    decreases n, 0
  {
    Step(style, su, Steps(style, su, sn, n - 1))
  }

  /** `run_episode` from a table and a position in the random stream. */
  function Episode<E(!new)>(style: Style, su: Setup<E>, t: seq<seq<real>>, clock: nat): (last: Snapshot<E>)
    requires SetupOk(su) && TableFits(su, t)
    ensures su.env.ok(last.e) && TableFits(su, last.table)
  {
    Steps(style, su, Start(style, su, t, clock), su.maxStep)
  }

  /** What `run` adds up for an episode: the recorded rewards (rust/src) or the step rewards (python3). */
  function EpisodeReturn<E>(style: Style, last: Snapshot<E>): real {
    match style
    case RustSrc => RlLoop.Return(last.entries)
    case Python3 => RlLoop.Sum(last.rewards)
  }

  /** `is_success` of the state the episode ended in. */
  function Succeeded<E(!new)>(su: Setup<E>, last: Snapshot<E>): bool
    requires SetupOk(su) && su.env.ok(last.e)
  {
    su.env.isSuccess(last.e)
  }

  /** Pass n of the loop, in one piece: nothing after a done step, one more Step otherwise. */
  lemma StepsUnfold<E(!new)>(style: Style, su: Setup<E>, sn: Snapshot<E>, n: nat)
    requires Ready(su, sn) && n > 0
    ensures var before := Steps(style, su, sn, n - 1);
            Steps(style, su, sn, n) == if before.done then before else Step(style, su, before)
  {
    assert Steps(style, su, sn, n) == StepsPass(style, su, sn, n);
  }

  lemma StepsNext<E(!new)>(style: Style, su: Setup<E>, sn: Snapshot<E>, i: nat)
    requires Ready(su, sn) && !Steps(style, su, sn, i).done
    ensures Steps(style, su, sn, i + 1) == Step(style, su, Steps(style, su, sn, i))
  {
    StepsUnfold(style, su, sn, i + 1);
  }

  /** Once the loop has been left, further passes change nothing. */
  lemma {:induction false} StepsStayDone<E(!new)>(style: Style, su: Setup<E>, sn: Snapshot<E>, k: nat, n: nat)
    requires Ready(su, sn) && k <= n && Steps(style, su, sn, k).done
    ensures Steps(style, su, sn, n) == Steps(style, su, sn, k)
    decreases n
  {
    if k < n {
      StepsStayDone(style, su, sn, k, n - 1);
      StepsUnfold(style, su, sn, n);
    }
  }

  /**
   * What n passes add: rust/src one record per step and no step rewards,
   * python3 one step reward per step and no record; at least one step when
   * n > 0 and fewer than n only when the last one was done; earlier records
   * and rewards stay.
   */
  lemma {:induction false} StepsCount<E(!new)>(style: Style, su: Setup<E>, sn: Snapshot<E>, n: nat)
    requires Ready(su, sn) && !sn.done
    ensures var last := Steps(style, su, sn, n);
            var added := if style == RustSrc then |last.entries| - |sn.entries| else |last.rewards| - |sn.rewards|;
            && |sn.entries| <= |last.entries| && |sn.rewards| <= |last.rewards|
            && last.entries[..|sn.entries|] == sn.entries && last.rewards[..|sn.rewards|] == sn.rewards
            && (style == RustSrc ==> last.rewards == sn.rewards)
            && (style == Python3 ==> last.entries == sn.entries)
            && added <= n && (n > 0 ==> added > 0)
            && (added < n ==> last.done)
            && (last.done ==> su.env.isDone(last.e))
    decreases n
  {
    if n > 0 {
      StepsCount(style, su, sn, n - 1);
      StepsUnfold(style, su, sn, n);
      var before := Steps(style, su, sn, n - 1);
      if !before.done {
        var last := Step(style, su, before);
        assert last.entries[..|sn.entries|] == last.entries[..|before.entries|][..|sn.entries|];
        assert last.rewards[..|sn.rewards|] == last.rewards[..|before.rewards|][..|sn.rewards|];
      }
    }
  }

  /**
   * rust/src's episode: the first record is the reset state with the first
   * chosen action, then between 1 and max_step step records, fewer than
   * max_step only when the episode ended on a done state.
   */
  lemma RustEpisodeShape<E(!new)>(su: Setup<E>, t: seq<seq<real>>, clock: nat)
    requires SetupOk(su) && TableFits(su, t)
    ensures var last := Episode(RustSrc, su, t, clock);
            var env := su.env;
            var s0 := env.state(env.reset);
            && 1 <= |last.entries| <= su.maxStep + 1
            && (su.maxStep > 0 ==> |last.entries| >= 2)
            && last.entries[0] == Entry(Choose(su, t, s0, clock), env.reward(env.reset), s0, env.info(env.reset))
            && (|last.entries| < su.maxStep + 1 ==> env.isDone(last.e))
  {
    var start := Start(RustSrc, su, t, clock);
    StepsCount(RustSrc, su, start, su.maxStep);
    var last := Episode(RustSrc, su, t, clock);
    assert last.entries[0] == last.entries[..1][0] == start.entries[0];
  }

  /**
   * python3's episode records nothing and adds up between 1 and max_step
   * step rewards, fewer than max_step only when it ended on a done state.
   */
  lemma Python3EpisodeShape<E(!new)>(su: Setup<E>, t: seq<seq<real>>, clock: nat)
    requires SetupOk(su) && TableFits(su, t)
    ensures var last := Episode(Python3, su, t, clock);
            && last.entries == [] && |last.rewards| <= su.maxStep
            && (su.maxStep > 0 ==> |last.rewards| >= 1)
            && (|last.rewards| < su.maxStep ==> su.env.isDone(last.e))
  {
    StepsCount(Python3, su, Start(Python3, su, t, clock), su.maxStep);
  }

  /**
   * rust/src's first step executes the action chosen at the reset, because
   * the loop begins with a1 := a2 and a2 was chosen with a1.
   */
  lemma RustFirstStepRunsFirstChoice<E(!new)>(su: Setup<E>, t: seq<seq<real>>, clock: nat)
    requires SetupOk(su) && TableFits(su, t) && su.maxStep > 0
    ensures var last := Episode(RustSrc, su, t, clock);
            |last.entries| >= 2 && last.entries[1].action == last.entries[0].action
  {
    var start := Start(RustSrc, su, t, clock);
    StepsCount(RustSrc, su, start, su.maxStep);
    StepsFirstRecord(su, start, su.maxStep);
    var last := Episode(RustSrc, su, t, clock);
    assert last.entries[0] == last.entries[..1][0] == start.entries[0];
  }

  /** The first record n passes add holds the pending action the passes started with. */
  lemma {:induction false} StepsFirstRecord<E(!new)>(su: Setup<E>, sn: Snapshot<E>, n: nat)
    requires Ready(su, sn) && !sn.done && n > 0
    ensures var last := Steps(RustSrc, su, sn, n);
            |last.entries| > |sn.entries| && last.entries[|sn.entries|].action == sn.a
    decreases n
  {
    StepsUnfold(RustSrc, su, sn, n);
    if n > 1 {
      StepsFirstRecord(su, sn, n - 1);
      var before := Steps(RustSrc, su, sn, n - 1);
      if !before.done {
        assert Step(RustSrc, su, before).entries[|sn.entries|] == before.entries[|sn.entries|];
      }
    }
  }

  /**
   * A step learns from exactly what it executed: only the cell of the state
   * the step started in and the action it executed can change; rust/src
   * does not zero the terminal row, and python3 passes action 0 as the next
   * action.
   */
  lemma StepLearnsOneCell<E(!new)>(style: Style, su: Setup<E>, sn: Snapshot<E>)
    requires Ready(su, sn)
    ensures var next := Step(style, su, sn);
            var a := if style == RustSrc then sn.a else next.a;
            var r := su.env.reward(next.e);
            && next.s1 == su.env.state(next.e)
            && next.table == Learned(su.algorithm, su.alpha, su.gamma, sn.table, sn.s1, a, r, next.s1,
                                     if style == RustSrc then next.a else 0)
            && (forall i, j :: 0 <= i < |sn.table| && 0 <= j < |sn.table[i]| && (i != sn.s1 || j != a) ==>
                  next.table[i][j] == sn.table[i][j])
  {
    var next := Step(style, su, sn);
    var a := if style == RustSrc then sn.a else next.a;
    var a2 := if style == RustSrc then next.a else 0;
    var r := su.env.reward(next.e);
    LearnedFrame(su.algorithm, su.alpha, su.gamma, sn.table, sn.s1, a, r, next.s1, a2);
  }

  /** With alpha = 0, as after `fix`, a step leaves the table exactly as it was. */
  lemma FrozenStep<E(!new)>(style: Style, su: Setup<E>, sn: Snapshot<E>)
    requires Ready(su, sn) && su.alpha == 0.0
    ensures Step(style, su, sn).table == sn.table
  {
    var next := Step(style, su, sn);
    var a := if style == RustSrc then sn.a else next.a;
    var a2 := if style == RustSrc then next.a else 0;
    var r := su.env.reward(next.e);
    LearnedFrozen(su.algorithm, su.gamma, sn.table, sn.s1, a, r, next.s1, a2);
  }

  /**
   * With alpha = 0 a whole episode leaves the table as it was: unlike the
   * config generation, which zeroes a terminal row, the experiment
   * generation's test episode does not touch the table.
   */
  lemma {:induction false} FrozenStepsKeepTable<E(!new)>(style: Style, su: Setup<E>, sn: Snapshot<E>, n: nat)
    requires Ready(su, sn) && !sn.done && su.alpha == 0.0
    ensures Steps(style, su, sn, n).table == sn.table
    decreases n
  {
    if n > 0 {
      FrozenStepsKeepTable(style, su, sn, n - 1);
      StepsUnfold(style, su, sn, n);
      var before := Steps(style, su, sn, n - 1);
      if !before.done {
        FrozenStep(style, su, before);
      }
    }
  }

  /** The returns, successes, streak and final state after k passes of `run`'s loop. */
  datatype Progress<E> = Progress(episodeReturns: seq<real>, successes: seq<bool>, count: nat, stopped: bool,
                                  e: E, table: seq<seq<real>>, clock: nat)

  /**
   * One pass of `run`'s loop before the break: an episode from where the
   * earlier ones left the table and the random stream, the streak updated,
   * the return recorded and the break test taken.
   */
  function TrainStep<E(!new)>(style: Style, su: Setup<E>, maxSucc: nat, before: Progress<E>): (p: Progress<E>)
    requires SetupOk(su) && TableFits(su, before.table)
    ensures TableFits(su, p.table) && su.env.ok(p.e)
    ensures |p.episodeReturns| == |before.episodeReturns| + 1 && |p.successes| == |before.successes| + 1
  {
    var ep := Episode(style, su, before.table, before.clock);
    var ok := Succeeded(su, ep);
    var count := if ok then before.count + 1 else 0;
    Progress(before.episodeReturns + [EpisodeReturn(style, ep)], before.successes + [ok], count,
             count >= maxSucc, ep.e, ep.table, ep.clock)
  }

  /**
   * k passes of `run`'s loop, from a streak of count0 and an environment in
   * state e: each pass after a break changes nothing.
   */
  function Train<E(!new)>(style: Style, su: Setup<E>, maxSucc: nat, count0: nat, e: E, t: seq<seq<real>>,
                          clock: nat, k: nat): (p: Progress<E>)
    requires SetupOk(su) && TableFits(su, t)
    ensures TableFits(su, p.table) && |p.episodeReturns| == |p.successes| <= k
    ensures p.successes != [] ==> su.env.ok(p.e)
    decreases k, 2
  {
    if k == 0 then Progress([], [], count0, false, e, t, clock)
    else TrainPass(style, su, maxSucc, count0, e, t, clock, k)
  }

  /** Pass k of `run`'s loop: nothing once an earlier pass has broken out, one more TrainStep otherwise. */
  function TrainPass<E(!new)>(style: Style, su: Setup<E>, maxSucc: nat, count0: nat, e: E, t: seq<seq<real>>,
                              clock: nat, k: nat): (p: Progress<E>)
    requires SetupOk(su) && TableFits(su, t) && k > 0
    ensures TableFits(su, p.table) && |p.episodeReturns| == |p.successes| <= k
    ensures p.successes != [] ==> su.env.ok(p.e)
    decreases k, 1
  {
    var before := Train(style, su, maxSucc, count0, e, t, clock, k - 1);
    if before.stopped then before else Advance(style, su, maxSucc, count0, e, t, clock, k)
  }

  /** Pass k when the earlier ones have not broken out: one more TrainStep. */
  function Advance<E(!new)>(style: Style, su: Setup<E>, maxSucc: nat, count0: nat, e: E, t: seq<seq<real>>,
                            clock: nat, k: nat): (p: Progress<E>)
    requires SetupOk(su) && TableFits(su, t) && k > 0
    ensures TableFits(su, p.table) && |p.episodeReturns| == |p.successes| <= k
    ensures p.successes != [] ==> su.env.ok(p.e)
    decreases k, 0
  {
    TrainStep(style, su, maxSucc, Train(style, su, maxSucc, count0, e, t, clock, k - 1))
  }

  /** Pass k of `run`'s loop, in one piece: nothing after the break, one more TrainStep otherwise. */
  lemma TrainUnfold<E(!new)>(style: Style, su: Setup<E>, maxSucc: nat, count0: nat, e: E, t: seq<seq<real>>,
                             clock: nat, k: nat)
    requires SetupOk(su) && TableFits(su, t) && k > 0
    ensures var before := Train(style, su, maxSucc, count0, e, t, clock, k - 1);
            Train(style, su, maxSucc, count0, e, t, clock, k) ==
              if before.stopped then before else TrainStep(style, su, maxSucc, before)
  {
    assert Train(style, su, maxSucc, count0, e, t, clock, k) == TrainPass(style, su, maxSucc, count0, e, t, clock, k);
  }

  /** Before the break, one more pass is one more TrainStep. */
  lemma TrainNext<E(!new)>(style: Style, su: Setup<E>, maxSucc: nat, count0: nat, e: E, t: seq<seq<real>>, clock: nat, k: nat)
    requires SetupOk(su) && TableFits(su, t) && !Train(style, su, maxSucc, count0, e, t, clock, k).stopped
    ensures Train(style, su, maxSucc, count0, e, t, clock, k + 1) ==
              TrainStep(style, su, maxSucc, Train(style, su, maxSucc, count0, e, t, clock, k))
  {
    TrainUnfold(style, su, maxSucc, count0, e, t, clock, k + 1);
  }

  /** After the break, further passes change nothing. */
  lemma {:induction false} TrainStayStopped<E(!new)>(style: Style, su: Setup<E>, maxSucc: nat, count0: nat, e: E,
                                                    t: seq<seq<real>>, clock: nat, k: nat, n: nat)
    requires SetupOk(su) && TableFits(su, t) && k <= n && Train(style, su, maxSucc, count0, e, t, clock, k).stopped
    ensures Train(style, su, maxSucc, count0, e, t, clock, n) == Train(style, su, maxSucc, count0, e, t, clock, k)
    decreases n
  {
    if k < n {
      TrainStayStopped(style, su, maxSucc, count0, e, t, clock, k, n - 1);
      TrainUnfold(style, su, maxSucc, count0, e, t, clock, n);
    }
  }

  /** The streak after episodes with outcomes bs, from a streak of c: +1 on success, 0 on failure. */
  function Streak(c: nat, bs: seq<bool>): nat {
    if bs == [] then c
    else if bs[|bs| - 1] then Streak(c, bs[..|bs| - 1]) + 1
    else 0
  }

  /**
   * What a streak counts: the last `Streak` outcomes all succeeded (all of
   * them, if fewer), a streak longer than the outcomes carried over from
   * before, and the outcome just before the streak failed.
   */
  lemma {:induction false} StreakIsTrailingSuccesses(c: nat, bs: seq<bool>)
    ensures var n, k := |bs|, Streak(c, bs);
            && (forall i :: 0 <= i < n && n - k <= i ==> bs[i])
            && (k < n ==> !bs[n - 1 - k])
            && (k > n ==> k == c + n)
    decreases |bs|
  {
    if bs != [] {
      var n := |bs|;
      var prev := bs[..n - 1];
      StreakIsTrailingSuccesses(c, prev);
      forall i | 0 <= i < n && n - Streak(c, bs) <= i
        ensures bs[i]
      {
        if i < n - 1 {
          assert bs[i] == prev[i];
        }
      }
      if Streak(c, bs) < n && Streak(c, bs) > 0 {
        assert bs[n - 1 - Streak(c, bs)] == prev[n - 1 - Streak(c, bs)];
      }
    }
  }

  /**
   * Training keeps the streak of the outcomes so far, breaks exactly when
   * the streak has reached max_succeeded_episode after at least one
   * episode, and runs fewer than k episodes only by that break.
   */
  lemma {:induction false} TrainStreak<E(!new)>(style: Style, su: Setup<E>, maxSucc: nat, count0: nat, e: E,
                                               t: seq<seq<real>>, clock: nat, k: nat)
    requires SetupOk(su) && TableFits(su, t)
    ensures var p := Train(style, su, maxSucc, count0, e, t, clock, k);
            && p.count == Streak(count0, p.successes)
            && (p.stopped <==> p.successes != [] && p.count >= maxSucc)
            && (|p.successes| < k ==> p.stopped)
    decreases k
  {
    if k > 0 {
      TrainStreak(style, su, maxSucc, count0, e, t, clock, k - 1);
      var before := Train(style, su, maxSucc, count0, e, t, clock, k - 1);
      TrainUnfold(style, su, maxSucc, count0, e, t, clock, k);
      if !before.stopped {
        TrainStepStreak(style, su, maxSucc, count0, before);
      }
    }
  }

  /** One pass of training adds its outcome to the streak and takes the break test on it. */
  lemma TrainStepStreak<E(!new)>(style: Style, su: Setup<E>, maxSucc: nat, count0: nat, before: Progress<E>)
    requires SetupOk(su) && TableFits(su, before.table) && before.count == Streak(count0, before.successes)
    ensures var p := TrainStep(style, su, maxSucc, before);
            && p.count == Streak(count0, p.successes) && p.successes != []
            && (p.stopped <==> p.count >= maxSucc)
  {
    var p := TrainStep(style, su, maxSucc, before);
    assert p.successes[..|p.successes| - 1] == before.successes;
  }

  /**
   * With max_succeeded_episode = 0 the streak test passes after the very
   * first episode, whatever its outcome, so exactly one episode runs.
   */
  lemma ZeroStreakRunsOneEpisode<E(!new)>(style: Style, su: Setup<E>, count0: nat, e: E,
                                          t: seq<seq<real>>, clock: nat, k: nat)
    requires SetupOk(su) && TableFits(su, t) && k > 0
    ensures |Train(style, su, 0, count0, e, t, clock, k).episodeReturns| == 1
  {
    assert Train(style, su, 0, count0, e, t, clock, 1).stopped;
    TrainStayStopped(style, su, 0, count0, e, t, clock, 1, k);
  }

  /**
   * The environment object (`Box<dyn Environment>` in rust/src, `self.env`
   * in python3): its interface and the state that `reset` and `run_step`
   * replace.
   */
  class EnvObject<E(!new)> {
    const iface: ExperimentEnv<E>
    var e: E

    constructor (iface: ExperimentEnv<E>)
      ensures this.iface == iface && e == iface.reset
    {
      this.iface := iface;
      e := iface.reset;
    }
  }

  /**
   * rust/src `Experiment`: the environment, the agent and its random
   * stream, the table, the limits, the success streak and the returns.
   */
  class RustExperiment<E(!new)> {
    const env: EnvObject<E>
    const agent: Agent
    const stream: Stream
    const qtable: QTable
    const maxEpisode: nat
    const maxStep: nat
    const maxSucceededEpisode: nat
    var successCount: nat
    var episodeReturns: seq<real>

    ghost function CurrentSetup(): Setup<E>
      reads agent
    {
      Setup(env.iface, agent.algorithm, agent.alpha, agent.gamma, agent.eps, stream.rng, maxStep)
    }

    /** The table has a row per state and an entry per action. */
    ghost predicate Valid()
      reads qtable
    {
      qtable.Valid() && qtable.stateSize == env.iface.stateSize && qtable.actionSize == env.iface.actionSize
    }

    /** The environment and the agent with its current parameters meet what an episode relies on. */
    ghost predicate SetupValid()
      reads agent
    {
      SetupOk(CurrentSetup())
    }

    /** `Experiment::new`: a table of s_space rows of a_space entries, all init_q; no returns; a streak of 0. */
    constructor (env: EnvObject<E>, agent: Agent, stream: Stream, initQ: real, maxEpisode: nat, maxStep: nat,
                 maxSucceededEpisode: nat)
      requires ExperimentEnvValid(env.iface)
      ensures Valid() && SetupValid() && fresh(qtable)
      ensures this.env == env && this.agent == agent && this.stream == stream
      ensures this.maxEpisode == maxEpisode && this.maxStep == maxStep && this.maxSucceededEpisode == maxSucceededEpisode
      ensures successCount == 0 && episodeReturns == []
      ensures qtable.table == Filled(env.iface.stateSize, env.iface.actionSize, initQ)
    {
      this.env := env;
      this.agent := agent;
      this.stream := stream;
      this.maxEpisode := maxEpisode;
      this.maxStep := maxStep;
      this.maxSucceededEpisode := maxSucceededEpisode;
      qtable := new QTable(env.iface.stateSize, env.iface.actionSize, initQ);
      successCount := 0;
      episodeReturns := [];
    }

    /** The loop variables of `run_episode` and the objects' state are those of the snapshot sn. */
    ghost predicate Mirrors(sn: Snapshot<E>, s1: nat, a2: nat, h: History)
      reads env, stream, qtable, h
    {
      && h.Valid() && sn.e == env.e && sn.table == qtable.table && sn.s1 == s1 && sn.a == a2
      && sn.clock == stream.clock && sn.entries == h.Entries() && sn.rewards == [] && !sn.done
    }

    /** The history, the table, the environment and the stream are those of the snapshot sn. */
    ghost predicate Holds(sn: Snapshot<E>, h: History)
      reads env, stream, qtable, h
    {
      h.Valid() && sn.entries == h.Entries() && sn.table == qtable.table && sn.e == env.e && sn.clock == stream.clock
    }

    /** The start of `run_episode`: reset, s1 = s2 = s(), a1 = a2 chosen, the reset state recorded. */
    method Begin(ghost su: Setup<E>) returns (h: History, s1: nat, a2: nat, ghost cur: Snapshot<E>)
      requires Valid() && su == CurrentSetup() && SetupOk(su)
      modifies env, stream
      ensures fresh(h)
      ensures cur == Start(RustSrc, su, qtable.table, old(stream.clock)) && Mirrors(cur, s1, a2, h)
    {
      h := new History();
      var iface := env.iface;
      env.e := iface.reset;
      s1 := iface.state(env.e);
      var d := stream.rng(stream.clock);
      a2 := agent.Action(qtable, s1, d.u, d.pick);
      stream.clock := stream.clock + 1;
      h.Push(a2, iface.reward(env.e), s1, iface.info(env.e));
      cur := Start(RustSrc, su, qtable.table, old(stream.clock));
    }

    /**
     * The loop body: a1 := a2, run it, choose a2, learn, record, s1 := s2,
     * and the break test. It computes one Step.
     */
    method StepOnce(h: History, s1: nat, a2: nat, ghost su: Setup<E>, ghost cur: Snapshot<E>)
      returns (s2: nat, a2': nat, done: bool, ghost next: Snapshot<E>)
      requires Valid() && su == CurrentSetup() && Ready(su, cur) && Mirrors(cur, s1, a2, h)
      modifies env, stream, qtable, h
      ensures Valid() && next == Step(RustSrc, su, cur) && done == next.done
      ensures done ==> Holds(next, h)
      ensures !done ==> Mirrors(next, s2, a2', h)
    {
      var iface := env.iface;
      var a1 := a2;
      env.e := iface.step(env.e, a1);
      s2 := iface.state(env.e);
      var d := stream.rng(stream.clock);
      a2' := agent.Action(qtable, s2, d.u, d.pick);
      stream.clock := stream.clock + 1;
      var r := iface.reward(env.e);
      agent.Learn(qtable, s1, a1, r, s2, a2');
      h.Push(a1, r, s2, iface.info(env.e));
      done := iface.isDone(env.e);
      next := Step(RustSrc, su, cur);
    }

    /** Pass i of the loop: pass i + 1 of Steps, and after a step that is done the whole loop's result. */
    method Pass(h: History, s1: nat, a2: nat, ghost su: Setup<E>, ghost start: Snapshot<E>, ghost i: nat,
                ghost cur: Snapshot<E>)
      returns (s2: nat, a2': nat, done: bool, ghost next: Snapshot<E>)
      requires Valid() && su == CurrentSetup() && Ready(su, start) && i < maxStep
      requires cur == Steps(RustSrc, su, start, i) && Mirrors(cur, s1, a2, h)
      modifies env, stream, qtable, h
      ensures Valid() && next == Steps(RustSrc, su, start, i + 1)
      ensures done ==> next == Steps(RustSrc, su, start, maxStep) && Holds(next, h)
      ensures !done ==> Mirrors(next, s2, a2', h)
    {
      StepsNext(RustSrc, su, start, i);
      s2, a2', done, next := StepOnce(h, s1, a2, su, cur);
      if done {
        StepsStayDone(RustSrc, su, start, i + 1, maxStep);
      }
    }

    /** The loop of `run_episode`: max_step passes of Steps. */
    method StepLoop(h: History, s: nat, a: nat, ghost su: Setup<E>, ghost start: Snapshot<E>)
      requires Valid() && su == CurrentSetup() && Ready(su, start) && Mirrors(start, s, a, h)
      modifies env, stream, qtable, h
      ensures Valid()
      ensures Holds(Steps(RustSrc, su, start, maxStep), h)
    {
      ghost var cur := start;
      var s1, a2 := s, a;
      var i := 0;
      while i < maxStep
        invariant 0 <= i <= maxStep && Valid()
        invariant cur == Steps(RustSrc, su, start, i) && Mirrors(cur, s1, a2, h)
      {
        var done;
        s1, a2, done, cur := Pass(h, s1, a2, su, start, i, cur);
        if done {
          return;
        }
        i := i + 1;
      }
    }

    /** `run_episode`: the history and the success flag are those of Episode. */
    method RunEpisode() returns (h: History, succeeded: bool)
      requires Valid() && SetupValid()
      modifies env, stream, qtable
      ensures Valid() && fresh(h) && h.Valid()
      ensures var last := Episode(RustSrc, CurrentSetup(), old(qtable.table), old(stream.clock));
              && h.Entries() == last.entries && qtable.table == last.table && env.e == last.e
              && stream.clock == last.clock && succeeded == Succeeded(CurrentSetup(), last)
    {
      ghost var su := CurrentSetup();
      var s1, a2;
      ghost var start;
      h, s1, a2, start := Begin(su);
      StepLoop(h, s1, a2, su, start);
      succeeded := env.iface.isSuccess(env.e);
    }

    /** The objects' state after k passes of `run`'s loop from (c0, e0, t0, k0), the returns appended to r0. */
    ghost predicate AfterTraining(su: Setup<E>, c0: nat, e0: E, t0: seq<seq<real>>, k0: nat, r0: seq<real>, k: nat)
      reads this, env, stream, qtable
      requires SetupOk(su) && TableFits(su, t0)
    {
      var p := Train(RustSrc, su, maxSucceededEpisode, c0, e0, t0, k0, k);
      && episodeReturns == r0 + p.episodeReturns && successCount == p.count
      && qtable.table == p.table && env.e == p.e && stream.clock == p.clock
    }

    /** One pass of `run`'s loop up to the break test: an episode, the streak, the return. */
    method RunAndRecord(ghost su: Setup<E>, ghost c0: nat, ghost e0: E, ghost t0: seq<seq<real>>, ghost k0: nat,
                        ghost r0: seq<real>, ghost k: nat) returns (stop: bool)
      requires Valid() && SetupValid() && su == CurrentSetup() && TableFits(su, t0)
      requires AfterTraining(su, c0, e0, t0, k0, r0, k) && !Train(RustSrc, su, maxSucceededEpisode, c0, e0, t0, k0, k).stopped
      modifies this, env, stream, qtable
      ensures Valid() && AfterTraining(su, c0, e0, t0, k0, r0, k + 1)
      ensures stop == Train(RustSrc, su, maxSucceededEpisode, c0, e0, t0, k0, k + 1).stopped
    {
      ghost var before := Train(RustSrc, su, maxSucceededEpisode, c0, e0, t0, k0, k);
      var history, succeeded := RunEpisode();
      if succeeded {
        successCount := successCount + 1;
      } else {
        successCount := 0;
      }
      var total := RlLoop.TotalReward(history.rewards);
      TrainNext(RustSrc, su, maxSucceededEpisode, c0, e0, t0, k0, k);
      assert history.rewards == RlLoop.RewardsOf(history.Entries());
      assert r0 + (before.episodeReturns + [total]) == episodeReturns + [total];
      episodeReturns := episodeReturns + [total];
      stop := successCount >= maxSucceededEpisode;
    }

    /** `run`: the returns, the streak, the table and the environment are those of Train. */
    method Run()
      requires Valid() && SetupValid()
      modifies this, env, stream, qtable
      ensures Valid()
      ensures AfterTraining(CurrentSetup(), old(successCount), old(env.e), old(qtable.table), old(stream.clock),
                            old(episodeReturns), maxEpisode)
    {
      ghost var su := CurrentSetup();
      ghost var c0, e0, t0, k0, r0 := successCount, env.e, qtable.table, stream.clock, episodeReturns;
      var episode := 0;
      while episode < maxEpisode
        invariant 0 <= episode <= maxEpisode && Valid()
        invariant AfterTraining(su, c0, e0, t0, k0, r0, episode)
        invariant !Train(RustSrc, su, maxSucceededEpisode, c0, e0, t0, k0, episode).stopped
      {
        var stop := RunAndRecord(su, c0, e0, t0, k0, r0, episode);
        if stop {
          TrainStayStopped(RustSrc, su, maxSucceededEpisode, c0, e0, t0, k0, episode + 1, maxEpisode);
          return;
        }
        episode := episode + 1;
      }
    }

    /**
     * `test_and_save`: `fix`, then one episode, whose history is the one
     * saved; with alpha = 0 the table it saves is the table as it was.
     */
    method TestAndSave() returns (h: History)
      requires Valid() && SetupValid()
      modifies env, stream, qtable, agent
      ensures Valid() && SetupValid() && agent.alpha == 0.0 && agent.eps == 0.0
      ensures fresh(h) && h.Valid() && qtable.table == old(qtable.table)
      ensures var last := Episode(RustSrc, CurrentSetup(), old(qtable.table), old(stream.clock));
              h.Entries() == last.entries && env.e == last.e && stream.clock == last.clock
    {
      agent.Fix();
      FrozenStepsKeepTable(RustSrc, CurrentSetup(), Start(RustSrc, CurrentSetup(), qtable.table, stream.clock),
                           maxStep);
      var succeeded;
      h, succeeded := RunEpisode();
    }
  }

  /**
   * python3 `Experiment`: the same objects and limits as rust/src's; its
   * episode records nothing and keeps a running total of the rewards.
   */
  class Python3Experiment<E(!new)> {
    const env: EnvObject<E>
    const agent: Agent
    const stream: Stream
    const qtable: QTable
    const maxEpisode: nat
    const maxStep: nat
    const maxSucceededEpisode: nat
    var successCount: nat
    var episodeReturns: seq<real>

    ghost function CurrentSetup(): Setup<E>
      reads agent
    {
      Setup(env.iface, agent.algorithm, agent.alpha, agent.gamma, agent.eps, stream.rng, maxStep)
    }

    /** The table has a row per state and an entry per action. */
    ghost predicate Valid()
      reads qtable
    {
      qtable.Valid() && qtable.stateSize == env.iface.stateSize && qtable.actionSize == env.iface.actionSize
    }

    /** The environment and the agent with its current parameters meet what an episode relies on. */
    ghost predicate SetupValid()
      reads agent
    {
      SetupOk(CurrentSetup())
    }

    /** `__init__`: a table of s_space rows of a_space entries, all init_q; no returns; a streak of 0. */
    constructor (env: EnvObject<E>, agent: Agent, stream: Stream, initQ: real, maxEpisode: nat, maxStep: nat,
                 maxSucceededEpisode: nat)
      requires ExperimentEnvValid(env.iface)
      ensures Valid() && SetupValid() && fresh(qtable)
      ensures this.env == env && this.agent == agent && this.stream == stream
      ensures this.maxEpisode == maxEpisode && this.maxStep == maxStep && this.maxSucceededEpisode == maxSucceededEpisode
      ensures successCount == 0 && episodeReturns == []
      ensures qtable.table == Filled(env.iface.stateSize, env.iface.actionSize, initQ)
    {
      this.env := env;
      this.agent := agent;
      this.stream := stream;
      this.maxEpisode := maxEpisode;
      this.maxStep := maxStep;
      this.maxSucceededEpisode := maxSucceededEpisode;
      qtable := new QTable(env.iface.stateSize, env.iface.actionSize, initQ);
      successCount := 0;
      episodeReturns := [];
    }

    /** The table, the environment and the stream are those of the snapshot sn, and total adds up its step rewards. */
    ghost predicate Holds(sn: Snapshot<E>, total: real)
      reads env, stream, qtable
    {
      sn.table == qtable.table && sn.e == env.e && sn.clock == stream.clock && sn.entries == []
      && total == RlLoop.Sum(sn.rewards)
    }

    /** The loop variables of `run_episode` and the objects' state are those of the snapshot sn. */
    ghost predicate Mirrors(sn: Snapshot<E>, s: nat, total: real)
      reads env, stream, qtable
    {
      Holds(sn, total) && sn.s1 == s && !sn.done
    }

    /** The start of `run_episode`: reset, s = s(), a running total of 0. */
    method Begin(ghost su: Setup<E>) returns (s: nat, total: real, ghost cur: Snapshot<E>)
      requires Valid() && su == CurrentSetup() && SetupOk(su)
      modifies env
      ensures cur == Start(Python3, su, qtable.table, stream.clock) && Mirrors(cur, s, total)
    {
      var iface := env.iface;
      env.e := iface.reset;
      s := iface.state(env.e);
      total := 0.0;
      cur := Start(Python3, su, qtable.table, stream.clock);
    }

    /**
     * The loop body: choose a for s, run it, s' = s(), add its reward to the
     * total, learn from (s, a, r, s', 0), s := s', and the break test. It
     * computes one Step.
     */
    method StepOnce(s: nat, total: real, ghost su: Setup<E>, ghost cur: Snapshot<E>)
      returns (s': nat, total': real, done: bool, ghost next: Snapshot<E>)
      requires Valid() && su == CurrentSetup() && Ready(su, cur) && Mirrors(cur, s, total)
      modifies env, stream, qtable
      ensures Valid() && next == Step(Python3, su, cur) && done == next.done
      ensures Holds(next, total') && next.s1 == s'
    {
      var iface := env.iface;
      next := Step(Python3, su, cur);
      Python3StepAddsReward(su, cur);
      var d := stream.rng(stream.clock);
      var a := agent.Action(qtable, s, d.u, d.pick);
      assert a == next.a;
      stream.clock := stream.clock + 1;
      env.e := iface.step(env.e, a);
      assert env.e == next.e;
      s' := iface.state(env.e);
      var r := iface.reward(env.e);
      total' := total + r;
      agent.Learn(qtable, s, a, r, s', 0);
      assert qtable.table == next.table;
      done := iface.isDone(env.e);
    }

    /** Pass i of the loop: pass i + 1 of Steps, and after a step that is done the whole loop's result. */
    method Pass(s: nat, total: real, ghost su: Setup<E>, ghost start: Snapshot<E>, ghost i: nat,
                ghost cur: Snapshot<E>)
      returns (s': nat, total': real, done: bool, ghost next: Snapshot<E>)
      requires Valid() && su == CurrentSetup() && Ready(su, start) && i < maxStep
      requires cur == Steps(Python3, su, start, i) && Mirrors(cur, s, total)
      modifies env, stream, qtable
      ensures Valid() && next == Steps(Python3, su, start, i + 1)
      ensures done ==> next == Steps(Python3, su, start, maxStep) && Holds(next, total')
      ensures !done ==> Mirrors(next, s', total')
    {
      StepsNext(Python3, su, start, i);
      s', total', done, next := StepOnce(s, total, su, cur);
      if done {
        StepsStayDone(Python3, su, start, i + 1, maxStep);
      }
    }

    /** The loop of `run_episode`: max_step passes of Steps. */
    method StepLoop(s0: nat, total0: real, ghost su: Setup<E>, ghost start: Snapshot<E>) returns (total: real)
      requires Valid() && su == CurrentSetup() && Ready(su, start) && Mirrors(start, s0, total0)
      modifies env, stream, qtable
      ensures Valid()
      ensures Holds(Steps(Python3, su, start, maxStep), total)
    {
      ghost var cur := start;
      var s := s0;
      total := total0;
      var i := 0;
      while i < maxStep
        invariant 0 <= i <= maxStep && Valid()
        invariant cur == Steps(Python3, su, start, i) && Mirrors(cur, s, total)
      {
        var done;
        s, total, done, cur := Pass(s, total, su, start, i, cur);
        if done {
          return;
        }
        i := i + 1;
      }
    }

    /** `run_episode`: the running total and the success flag are those of Episode. */
    method RunEpisode() returns (ret: real, succeeded: bool)
      requires Valid() && SetupValid()
      modifies env, stream, qtable
      ensures Valid()
      ensures var last := Episode(Python3, CurrentSetup(), old(qtable.table), old(stream.clock));
              && ret == EpisodeReturn(Python3, last) && qtable.table == last.table && env.e == last.e
              && stream.clock == last.clock && succeeded == Succeeded(CurrentSetup(), last)
    {
      ghost var su := CurrentSetup();
      var s, total;
      ghost var start;
      s, total, start := Begin(su);
      ret := StepLoop(s, total, su, start);
      succeeded := env.iface.isSuccess(env.e);
    }

    /** The objects' state after k passes of `run`'s loop from (c0, e0, t0, k0), the returns appended to r0. */
    ghost predicate AfterTraining(su: Setup<E>, c0: nat, e0: E, t0: seq<seq<real>>, k0: nat, r0: seq<real>, k: nat)
      reads this, env, stream, qtable
      requires SetupOk(su) && TableFits(su, t0)
    {
      var p := Train(Python3, su, maxSucceededEpisode, c0, e0, t0, k0, k);
      && episodeReturns == r0 + p.episodeReturns && successCount == p.count
      && qtable.table == p.table && env.e == p.e && stream.clock == p.clock
    }

    /** One pass of `run`'s loop up to the break test: an episode, the streak, the return. */
    method RunAndRecord(ghost su: Setup<E>, ghost c0: nat, ghost e0: E, ghost t0: seq<seq<real>>, ghost k0: nat,
                        ghost r0: seq<real>, ghost k: nat) returns (stop: bool)
      requires Valid() && SetupValid() && su == CurrentSetup() && TableFits(su, t0)
      requires AfterTraining(su, c0, e0, t0, k0, r0, k) && !Train(Python3, su, maxSucceededEpisode, c0, e0, t0, k0, k).stopped
      modifies this, env, stream, qtable
      ensures Valid() && AfterTraining(su, c0, e0, t0, k0, r0, k + 1)
      ensures stop == Train(Python3, su, maxSucceededEpisode, c0, e0, t0, k0, k + 1).stopped
    {
      ghost var before := Train(Python3, su, maxSucceededEpisode, c0, e0, t0, k0, k);
      var ret, succeeded := RunEpisode();
      if succeeded {
        successCount := successCount + 1;
      } else {
        successCount := 0;
      }
      TrainNext(Python3, su, maxSucceededEpisode, c0, e0, t0, k0, k);
      assert r0 + (before.episodeReturns + [ret]) == episodeReturns + [ret];
      episodeReturns := episodeReturns + [ret];
      stop := successCount >= maxSucceededEpisode;
    }

    /** `run`: the returns, the streak, the table and the environment are those of Train. */
    method Run()
      requires Valid() && SetupValid()
      modifies this, env, stream, qtable
      ensures Valid()
      ensures AfterTraining(CurrentSetup(), old(successCount), old(env.e), old(qtable.table), old(stream.clock),
                            old(episodeReturns), maxEpisode)
    {
      ghost var su := CurrentSetup();
      ghost var c0, e0, t0, k0, r0 := successCount, env.e, qtable.table, stream.clock, episodeReturns;
      var episode := 0;
      while episode < maxEpisode
        invariant 0 <= episode <= maxEpisode && Valid()
        invariant AfterTraining(su, c0, e0, t0, k0, r0, episode)
        invariant !Train(Python3, su, maxSucceededEpisode, c0, e0, t0, k0, episode).stopped
      {
        var stop := RunAndRecord(su, c0, e0, t0, k0, r0, episode);
        if stop {
          TrainStayStopped(Python3, su, maxSucceededEpisode, c0, e0, t0, k0, episode + 1, maxEpisode);
          return;
        }
        episode := episode + 1;
      }
    }

    /**
     * `test_and_save`: `fix`, then one episode; with alpha = 0 the table is
     * left as it was. The history and table saves that follow are file I/O
     * and not part of this model.
     */
    method TestAndSave()
      requires Valid() && SetupValid()
      modifies env, stream, qtable, agent
      ensures Valid() && SetupValid() && agent.alpha == 0.0 && agent.eps == 0.0
      ensures qtable.table == old(qtable.table)
      ensures var last := Episode(Python3, CurrentSetup(), old(qtable.table), old(stream.clock));
              env.e == last.e && stream.clock == last.clock
    {
      agent.Fix();
      FrozenStepsKeepTable(Python3, CurrentSetup(), Start(Python3, CurrentSetup(), qtable.table, stream.clock),
                           maxStep);
      var ret, succeeded := RunEpisode();
    }
  }
}
