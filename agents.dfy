/**
 * Tabular agents of the config and experiment generations: epsilon-greedy
 * action selection over a QTable row, the Q-learning and Sarsa temporal
 * difference updates, and `fix`, which freezes learning and exploration.
 *
 * The source has one class per algorithm (C_GCC tags one struct with its
 * type and function pointers); here one class carries the algorithm as a
 * constant tag and `Learn` dispatches on it the way C_GCC's function pointer
 * does.
 */
module Agents {
  import opened QTables

  /** Index i holds a maximum of the row, and every earlier entry is strictly smaller. */
  ghost predicate IsFirstMax(row: seq<real>, i: nat) {
    i < |row|
    && (forall j :: 0 <= j < |row| ==> row[j] <= row[i])
    && (forall j :: 0 <= j < i ==> row[j] < row[i])
  }

  /** At most one index is the first maximum. */
  lemma FirstMaxUnique(row: seq<real>, i: nat, k: nat)
    requires IsFirstMax(row, i) && IsFirstMax(row, k)
    ensures i == k
  {
    var vi, vk := row[i], row[k];
    assert vi <= vk && vk <= vi;
  }

  /**
   * The first maximum of a row, 0 for an empty row: the result of scanning
   * left to right and moving only on a strictly larger entry.
   */
  function FirstMax(row: seq<real>): (i: nat)
    ensures |row| == 0 ==> i == 0
    ensures |row| > 0 ==> IsFirstMax(row, i)
  {
    if |row| <= 1 then 0
    else
      var k := FirstMax(row[..|row| - 1]);
      if row[k] < row[|row| - 1] then |row| - 1 else k
  }

  /**
   * `argmax`: starts at index 0 and replaces the incumbent only when a later
   * entry is strictly greater, so ties go to the earliest index.
   */
  method ArgMax(row: seq<real>) returns (idx: nat)
    ensures idx == FirstMax(row)
    ensures |row| > 0 ==> IsFirstMax(row, idx)
  {
    idx := 0;
    if |row| == 0 {
      return;
    }
    var i := 1;
    while i < |row|
      invariant 1 <= i <= |row|
      invariant idx == FirstMax(row[..i])
    {
      assert row[..i + 1][..i] == row[..i];
      if row[idx] < row[i] {
        idx := i;
      }
      i := i + 1;
    }
    assert row[..i] == row;
  }

  /** The largest entry of a non-empty row. */
  function MaxOf(row: seq<real>): (m: real)
    requires |row| > 0
    ensures m in row
    ensures forall j :: 0 <= j < |row| ==> row[j] <= m
  {
    if |row| == 1 then row[0]
    else
      var m := MaxOf(row[..|row| - 1]);
      assert forall j :: 0 <= j < |row| - 1 ==> row[..|row| - 1][j] == row[j];
      if m < row[|row| - 1] then row[|row| - 1] else m
  }

  /** An element of the row that dominates the row is its maximum. */
  lemma MaxUnique(row: seq<real>, m: real)
    requires m in row
    requires forall j :: 0 <= j < |row| ==> row[j] <= m
    ensures MaxOf(row) == m
  {
  }

  /** `max` over a row: starts from entry 0 and keeps the larger value. */
  method RowMax(row: seq<real>) returns (m: real)
    requires |row| > 0
    ensures m == MaxOf(row)
  {
    m := row[0];
    var i := 1;
    while i < |row|
      invariant 1 <= i <= |row|
      invariant m == MaxOf(row[..i])
    {
      assert row[..i + 1][..i] == row[..i];
      if m < row[i] {
        m := row[i];
      }
      i := i + 1;
    }
    assert row[..i] == row;
  }

  /**
   * The seed of Rust's folded maximum: `f64::NEG_INFINITY` (Rust_rustc) or
   * NaN (rust/src), which `f64::max` discards in favour of any number, so both
   * act as a value below every entry.
   */
  datatype Bound = Below | Value(v: real)

  function MaxWith(b: Bound, v: real): Bound
  {
    match b
    case Below => Value(v)
    case Value(m) => Value(if m < v then v else m)
  }

  /** `iter().fold(seed, f64::max)`. */
  function FoldMax(acc: Bound, row: seq<real>): Bound
    decreases |row|
  {
    if row == [] then acc else FoldMax(MaxWith(acc, row[0]), row[1..])
  }

  lemma {:induction false} FoldMaxFrom(a: real, row: seq<real>)
    ensures FoldMax(Value(a), row).Value?
    ensures var m := FoldMax(Value(a), row).v;
            a <= m && (m == a || m in row) && forall j :: 0 <= j < |row| ==> row[j] <= m
    decreases |row|
  {
    if row != [] {
      var a' := if a < row[0] then row[0] else a;
      FoldMaxFrom(a', row[1..]);
      var m := FoldMax(Value(a'), row[1..]).v;
      assert forall j :: 1 <= j < |row| ==> row[j] == row[1..][j - 1];
      assert m in row[1..] ==> m in row;
    }
  }

  /** On a non-empty row the Rust fold is the row maximum. */
  lemma {:induction false} FoldMaxIsMaxOf(row: seq<real>)
    requires |row| > 0
    ensures FoldMax(Below, row) == Value(MaxOf(row))
  {
    FoldMaxFrom(row[0], row[1..]);
    var m := FoldMax(Value(row[0]), row[1..]).v;
    assert forall j :: 1 <= j < |row| ==> row[j] == row[1..][j - 1];
    assert m in row[1..] ==> m in row;
    MaxUnique(row, m);
  }

  /** The temporal-difference blend (1 - alpha) * q + alpha * (r + gamma * next). */
  function TdUpdate(q: real, alpha: real, gamma: real, r: real, next: real): real
  {
    (1.0 - alpha) * q + alpha * (r + gamma * next)
  }

  /** With a step size in [0, 1] the new value lies between the old value and the target. */
  lemma TdUpdateBetween(q: real, alpha: real, gamma: real, r: real, next: real)
    requires 0.0 <= alpha <= 1.0
    ensures var target := r + gamma * next;
            var v := TdUpdate(q, alpha, gamma, r, next);
            (q <= target ==> q <= v <= target) && (target <= q ==> target <= v <= q)
  {
    var target := r + gamma * next;
    assert TdUpdate(q, alpha, gamma, r, next) == q + alpha * (target - q);
    ScaleBetween(alpha, target - q);
  }

  /** Scaling by a factor in [0, 1] moves a value toward 0 without crossing it. */
  lemma ScaleBetween(alpha: real, d: real)
    requires 0.0 <= alpha <= 1.0
    ensures d >= 0.0 ==> 0.0 <= alpha * d <= d
    ensures d <= 0.0 ==> d <= alpha * d <= 0.0
  {
    assert d - alpha * d == (1.0 - alpha) * d;
    assert 0.0 <= 1.0 - alpha;
  }

  /** A value that already equals its target is a fixed point for every step size. */
  lemma TdUpdateFixedPoint(q: real, alpha: real, gamma: real, r: real, next: real)
    requires q == r + gamma * next
    ensures TdUpdate(q, alpha, gamma, r, next) == q
  {
  }

  /** The Q-learning table after one update: cell (s1, a1) moves toward r + gamma * max row s2. */
  function QLearned(t: seq<seq<real>>, alpha: real, gamma: real, s1: nat, a1: nat, r: real, s2: nat): seq<seq<real>>
    requires s1 < |t| && a1 < |t[s1]| && s2 < |t| && |t[s2]| > 0
  {
    Assign(t, s1, a1, TdUpdate(t[s1][a1], alpha, gamma, r, MaxOf(t[s2])))
  }

  /** The Sarsa table after one update: cell (s1, a1) moves toward r + gamma * t[s2][a2]. */
  function SarsaLearned(t: seq<seq<real>>, alpha: real, gamma: real, s1: nat, a1: nat, r: real, s2: nat, a2: nat): seq<seq<real>>
    requires s1 < |t| && a1 < |t[s1]| && s2 < |t| && a2 < |t[s2]|
  {
    Assign(t, s1, a1, TdUpdate(t[s1][a1], alpha, gamma, r, t[s2][a2]))
  }

  lemma AssignSameValue(t: seq<seq<real>>, s: nat, a: nat)
    requires s < |t| && a < |t[s]|
    ensures Assign(t, s, a, t[s][a]) == t
  {
    assert t[s][a := t[s][a]] == t[s];
  }

  /** Once alpha is 0, Q-learning leaves the table as it was. */
  lemma {:induction false} QLearnedFrozen(t: seq<seq<real>>, gamma: real, s1: nat, a1: nat, r: real, s2: nat)
    requires s1 < |t| && a1 < |t[s1]| && s2 < |t| && |t[s2]| > 0
    ensures QLearned(t, 0.0, gamma, s1, a1, r, s2) == t
  {
    AssignSameValue(t, s1, a1);
  }

  /** Once alpha is 0, Sarsa leaves the table as it was. */
  lemma {:induction false} SarsaLearnedFrozen(t: seq<seq<real>>, gamma: real, s1: nat, a1: nat, r: real, s2: nat, a2: nat)
    requires s1 < |t| && a1 < |t[s1]| && s2 < |t| && a2 < |t[s2]|
    ensures SarsaLearned(t, 0.0, gamma, s1, a1, r, s2, a2) == t
  {
    AssignSameValue(t, s1, a1);
  }

  /**
   * On a terminal row of zeros the Q-learning and Sarsa targets agree: both
   * reduce to the reward alone.
   */
  lemma {:induction false} TerminalRowTargets(t: seq<seq<real>>, alpha: real, gamma: real, s1: nat, a1: nat, r: real, s2: nat, a2: nat)
    requires s1 < |t| && a1 < |t[s1]| && s2 < |t| && a2 < |t[s2]|
    requires forall j :: 0 <= j < |t[s2]| ==> t[s2][j] == 0.0
    ensures QLearned(t, alpha, gamma, s1, a1, r, s2) == SarsaLearned(t, alpha, gamma, s1, a1, r, s2, a2)
    ensures QLearned(t, alpha, gamma, s1, a1, r, s2)[s1][a1] == (1.0 - alpha) * t[s1][a1] + alpha * r
  {
    assert MaxOf(t[s2]) == 0.0;
  }

  /**
   * Epsilon-greedy choice: with a draw u below eps, the random action, which
   * C_GCC reduces with `% action_size` (the other languages draw it from
   * [0, action_size) directly); otherwise the first maximum of the row.
   */
  function Choice(eps: real, row: seq<real>, u: real, pick: nat): (a: nat)
    requires |row| > 0
    ensures a < |row|
  {
    if u < eps then pick % |row| else FirstMax(row)
  }

  /** With eps = 0 and a draw in [0, 1) the greedy branch is always taken. */
  lemma {:induction false} FrozenChoiceIsGreedy(row: seq<real>, u: real, pick: nat)
    requires |row| > 0 && 0.0 <= u < 1.0
    ensures Choice(0.0, row, u, pick) == FirstMax(row)
    ensures IsFirstMax(row, Choice(0.0, row, u, pick))
  {
  }

  datatype Algorithm = QLearning | Sarsa

  /** The table after `learn(s1, a1, r, s2, a2)` for the given algorithm. */
  function Learned(algorithm: Algorithm, alpha: real, gamma: real, t: seq<seq<real>>,
                   s1: nat, a1: nat, r: real, s2: nat, a2: nat): (t': seq<seq<real>>)
    requires s1 < |t| && a1 < |t[s1]| && s2 < |t| && a2 < |t[s2]|
    ensures |t'| == |t| && forall i :: 0 <= i < |t| ==> |t'[i]| == |t[i]|
  {
    match algorithm
    case QLearning => QLearned(t, alpha, gamma, s1, a1, r, s2)
    case Sarsa => SarsaLearned(t, alpha, gamma, s1, a1, r, s2, a2)
  }

  /** Learning keeps the table's shape and changes no cell but (s1, a1). */
  lemma LearnedFrame(algorithm: Algorithm, alpha: real, gamma: real, t: seq<seq<real>>,
                     s1: nat, a1: nat, r: real, s2: nat, a2: nat)
    requires s1 < |t| && a1 < |t[s1]| && s2 < |t| && a2 < |t[s2]|
    ensures var t' := Learned(algorithm, alpha, gamma, t, s1, a1, r, s2, a2);
            && |t'| == |t| && (forall i :: 0 <= i < |t| ==> |t'[i]| == |t[i]|)
            && (forall i, j :: 0 <= i < |t| && 0 <= j < |t[i]| && (i != s1 || j != a1) ==> t'[i][j] == t[i][j])
  {
  }

  /** After `fix`, whichever the algorithm, learning leaves the table as it was. */
  lemma LearnedFrozen(algorithm: Algorithm, gamma: real, t: seq<seq<real>>,
                      s1: nat, a1: nat, r: real, s2: nat, a2: nat)
    requires s1 < |t| && a1 < |t[s1]| && s2 < |t| && a2 < |t[s2]|
    ensures Learned(algorithm, 0.0, gamma, t, s1, a1, r, s2, a2) == t
  {
    match algorithm
    case QLearning => QLearnedFrozen(t, gamma, s1, a1, r, s2);
    case Sarsa => SarsaLearnedFrozen(t, gamma, s1, a1, r, s2, a2);
  }

  /** One random draw of action selection: the uniform u compared with eps, and the index used when exploring. */
  datatype Draw = Draw(u: real, pick: nat)

  /**
   * An agent as the episode loops see it, through the interface every port
   * declares (an `Agent` trait, interface or function-pointer struct):
   * `action` on a table, a state and a draw, and `learn` from
   * (s1, a1, r, s2, a2), returning the new table.
   */
  datatype AgentFns = AgentFns(
    action: (seq<seq<real>>, nat, Draw) --> nat,
    learn: (seq<seq<real>>, nat, nat, real, nat, nat) --> seq<seq<real>>)

  /** On a table of n rows of m entries, actions are valid and learning keeps the shape. */
  ghost predicate AgentFnsValid(ag: AgentFns, n: nat, m: nat) {
    && (forall t, s: nat, d :: Shaped(t, n, m) && s < n ==> ag.action.requires(t, s, d) && ag.action(t, s, d) < m)
    && (forall t, s1: nat, a1: nat, r, s2: nat, a2: nat ::
          Shaped(t, n, m) && s1 < n && a1 < m && s2 < n && a2 < m ==>
            ag.learn.requires(t, s1, a1, r, s2, a2) && Shaped(ag.learn(t, s1, a1, r, s2, a2), n, m))
  }

  /** The epsilon-greedy Q-learning or Sarsa agent with the given parameters behind that interface. */
  function Fns(algorithm: Algorithm, alpha: real, gamma: real, eps: real): AgentFns {
    AgentFns(
      (t: seq<seq<real>>, s: nat, d: Draw) requires s < |t| && |t[s]| > 0 => Choice(eps, t[s], d.u, d.pick),
      (t: seq<seq<real>>, s1: nat, a1: nat, r: real, s2: nat, a2: nat)
        requires s1 < |t| && a1 < |t[s1]| && s2 < |t| && a2 < |t[s2]| =>
        Learned(algorithm, alpha, gamma, t, s1, a1, r, s2, a2))
  }

  /**
   * ag behaves as the epsilon-greedy Q-learning or Sarsa agent with the
   * given parameters: wherever Choice or Learned is defined, the agent's
   * action and learning agree with it.
   */
  ghost predicate Implements(ag: AgentFns, algorithm: Algorithm, alpha: real, gamma: real, eps: real) {
    && (forall t: seq<seq<real>>, s: nat, d: Draw {:trigger Choice(eps, t[s], d.u, d.pick)} ::
          s < |t| && |t[s]| > 0 ==> ag.action.requires(t, s, d) && ag.action(t, s, d) == Choice(eps, t[s], d.u, d.pick))
    && (forall t: seq<seq<real>>, s1: nat, a1: nat, r: real, s2: nat, a2: nat
          {:trigger Learned(algorithm, alpha, gamma, t, s1, a1, r, s2, a2)} ::
          s1 < |t| && a1 < |t[s1]| && s2 < |t| && a2 < |t[s2]| ==>
            ag.learn.requires(t, s1, a1, r, s2, a2) && ag.learn(t, s1, a1, r, s2, a2) == Learned(algorithm, alpha, gamma, t, s1, a1, r, s2, a2))
  }

  lemma FnsImplements(algorithm: Algorithm, alpha: real, gamma: real, eps: real)
    ensures Implements(Fns(algorithm, alpha, gamma, eps), algorithm, alpha, gamma, eps)
  {
  }

  /** An agent that implements Q-learning or Sarsa picks valid actions and keeps the table's shape. */
  lemma ImplementsValid(ag: AgentFns, algorithm: Algorithm, alpha: real, gamma: real, eps: real, n: nat, m: nat)
    requires Implements(ag, algorithm, alpha, gamma, eps) && m > 0
    ensures AgentFnsValid(ag, n, m)
  {
    forall t, s: nat, d: Draw | Shaped(t, n, m) && s < n
      ensures ag.action.requires(t, s, d) && ag.action(t, s, d) < m
    {
      assert Choice(eps, t[s], d.u, d.pick) < m;
    }
    forall t, s1: nat, a1: nat, r, s2: nat, a2: nat | Shaped(t, n, m) && s1 < n && a1 < m && s2 < n && a2 < m
      ensures ag.learn.requires(t, s1, a1, r, s2, a2) && Shaped(ag.learn(t, s1, a1, r, s2, a2), n, m)
    {
      LearnedFrame(algorithm, alpha, gamma, t, s1, a1, r, s2, a2);
    }
  }

  /** The agent's source of randomness: a stream of draws and how many have been taken. */
  class Stream {
    const rng: nat -> Draw
    var clock: nat

    constructor (rng: nat -> Draw)
      ensures this.rng == rng && clock == 0
    {
      this.rng := rng;
      clock := 0;
    }
  }

  class Agent {
    const algorithm: Algorithm
    var alpha: real
    const gamma: real
    var eps: real
    /** The agent's current behaviour as the episode loops see it. */
    ghost var behaviour: AgentFns

    ghost predicate Valid()
      reads this
    {
      Implements(behaviour, algorithm, alpha, gamma, eps)
    }

    constructor (algorithm: Algorithm, alpha: real, gamma: real, eps: real)
      ensures Valid() && behaviour == Fns(algorithm, alpha, gamma, eps)
      ensures this.algorithm == algorithm && this.alpha == alpha
      ensures this.gamma == gamma && this.eps == eps
    {
      this.algorithm := algorithm;
      this.alpha := alpha;
      this.gamma := gamma;
      this.eps := eps;
      behaviour := Fns(algorithm, alpha, gamma, eps);
      FnsImplements(algorithm, alpha, gamma, eps);
    }

    /** `action(qtable, s)` with the uniform draw u and the random index pick passed in. */
    method Action(q: QTable, s: nat, u: real, pick: nat) returns (a: nat)
      requires q.Valid() && s < q.stateSize && q.actionSize > 0
      ensures a < q.actionSize
      ensures a == Choice(eps, q.table[s], u, pick)
    {
      if u < eps {
        return pick % q.actionSize;
      }
      a := ArgMax(q.table[s]);
    }

    /** Q-learning `learn`: the argument a2 is ignored. */
    method QLearningLearn(q: QTable, s1: nat, a1: nat, r: real, s2: nat, a2: nat)
      requires q.Valid() && s1 < q.stateSize && a1 < q.actionSize && s2 < q.stateSize
      modifies q
      ensures q.Valid()
      ensures q.table == QLearned(old(q.table), alpha, gamma, s1, a1, r, s2)
    {
      var m := RowMax(q.table[s2]);
      q.Set(s1, a1, (1.0 - alpha) * q.table[s1][a1] + alpha * (r + gamma * m));
    }

    /** Sarsa `learn`: bootstraps from the cell (s2, a2). */
    method SarsaLearn(q: QTable, s1: nat, a1: nat, r: real, s2: nat, a2: nat)
      requires q.Valid() && s1 < q.stateSize && a1 < q.actionSize && s2 < q.stateSize && a2 < q.actionSize
      modifies q
      ensures q.Valid()
      ensures q.table == SarsaLearned(old(q.table), alpha, gamma, s1, a1, r, s2, a2)
    {
      q.Set(s1, a1, (1.0 - alpha) * q.table[s1][a1] + alpha * (r + gamma * q.table[s2][a2]));
    }

    /** `learn`, dispatched on the algorithm. */
    method Learn(q: QTable, s1: nat, a1: nat, r: real, s2: nat, a2: nat)
      requires q.Valid() && s1 < q.stateSize && a1 < q.actionSize && s2 < q.stateSize && a2 < q.actionSize
      modifies q
      ensures q.Valid()
      ensures q.table == Learned(algorithm, alpha, gamma, old(q.table), s1, a1, r, s2, a2)
    {
      match algorithm
      case QLearning => QLearningLearn(q, s1, a1, r, s2, a2);
      case Sarsa => SarsaLearn(q, s1, a1, r, s2, a2);
    }

    /** `fix`: stops learning and exploration; the discount is untouched. */
    method Fix()
      modifies this
      ensures alpha == 0.0 && eps == 0.0
      ensures Valid() && behaviour == Fns(algorithm, 0.0, gamma, 0.0)
    {
      alpha := 0.0;
      eps := 0.0;
      behaviour := Fns(algorithm, alpha, gamma, eps);
      FnsImplements(algorithm, alpha, gamma, eps);
    }
  }
}
