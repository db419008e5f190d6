/**
 * The first-generation, hard-coded cartpole Q-learning agent (c_clang, go,
 * rust/src/agent.rs, python3/agent.py, ruby): bin-edge discretisation of the
 * four state components, an x-least-significant state index, Q-learning over
 * two real-valued actions, and `set_test_params`.
 *
 * `argmax` and `find_max` of c_clang and go (scan from index 0, replace on a
 * strictly greater value) compute what Agents.ArgMax and Agents.RowMax
 * compute and are modelled by them; rust/src/agent.rs folds the row maximum
 * from minus infinity, which Agents.FoldMaxIsMaxOf relates to the same value.
 */
module CartpoleAgent {
  import opened Wrappers
  import opened Discretize
  import opened QTables
  import opened Agents
  import Angles

  /**
   * The four axes x, theta, x-dot, theta-dot with the limits every port
   * uses; theta has 90 bins in c_clang, python3 and ruby and 40 in go and
   * rust/src/agent.rs.
   */
  function StandardAxes(thetaNum: nat): (axes: seq<Axis>)
    requires thetaNum >= 3
    ensures |axes| == 4 && forall i :: 0 <= i < 4 ==> AxisOk(axes[i])
  {
    [Axis(-2.0, 2.0, 4), Axis(-Angles.Pi, Angles.Pi, thetaNum), Axis(-2.0, 2.0, 10), Axis(-10.0, 10.0, 50)]
  }

  /** The two candidate actions, a push of -10 or +10. */
  const StandardActions: seq<real> := [-10.0, 10.0]

  /**
   * `find_idx` / `findIdx` / `index` / `position`: the first index holding x.
   * The source aborts, panics or raises when x is absent; here that is None.
   */
  function FirstIndex(xs: seq<real>, x: real): (r: Option<nat>)
    ensures r.Some? <==> x in xs
    ensures r.Some? ==> r.value < |xs| && xs[r.value] == x
    ensures r.Some? ==> forall j :: 0 <= j < r.value ==> xs[j] != x
  {
    if |xs| == 0 then None
    else if xs[0] == x then Some(0)
    else
      match FirstIndex(xs[1..], x)
      case None => None
      case Some(k) => Some(k + 1)
  }

  method FindIdx(xs: seq<real>, x: real) returns (r: Option<nat>)
    ensures r == FirstIndex(xs, x)
  {
    var i := 0;
    while i < |xs|
      invariant 0 <= i <= |xs|
      invariant forall j :: 0 <= j < i ==> xs[j] != x
    {
      if x == xs[i] {
        return Some(i);
      }
      i := i + 1;
    }
    return None;
  }

  /**
   * The python3 and ruby `argmax` as written: the incumbent value `max_val`
   * stays at entry 0, so the result is the last index whose entry exceeds
   * entry 0, or 0 when there is none.
   */
  function LastAboveFirst(row: seq<real>): (i: nat)
    requires |row| > 0
    ensures i < |row|
    ensures i == 0 || row[0] < row[i]
    ensures forall j :: i < j < |row| ==> row[j] <= row[0]
  {
    LastAbove(row, row[0], |row|)
  }

  function LastAbove(row: seq<real>, v: real, n: nat): (i: nat)
    requires n <= |row|
    ensures i < n || i == 0
    ensures i == 0 || v < row[i]
    ensures forall j :: i < j < n ==> row[j] <= v
  {
    if n == 0 then 0
    else if v < row[n - 1] then n - 1
    else LastAbove(row, v, n - 1)
  }

  method ArgMaxAsWritten(row: seq<real>) returns (idx: nat)
    requires |row| > 0
    ensures idx == LastAboveFirst(row)
  {
    idx := 0;
    var maxVal := row[0];
    var i := 0;
    while i < |row|
      invariant 0 <= i <= |row|
      invariant idx == LastAbove(row, maxVal, i)
      invariant maxVal == row[0]
    {
      if row[i] > maxVal {
        idx := i;
      }
      i := i + 1;
    }
  }

  /** On [0, 2, 1] the as-written scan returns index 2, which does not hold the maximum 2. */
  lemma ArgMaxAsWrittenMissesMaximum()
    ensures LastAboveFirst([0.0, 2.0, 1.0]) == 2
    ensures FirstMax([0.0, 2.0, 1.0]) == 1
    ensures !IsFirstMax([0.0, 2.0, 1.0], LastAboveFirst([0.0, 2.0, 1.0]))
  {
    var row := [0.0, 2.0, 1.0];
    assert LastAbove(row, 0.0, 3) == 2;
    assert FirstMax(row[..2]) == 1;
  }

  /** On two entries, which is all the first generation uses, the as-written scan is right. */
  lemma {:induction false} ArgMaxAsWrittenAgreesOnPairs(row: seq<real>)
    requires |row| == 2
    ensures LastAboveFirst(row) == FirstMax(row)
  {
    assert row[..1] == [row[0]];
    assert LastAbove(row, row[0], 1) == 0;
  }

  class Agent {
    const actions: seq<real>
    const axes: seq<Axis>
    const bins: seq<seq<real>>
    var alpha: real
    const gamma: real
    var eps: real
    const qtable: QTable

    /** Four well-formed axes, each with the edges `make_bins` gives it. */
    ghost predicate Discretised() {
      |axes| == 4 && |bins| == 4
      && forall i :: 0 <= i < 4 ==> AxisOk(axes[i]) && bins[i] == Edges(axes[i].lo, axes[i].hi, axes[i].num)
    }

    ghost predicate Valid()
      reads this, qtable
    {
      Discretised() && |actions| > 0
      && qtable.Valid() && qtable.stateSize == StateCount() && qtable.actionSize == |actions|
    }

    /** The number of table rows, the product of the four bin counts. */
    function StateCount(): nat
      requires |axes| == 4
    {
      axes[0].num * axes[1].num * axes[2].num * axes[3].num
    }

    /** The table row of a state: the bin-edge rule per component, x least significant. */
    ghost function StateIndex(s: seq<real>): (idx: nat)
      requires Discretised() && |s| == 4
      ensures idx < StateCount()
    {
      assert AxisOk(axes[0]) && AxisOk(axes[1]) && AxisOk(axes[2]) && AxisOk(axes[3]);
      assert |bins[0]| == axes[0].num - 1 && |bins[1]| == axes[1].num - 1;
      assert |bins[2]| == axes[2].num - 1 && |bins[3]| == axes[3].num - 1;
      AgentIndexInRange(FirstAbove(bins[0], s[0]), FirstAbove(bins[1], s[1]), FirstAbove(bins[2], s[2]),
                        FirstAbove(bins[3], s[3]), axes[0].num, axes[1].num, axes[2].num, axes[3].num);
      AgentIndex(FirstAbove(bins[0], s[0]), FirstAbove(bins[1], s[1]), FirstAbove(bins[2], s[2]),
                 FirstAbove(bins[3], s[3]), axes[0].num, axes[1].num, axes[2].num)
    }

    /** `new_agent` with the constants passed in: bins from `make_bins`, a filled table. */
    constructor (actions: seq<real>, axes: seq<Axis>, alpha: real, gamma: real, eps: real, initQ: real)
      requires |axes| == 4 && (forall i :: 0 <= i < 4 ==> AxisOk(axes[i])) && |actions| > 0
      ensures Valid() && fresh(qtable)
      ensures this.actions == actions && this.axes == axes
      ensures this.alpha == alpha && this.gamma == gamma && this.eps == eps
      ensures qtable.table == Filled(StateCount(), |actions|, initQ)
    {
      this.actions := actions;
      this.axes := axes;
      var b0 := MakeBins(axes[0].lo, axes[0].hi, axes[0].num);
      var b1 := MakeBins(axes[1].lo, axes[1].hi, axes[1].num);
      var b2 := MakeBins(axes[2].lo, axes[2].hi, axes[2].num);
      var b3 := MakeBins(axes[3].lo, axes[3].hi, axes[3].num);
      bins := [b0, b1, b2, b3];
      this.alpha := alpha;
      this.gamma := gamma;
      this.eps := eps;
      qtable := new QTable(axes[0].num * axes[1].num * axes[2].num * axes[3].num, |actions|, initQ);
    }

    /** `s_index`: digitises each component against its bins and mixes the four indices. */
    method SIndex(s: seq<real>) returns (idx: nat)
      requires Valid() && |s| == 4
      ensures idx == StateIndex(s)
      ensures idx < StateCount()
    {
      assert AxisOk(axes[0]) && AxisOk(axes[1]) && AxisOk(axes[2]) && AxisOk(axes[3]);
      assert |bins[0]| == axes[0].num - 1 && |bins[1]| == axes[1].num - 1;
      assert |bins[2]| == axes[2].num - 1 && |bins[3]| == axes[3].num - 1;
      var x := BinDigitize(bins[0], s[0]);
      var t := BinDigitize(bins[1], s[1]);
      var xd := BinDigitize(bins[2], s[2]);
      var td := BinDigitize(bins[3], s[3]);
      idx := AgentIndex(x, t, xd, td, axes[0].num, axes[1].num, axes[2].num);
      AgentIndexInRange(x, t, xd, td, axes[0].num, axes[1].num, axes[2].num, axes[3].num);
    }

    /** The bin-edge index equals the reserved-bin index of every component. */
    lemma {:induction false} StateIndexIsReservedBinIndex(s: seq<real>)
      requires Valid() && |s| == 4
      ensures StateIndex(s) == AgentIndex(
        Digitize(axes[0].lo, axes[0].hi, axes[0].num, s[0]), Digitize(axes[1].lo, axes[1].hi, axes[1].num, s[1]),
        Digitize(axes[2].lo, axes[2].hi, axes[2].num, s[2]), Digitize(axes[3].lo, axes[3].hi, axes[3].num, s[3]),
        axes[0].num, axes[1].num, axes[2].num)
    {
      EdgeRuleIsReservedBinRule(axes[0].lo, axes[0].hi, axes[0].num, s[0]);
      EdgeRuleIsReservedBinRule(axes[1].lo, axes[1].hi, axes[1].num, s[1]);
      EdgeRuleIsReservedBinRule(axes[2].lo, axes[2].hi, axes[2].num, s[2]);
      EdgeRuleIsReservedBinRule(axes[3].lo, axes[3].hi, axes[3].num, s[3]);
    }

    /**
     * `decide_action` / `action`, epsilon-greedy over the table row of s with
     * the uniform draw u and the random index pick passed in. The greedy
     * branch takes the first maximum (Agents.FirstMax), as c_clang and go
     * do; python3 and ruby scan with LastAboveFirst instead, which gives the
     * same index on the two-action rows this agent has
     * (ArgMaxAsWrittenAgreesOnPairs).
     */
    method Action(s: seq<real>, u: real, pick: nat) returns (a: real)
      requires Valid() && |s| == 4
      ensures a in actions
      ensures a == actions[Choice(eps, qtable.table[StateIndex(s)], u, pick)]
    {
      if u < eps {
        return actions[pick % |actions|];
      }
      var sIdx := SIndex(s);
      var maxIdx := ArgMax(qtable.table[sIdx]);
      return actions[maxIdx];
    }

    /**
     * `agent_learn` / `Learn` / `learn`: moves the cell of (s, a) toward
     * r + gamma * max of the row of snext. An action that is not a candidate
     * makes the source abort; here the table is then left alone and ok is false.
     */
    method Learn(s: seq<real>, a: real, r: real, snext: seq<real>) returns (ok: bool)
      requires Valid() && |s| == 4 && |snext| == 4
      modifies qtable
      ensures Valid()
      ensures ok <==> a in actions
      ensures !ok ==> qtable.table == old(qtable.table)
      ensures ok ==> qtable.table == QLearned(old(qtable.table), alpha, gamma, StateIndex(s), FirstIndex(actions, a).value, r, StateIndex(snext))
    {
      var sIdx := SIndex(s);
      var aIdx := FindIdx(actions, a);
      var sNextIdx := SIndex(snext);
      if aIdx.None? {
        return false;
      }
      var k := aIdx.value;
      ghost var t := qtable.table;
      var m := RowMax(qtable.table[sNextIdx]);
      qtable.Set(sIdx, k, TdUpdate(qtable.table[sIdx][k], alpha, gamma, r, m));
      assert qtable.table == QLearned(t, alpha, gamma, sIdx, k, r, sNextIdx);
      return true;
    }

    /**
     * The python3 `learn` as written: the bootstrap row is computed from s,
     * not snext, so the update ignores the next state altogether.
     */
    method LearnAsWritten(s: seq<real>, a: real, r: real, snext: seq<real>) returns (ok: bool)
      requires Valid() && |s| == 4 && |snext| == 4
      modifies qtable
      ensures Valid()
      ensures ok <==> a in actions
      ensures !ok ==> qtable.table == old(qtable.table)
      ensures ok ==> qtable.table == QLearned(old(qtable.table), alpha, gamma, StateIndex(s), FirstIndex(actions, a).value, r, StateIndex(s))
    {
      var sIdx := SIndex(s);
      var aIdx := FindIdx(actions, a);
      var sNextIdx := SIndex(s);
      if aIdx.None? {
        return false;
      }
      var k := aIdx.value;
      ghost var t := qtable.table;
      var m := RowMax(qtable.table[sNextIdx]);
      qtable.Set(sIdx, k, TdUpdate(qtable.table[sIdx][k], alpha, gamma, r, m));
      assert qtable.table == QLearned(t, alpha, gamma, sIdx, k, r, sNextIdx);
      return true;
    }

    /** `agent_set_test_params` / `SetTestParams` / `test_agent`: no more learning or exploring. */
    method SetTestParams()
      modifies this
      ensures alpha == 0.0 && eps == 0.0
    {
      alpha := 0.0;
      eps := 0.0;
    }
  }

  /**
   * The update the first generation intends leaves a cell alone once it
   * equals its target r + gamma * max of the next row.
   */
  lemma {:induction false} IntendedLearnKeepsConsistentCell(t: seq<seq<real>>, alpha: real, gamma: real, s: nat, a: nat, r: real, snext: nat)
    requires s < |t| && a < |t[s]| && snext < |t| && |t[snext]| > 0
    requires t[s][a] == r + gamma * MaxOf(t[snext])
    ensures QLearned(t, alpha, gamma, s, a, r, snext) == t
  {
    TdUpdateFixedPoint(t[s][a], alpha, gamma, r, MaxOf(t[snext]));
    AssignSameValue(t, s, a);
  }

  /**
   * Bootstrapping from the current row instead moves such a cell: with rows
   * [5, 5] and [0, 0], reward 5, gamma 1 and alpha 1/2, cell (0, 0) is at its
   * target 5 + max [0, 0], yet the as-written update makes it 7.5.
   */
  lemma LearnAsWrittenMovesConsistentCell()
    ensures var t := [[5.0, 5.0], [0.0, 0.0]];
            t[0][0] == 5.0 + 1.0 * MaxOf(t[1])
            && QLearned(t, 0.5, 1.0, 0, 0, 5.0, 1) == t
            && QLearned(t, 0.5, 1.0, 0, 0, 5.0, 0)[0][0] == 7.5
  {
    var t := [[5.0, 5.0], [0.0, 0.0]];
    assert MaxOf(t[1]) == 0.0 by { MaxUnique(t[1], 0.0); }
    assert MaxOf(t[0]) == 5.0 by { MaxUnique(t[0], 5.0); }
    IntendedLearnKeepsConsistentCell(t, 0.5, 1.0, 0, 0, 5.0, 1);
  }

  /** The standard layout has 4 * 90 * 10 * 50 = 180000 rows (4 * 40 * 10 * 50 = 80000 in go and rust/src/agent.rs). */
  lemma StandardStateCount()
    ensures var ax := StandardAxes(90); ax[0].num * ax[1].num * ax[2].num * ax[3].num == 180000
    ensures var ax := StandardAxes(40); ax[0].num * ax[1].num * ax[2].num * ax[3].num == 80000
  {
  }
}
