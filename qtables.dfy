/**
 * The dense state-by-action value table shared by every agent of the config
 * and experiment generations.
 */
module QTables {

  /** n rows of m entries each. */
  ghost predicate Shaped(t: seq<seq<real>>, n: nat, m: nat) {
    |t| == n && forall s :: 0 <= s < |t| ==> |t[s]| == m
  }

  /**
   * The table a fresh QTable holds: n rows, each of m copies of v. Rows are
   * values, so the rows are distinct as in the source, where each row is a
   * list or array of its own.
   */
  function Filled(n: nat, m: nat, v: real): (t: seq<seq<real>>)
    ensures Shaped(t, n, m)
    ensures forall s, a :: 0 <= s < n && 0 <= a < m ==> t[s][a] == v
  {
    seq(n, _ => seq(m, _ => v))
  }

  /** The table with the one cell (s, a) replaced by v. */
  function Assign(t: seq<seq<real>>, s: nat, a: nat, v: real): (t': seq<seq<real>>)
    requires s < |t| && a < |t[s]|
    ensures |t'| == |t| && forall i :: 0 <= i < |t| ==> |t'[i]| == |t[i]|
    ensures t'[s][a] == v
    ensures forall i, j :: 0 <= i < |t| && 0 <= j < |t[i]| && (i != s || j != a) ==> t'[i][j] == t[i][j]
  {
    t[s := t[s][a := v]]
  }

  /** A row of m zeros, what a terminal state's row is overwritten with. */
  function Zeros(m: nat): (row: seq<real>)
    ensures |row| == m && forall j :: 0 <= j < m ==> row[j] == 0.0
  {
    seq(m, _ => 0.0)
  }

  class QTable {
    const stateSize: nat
    const actionSize: nat
    const initQValue: real
    var table: seq<seq<real>>

    ghost predicate Valid()
      reads this
    {
      Shaped(table, stateSize, actionSize)
    }

    /**
     * `new_qtable(state_size, action_size, init_qvalue)`: the nested loops of
     * C_GCC and Go_go fill every cell with the initial value.
     */
    constructor (stateSize: nat, actionSize: nat, initQValue: real)
      ensures Valid()
      ensures this.stateSize == stateSize && this.actionSize == actionSize
      ensures this.initQValue == initQValue
      ensures table == Filled(stateSize, actionSize, initQValue)
    {
      this.stateSize := stateSize;
      this.actionSize := actionSize;
      this.initQValue := initQValue;
      var rows: seq<seq<real>> := [];
      var i := 0;
      while i < stateSize
        invariant 0 <= i <= stateSize
        invariant |rows| == i
        invariant forall k :: 0 <= k < i ==> rows[k] == seq(actionSize, _ => initQValue)
      {
        var row: seq<real> := [];
        var j := 0;
        while j < actionSize
          invariant 0 <= j <= actionSize
          invariant row == seq(j, _ => initQValue)
        {
          row := row + [initQValue];
          j := j + 1;
        }
        rows := rows + [row];
        i := i + 1;
      }
      table := rows;
    }

    /**
     * `QTable::new(init_q, s_space, a_space)` of the experiment generation,
     * which takes the initial value first and builds the table in one
     * expression.
     */
    constructor FromInitial(initQ: real, sSpace: nat, aSpace: nat)
      ensures Valid()
      ensures stateSize == sSpace && actionSize == aSpace && initQValue == initQ
      ensures table == Filled(sSpace, aSpace, initQ)
    {
      stateSize := sSpace;
      actionSize := aSpace;
      initQValue := initQ;
      table := Filled(sSpace, aSpace, initQ);
    }

    /** Sets every entry of row s to 0, one entry at a time. */
    method ZeroRow(s: nat)
      requires Valid() && s < stateSize
      modifies this
      ensures Valid()
      ensures table == old(table)[s := Zeros(actionSize)]
    {
      var j := 0;
      while j < actionSize
        invariant 0 <= j <= actionSize
        invariant Valid()
        invariant forall i :: 0 <= i < stateSize && i != s ==> table[i] == old(table)[i]
        invariant forall k :: 0 <= k < actionSize ==> table[s][k] == if k < j then 0.0 else old(table)[s][k]
      {
        table := table[s := table[s][j := 0.0]];
        j := j + 1;
      }
      assert table[s] == Zeros(actionSize);
    }

    /** Writes one cell; every other cell keeps its value. */
    method Set(s: nat, a: nat, v: real)
      requires Valid() && s < stateSize && a < actionSize
      modifies this
      ensures Valid()
      ensures table == Assign(old(table), s, a, v)
    {
      table := Assign(table, s, a, v);
    }
  }
}
