/**
 * Discretisation of continuous observations into Q-table rows.
 *
 * Two binning rules occur:
 *   - the reserved-bin rule of the cartpole and pendulum environments: bin 0
 *     below the lower bound, bin num-1 at or above the upper bound, and num-2
 *     equal-width interior bins;
 *   - the bin-edge rule of the hard-coded cartpole agents: num-1 edges from
 *     lo to hi, and the index of the first edge above the value.
 * The per-dimension indices are then combined in mixed radix, most significant
 * dimension first (config and experiment generations) or x least significant
 * (hard-coded generation).
 */
module Discretize {
  import opened RealMath

  /** Limits and bin count of one state component. */
  datatype Axis = Axis(lo: real, hi: real, num: nat)

  /** The limits and bin counts both binning rules need: at least three bins over a non-empty range. */
  predicate AxisOk(ax: Axis) {
    ax.num >= 3 && ax.lo < ax.hi
  }

  /** Width of one interior bin. */
  function BinWidth(lo: real, hi: real, num: nat): (w: real)
    requires num >= 3 && lo < hi
    ensures w > 0.0
    ensures (num - 2) as real * w == hi - lo
  {
    (hi - lo) / (num - 2) as real
  }

  /**
   * The reserved-bin rule (C_GCC `env_cartpole_digitize` and its ports). The
   * interior index is a truncated quotient in C, Rust and Ruby and a floor
   * division in Python; the quotient is never negative, so the two agree.
   */
  function Digitize(lo: real, hi: real, num: nat, val: real): (k: nat)
    requires num >= 3 && lo < hi
    ensures k < num
    ensures k == 0 <==> val < lo
    ensures k == num - 1 <==> val >= hi
    ensures 0 < k < num - 1 ==>
              lo + (k - 1) as real * BinWidth(lo, hi, num) <= val < lo + k as real * BinWidth(lo, hi, num)
  {
    if val < lo then 0
    else if val >= hi then num - 1
    else
      InteriorBin(lo, hi, num, val);
      Trunc((val - lo) / BinWidth(lo, hi, num)) + 1
  }

  lemma InteriorBin(lo: real, hi: real, num: nat, val: real)
    requires num >= 3 && lo <= val < hi
    ensures var w := BinWidth(lo, hi, num);
            var t := Trunc((val - lo) / w);
            0 <= t < num - 2 && lo + t as real * w <= val < lo + (t + 1) as real * w
  {
    var w := BinWidth(lo, hi, num);
    var q := (val - lo) / w;
    DivMonoLe(0.0, val - lo, w);
    TruncIsFloorWhenNonNegative(q);
    FloorBracket(val - lo, w);
    DivMonoLt(val - lo, hi - lo, w);
    assert (hi - lo) / w == (num - 2) as real;
    var t := Trunc(q);
    assert (t + 1) as real * w == t as real * w + w;
  }

  /** The reserved-bin rule never decreases as the value grows. */
  lemma {:induction false} DigitizeMonotone(lo: real, hi: real, num: nat, v1: real, v2: real)
    requires num >= 3 && lo < hi && v1 <= v2
    ensures Digitize(lo, hi, num, v1) <= Digitize(lo, hi, num, v2)
  {
    if lo <= v1 && v2 < hi {
      var w := BinWidth(lo, hi, num);
      DivMonoLe(v1 - lo, v2 - lo, w);
      DivMonoLe(0.0, v1 - lo, w);
      TruncIsFloorWhenNonNegative((v1 - lo) / w);
      TruncIsFloorWhenNonNegative((v2 - lo) / w);
    }
  }

  /** The lower bound itself falls in the first interior bin, not in bin 0. */
  lemma DigitizeAtLowerBound(lo: real, hi: real, num: nat)
    requires num >= 3 && lo < hi
    ensures Digitize(lo, hi, num, lo) == 1
  {
    assert (lo - lo) / BinWidth(lo, hi, num) == 0.0;
  }

  /** Edge i of the bin-edge rule: lo + i * (hi - lo) / (num - 2). */
  function Edge(lo: real, hi: real, num: nat, i: nat): real
    requires num >= 3
  {
    lo + i as real * ((hi - lo) / (num - 2) as real)
  }

  /** The num - 1 edges `make_bins` builds. */
  function Edges(lo: real, hi: real, num: nat): (e: seq<real>)
    requires num >= 3
    ensures |e| == num - 1
    ensures forall i :: 0 <= i < |e| ==> e[i] == Edge(lo, hi, num, i)
  {
    seq(num - 1, i requires 0 <= i => Edge(lo, hi, num, i))
  }

  /** The edges start at lo, end at hi and strictly increase. */
  lemma EdgesSpanBounds(lo: real, hi: real, num: nat)
    requires num >= 3 && lo < hi
    ensures Edges(lo, hi, num)[0] == lo
    ensures Edges(lo, hi, num)[num - 2] == hi
    ensures forall i, j :: 0 <= i < j < num - 1 ==> Edges(lo, hi, num)[i] < Edges(lo, hi, num)[j]
  {
    var w := BinWidth(lo, hi, num);
    forall i: nat, j: nat | i < j < num - 1
      ensures Edge(lo, hi, num, i) < Edge(lo, hi, num, j)
    {
      MulMonoLt(i as real, j as real, w);
    }
  }

  /**
   * `make_bins` (c_clang, go, rust/src/agent.rs, python3/agent.py,
   * ruby/agent.rb): fills num - 1 edges in a loop.
   */
  method MakeBins(lo: real, hi: real, num: nat) returns (bins: seq<real>)
    requires num >= 3
    ensures bins == Edges(lo, hi, num)
  {
    var width := (hi - lo) / (num - 2) as real;
    bins := [];
    var i := 0;
    while i < num - 1
      invariant 0 <= i <= num - 1
      invariant |bins| == i
      invariant forall j :: 0 <= j < i ==> bins[j] == Edge(lo, hi, num, j)
    {
      bins := bins + [lo + width * i as real];
      i := i + 1;
    }
  }

  /** Index of the first edge strictly above x, or |bins| when there is none. */
  function FirstAbove(bins: seq<real>, x: real): (k: nat)
    ensures k <= |bins|
    ensures forall j :: 0 <= j < k ==> bins[j] <= x
    ensures k < |bins| ==> x < bins[k]
  {
    if bins == [] then 0
    else if x < bins[0] then 0
    else 1 + FirstAbove(bins[1..], x)
  }

  /** The two clauses of FirstAbove's contract determine it. */
  lemma FirstAboveUnique(bins: seq<real>, x: real, k: nat)
    requires k <= |bins|
    requires forall j :: 0 <= j < k ==> bins[j] <= x
    requires k < |bins| ==> x < bins[k]
    ensures FirstAbove(bins, x) == k
  {
  }

  /** On increasing edges the bin-edge rule never decreases as x grows. */
  lemma FirstAboveMonotone(bins: seq<real>, x1: real, x2: real)
    requires x1 <= x2
    requires forall i, j :: 0 <= i < j < |bins| ==> bins[i] <= bins[j]
    ensures FirstAbove(bins, x1) <= FirstAbove(bins, x2)
  {
  }

  /**
   * `digitize` of the hard-coded agents: scans the edges and returns at the
   * first one above x.
   */
  method BinDigitize(bins: seq<real>, x: real) returns (k: nat)
    ensures k == FirstAbove(bins, x)
  {
    var i := 0;
    while i < |bins|
      invariant 0 <= i <= |bins|
      invariant forall j :: 0 <= j < i ==> bins[j] <= x
    {
      if x < bins[i] {
        FirstAboveUnique(bins, x, i);
        return i;
      }
      i := i + 1;
    }
    FirstAboveUnique(bins, x, i);
    k := i;
  }

  /**
   * The two binning rules agree: the bin-edge index over `make_bins` edges is
   * the reserved-bin index.
   */
  lemma {:induction false} EdgeRuleIsReservedBinRule(lo: real, hi: real, num: nat, x: real)
    requires num >= 3 && lo < hi
    ensures FirstAbove(Edges(lo, hi, num), x) == Digitize(lo, hi, num, x)
  {
    var e := Edges(lo, hi, num);
    EdgesSpanBounds(lo, hi, num);
    if x < lo {
      FirstAboveUnique(e, x, 0);
    } else if x >= hi {
      forall j | 0 <= j < num - 1 ensures e[j] <= x {
        if j < num - 2 { assert e[j] < e[num - 2]; }
      }
      FirstAboveUnique(e, x, num - 1);
    } else {
      InteriorEdges(lo, hi, num, x);
      FirstAboveUnique(e, x, Digitize(lo, hi, num, x));
    }
  }

  /** Inside [lo, hi) the edges up to the reserved-bin index lie at or below x, and the next one above. */
  lemma {:induction false} InteriorEdges(lo: real, hi: real, num: nat, x: real)
    requires num >= 3 && lo <= x < hi
    ensures var e, k := Edges(lo, hi, num), Digitize(lo, hi, num, x);
            k < |e| && (forall j :: 0 <= j < k ==> e[j] <= x) && x < e[k]
  {
    var e := Edges(lo, hi, num);
    var k := Digitize(lo, hi, num, x);
    var w := BinWidth(lo, hi, num);
    assert 0 < k < num - 1;
    assert w == (hi - lo) / (num - 2) as real;
    assert lo + (k - 1) as real * w <= x < lo + k as real * w;
    assert e[k] == lo + k as real * w;
    forall j | 0 <= j < k ensures e[j] <= x {
      MulMonoLe(j as real, (k - 1) as real, w);
      assert e[j] == lo + j as real * w <= lo + (k - 1) as real * w;
    }
  }

  /**
   * Mixed radix, most significant first, for the config and experiment
   * cartpoles: ((x * ts + t) * xds + xd) * tds + td.
   */
  function CartpoleIndex(x: nat, t: nat, xd: nat, td: nat, ts: nat, xds: nat, tds: nat): nat
  {
    ((x * ts + t) * xds + xd) * tds + td
  }

  /** Mixed radix with x least significant, for the hard-coded agents. */
  function AgentIndex(x: nat, t: nat, xd: nat, td: nat, xn: nat, tn: nat, xdn: nat): nat
  {
    x + xn * (t + tn * (xd + xdn * td))
  }

  /** Two-digit mixed radix, for the pendulums: theta * thetadot_space + thetadot. */
  function PendulumIndex(t: nat, td: nat, tds: nat): nat
  {
    t * tds + td
  }

  /** One more digit keeps the number below the product of the radices. */
  lemma MixedRadixStep(hi: nat, lo: nat, hiSize: nat, loSize: nat)
    requires hi < hiSize && lo < loSize
    ensures hi * loSize + lo < hiSize * loSize
  {
    assert hi * loSize <= (hiSize - 1) * loSize;
  }

  /** A positive multiple k * m of a positive m, with k at least 1, is at least m. */
  lemma MulAtLeast(k: int, m: int)
    ensures k >= 1 && m > 0 ==> k * m >= m
  {
  }

  /** Two-digit representations with digits below m are unique. */
  lemma {:induction false} MixedRadixUnique(a: int, b: int, c: int, d: int, m: int)
    requires 0 <= b < m && 0 <= d < m
    requires a * m + b == c * m + d
    ensures a == c && b == d
  {
    assert (a - c) * m == d - b;
    MulAtLeast(a - c, m);
    MulAtLeast(c - a, m);
    assert (c - a) * m == b - d;
  }

  /** A two-digit number gives its digits back by division and remainder. */
  lemma {:induction false} MixedRadixDecode(hi: nat, lo: nat, loSize: nat)
    requires lo < loSize
    ensures (hi * loSize + lo) / loSize == hi
    ensures (hi * loSize + lo) % loSize == lo
  {
    var n := hi * loSize + lo;
    assert n == (n / loSize) * loSize + n % loSize;
    MixedRadixUnique(hi, lo, n / loSize, n % loSize, loSize);
  }

  lemma {:induction false} PendulumIndexInRange(t: nat, td: nat, ts: nat, tds: nat)
    requires t < ts && td < tds
    ensures PendulumIndex(t, td, tds) < ts * tds
    ensures PendulumIndex(t, td, tds) / tds == t && PendulumIndex(t, td, tds) % tds == td
  {
    MixedRadixStep(t, td, ts, tds);
    MixedRadixDecode(t, td, tds);
  }

  lemma {:induction false} CartpoleIndexInRange(x: nat, t: nat, xd: nat, td: nat, xs: nat, ts: nat, xds: nat, tds: nat)
    requires x < xs && t < ts && xd < xds && td < tds
    ensures CartpoleIndex(x, t, xd, td, ts, xds, tds) < xs * ts * xds * tds
  {
    MixedRadixStep(x, t, xs, ts);
    MixedRadixStep(x * ts + t, xd, xs * ts, xds);
    MixedRadixStep((x * ts + t) * xds + xd, td, xs * ts * xds, tds);
  }

  /** Distinct digit tuples give distinct cartpole rows. */
  lemma {:induction false} CartpoleIndexInjective(x: nat, t: nat, xd: nat, td: nat,
                                                  x': nat, t': nat, xd': nat, td': nat,
                                                  ts: nat, xds: nat, tds: nat)
    requires t < ts && xd < xds && td < tds
    requires t' < ts && xd' < xds && td' < tds
    requires CartpoleIndex(x, t, xd, td, ts, xds, tds) == CartpoleIndex(x', t', xd', td', ts, xds, tds)
    ensures x == x' && t == t' && xd == xd' && td == td'
  {
    var p, p' := x * ts + t, x' * ts + t';
    var q, q' := p * xds + xd, p' * xds + xd';
    MixedRadixUnique(q, td, q', td', tds);
    MixedRadixUnique(p, xd, p', xd', xds);
    MixedRadixUnique(x, t, x', t', ts);
  }

  lemma {:induction false} AgentIndexInRange(x: nat, t: nat, xd: nat, td: nat, xn: nat, tn: nat, xdn: nat, tdn: nat)
    requires x < xn && t < tn && xd < xdn && td < tdn
    ensures AgentIndex(x, t, xd, td, xn, tn, xdn) < xn * tn * xdn * tdn
  {
    AgentIndexIsReversedCartpoleIndex(x, t, xd, td, xn, tn, xdn);
    CartpoleIndexInRange(td, xd, t, x, tdn, xdn, tn, xn);
    assert tdn * xdn * tn * xn == xn * tn * xdn * tdn;
  }

  /** The x-least-significant order is the other order with the digits reversed. */
  lemma AgentIndexIsReversedCartpoleIndex(x: nat, t: nat, xd: nat, td: nat, xn: nat, tn: nat, xdn: nat)
    ensures AgentIndex(x, t, xd, td, xn, tn, xdn) == CartpoleIndex(td, xd, t, x, xdn, tn, xn)
  {
  }
}
