/**
 * Decimal rendering of integers, as `%d`, `{}` and string interpolation
 * print them, and the "h,w" coordinate string the mazes report as info.
 */
module Decimal {

  predicate IsDigit(c: char) {
    '0' as int <= c as int <= '9' as int
  }

  function DigitChar(d: nat): (c: char)
    requires d < 10
    ensures IsDigit(c) && (c as int) - ('0' as int) == d
  {
    ('0' as int + d) as char
  }

  /** The decimal digits of n, most significant first, without leading zeros. */
  function Digits(n: nat): (s: string)
    ensures |s| > 0
    ensures forall i :: 0 <= i < |s| ==> IsDigit(s[i])
    ensures n > 0 ==> s[0] != '0'
    decreases n
  {
    if n < 10 then [DigitChar(n)] else Digits(n / 10) + [DigitChar(n % 10)]
  }

  /** The value of a string of decimal digits. */
  function ValueOf(s: string): nat
    requires forall i :: 0 <= i < |s| ==> IsDigit(s[i])
  {
    if |s| == 0 then 0
    else
      var last := s[|s| - 1];
      assert IsDigit(last);
      ValueOf(s[..|s| - 1]) * 10 + ((last as int) - ('0' as int))
  }

  /** Reading the digits back gives the number. */
  lemma {:induction false} ValueOfDigits(n: nat)
    ensures ValueOf(Digits(n)) == n
    decreases n
  {
    if n >= 10 {
      ValueOfDigits(n / 10);
      var s := Digits(n);
      assert s[..|s| - 1] == Digits(n / 10);
    }
  }

  /** `%d`: a minus sign before the digits of a negative number. */
  function IntToString(i: int): (s: string)
    ensures |s| > 0
    ensures forall k :: 0 <= k < |s| ==> s[k] != ','
    ensures s[0] == '-' <==> i < 0
  {
    if i < 0 then "-" + Digits(-i) else Digits(i)
  }

  /** Different integers render differently. */
  lemma IntToStringInjective(i: int, j: int)
    requires IntToString(i) == IntToString(j)
    ensures i == j
  {
    var si, sj := IntToString(i), IntToString(j);
    if i < 0 {
      assert Digits(-i) == si[1..] == Digits(-j);
      ValueOfDigits(-i);
      ValueOfDigits(-j);
    } else {
      ValueOfDigits(i);
      ValueOfDigits(j);
    }
  }

  /** The info string of a maze position: row, a comma, column. */
  function CoordinateString(h: int, w: int): (s: string)
    ensures |s| >= 3
  {
    IntToString(h) + "," + IntToString(w)
  }

  /** The index of the first comma in s, or |s| when there is none. */
  function FirstComma(s: string): (k: nat)
    ensures k <= |s|
  {
    if |s| == 0 || s[0] == ',' then 0 else 1 + FirstComma(s[1..])
  }

  lemma {:induction false} FirstCommaAfter(a: string, b: string)
    requires forall k :: 0 <= k < |a| ==> a[k] != ','
    ensures FirstComma(a + "," + b) == |a|
  {
    if |a| > 0 {
      assert (a + "," + b)[1..] == a[1..] + "," + b;
      FirstCommaAfter(a[1..], b);
    }
  }

  /** A comma-free head is recovered from head + "," + tail. */
  lemma SplitAtComma(a: string, b: string, c: string, d: string)
    requires forall k :: 0 <= k < |a| ==> a[k] != ','
    requires forall k :: 0 <= k < |c| ==> c[k] != ','
    requires a + "," + b == c + "," + d
    ensures a == c && b == d
  {
    var x := a + "," + b;
    FirstCommaAfter(a, b);
    FirstCommaAfter(c, d);
    assert |a| == |c|;
    assert a == x[..|a|] == c;
    assert b == x[|a| + 1..] == d;
  }

  /** Different positions give different info strings, so a history's info column identifies every cell visited. */
  lemma CoordinateStringInjective(h: int, w: int, h': int, w': int)
    requires CoordinateString(h, w) == CoordinateString(h', w')
    ensures h == h' && w == w'
  {
    SplitAtComma(IntToString(h), IntToString(w), IntToString(h'), IntToString(w'));
    IntToStringInjective(h, h');
    IntToStringInjective(w, w');
  }
}
