/**
  Numeric helpers shared by the ranking engine and the supply-chain simulator:
  the two rounding rules the sources rely on (JavaScript's `Math.round` and
  Python's `round`), and the extrema and sum of a non-empty list of reals
  (`Math.max(...xs)`, `Math.min(...xs)`, `xs.reduce((s, x) => s + x, 0)`).
*/
module Numeric {

  /** JavaScript `Math.round`: the nearest integer, halves rounded up. */
  function JsRound(x: real): (r: int)
    ensures x - 0.5 < r as real <= x + 0.5
  {
    (x + 0.5).Floor
  }

  /** `Math.round` of a value between two integers stays between them. */
  lemma JsRoundWithin(x: real, lo: int, hi: int)
    requires lo as real <= x <= hi as real
    ensures lo <= JsRound(x) <= hi
  {
  }

  /** `Math.round` leaves an integer unchanged. */
  lemma JsRoundOfInt(n: int)
    ensures JsRound(n as real) == n
  {
  }

  /** Python `round(x)` on an exact real: the nearest integer, halves to even. */
  function RoundHalfEven(x: real): (r: int)
    ensures x - 0.5 <= r as real <= x + 0.5
    ensures x - 0.5 == r as real || r as real == x + 0.5 ==> r % 2 == 0
  {
    var f := x.Floor;
    var frac := x - f as real;
    if frac < 0.5 then f
    else if frac > 0.5 then f + 1
    else if f % 2 == 0 then f
    else f + 1
  }

  /** Python `round(x, 1)` on an exact real. */
  function RoundTenths(x: real): (r: real)
    ensures x - 0.05 <= r <= x + 0.05
  {
    RoundHalfEven(x * 10.0) as real / 10.0
  }

  /** Python `round(x, 2)` on an exact real. */
  function RoundHundredths(x: real): (r: real)
    ensures x - 0.005 <= r <= x + 0.005
  {
    RoundHalfEven(x * 100.0) as real / 100.0
  }

  /** Rounding never moves a value across an integer it is above. */
  lemma RoundHalfEvenAtLeast(x: real, n: int)
    requires n as real <= x
    ensures n <= RoundHalfEven(x)
  {
  }

  lemma RoundHalfEvenAtMost(x: real, n: int)
    requires x <= n as real
    ensures RoundHalfEven(x) <= n
  {
  }

  /** `round(x, 1)` of a value at or above an integer stays at or above it. */
  lemma RoundTenthsAtLeast(x: real, n: int)
    requires n as real <= x
    ensures n as real <= RoundTenths(x)
  {
    RoundHalfEvenAtLeast(x * 10.0, n * 10);
  }

  /** `round(x, 2)` keeps a value inside a band whose ends are whole
      hundredths. */
  lemma RoundHundredthsWithin(x: real, lo: int, hi: int)
    requires lo as real / 100.0 <= x <= hi as real / 100.0
    ensures lo as real / 100.0 <= RoundHundredths(x) <= hi as real / 100.0
  {
    RoundHalfEvenAtLeast(x * 100.0, lo);
    RoundHalfEvenAtMost(x * 100.0, hi);
  }

  /** Python `round` is monotone: a larger input never rounds to less. */
  lemma RoundHalfEvenMonotone(x: real, y: real)
    requires x <= y
    ensures RoundHalfEven(x) <= RoundHalfEven(y)
  {
    var fx, fy := x.Floor, y.Floor;
    if fx < fy {
      RoundHalfEvenAtMost(x, fx + 1);
      RoundHalfEvenAtLeast(y, fy);
    }
  }

  /** `round(x, 1)` is monotone. */
  lemma RoundTenthsMonotone(x: real, y: real)
    requires x <= y
    ensures RoundTenths(x) <= RoundTenths(y)
  {
    RoundHalfEvenMonotone(x * 10.0, y * 10.0);
  }

  /** `Math.max(...s)` for a non-empty list. */
  function MaxOf(s: seq<real>): (r: real)
    requires |s| > 0
    ensures r in s
    ensures forall i :: 0 <= i < |s| ==> s[i] <= r
  {
    if |s| == 1 then s[0]
    else
      var m := MaxOf(s[..|s| - 1]);
      if s[|s| - 1] > m then s[|s| - 1] else m
  }

  /** `Math.min(...s)` for a non-empty list. */
  function MinOf(s: seq<real>): (r: real)
    requires |s| > 0
    ensures r in s
    ensures forall i :: 0 <= i < |s| ==> r <= s[i]
  {
    if |s| == 1 then s[0]
    else
      var m := MinOf(s[..|s| - 1]);
      if s[|s| - 1] < m then s[|s| - 1] else m
  }

  /** `s.reduce((sum, x) => sum + x, 0)`. */
  function SumOf(s: seq<real>): real
  {
    if |s| == 0 then 0.0 else SumOf(s[..|s| - 1]) + s[|s| - 1]
  }

  /** The arithmetic mean `sum / s.length` of a non-empty list. */
  function Mean(s: seq<real>): real
    requires |s| > 0
  {
    SumOf(s) / |s| as real
  }

  /** A sum of terms each at most `hi` is at most `|s|` times `hi`. */
  lemma {:induction false} SumAtMost(s: seq<real>, hi: real)
    requires forall i :: 0 <= i < |s| ==> s[i] <= hi
    ensures SumOf(s) <= |s| as real * hi
  {
    if |s| > 0 {
      var init := s[..|s| - 1];
      SumAtMost(init, hi);
      assert |s| as real * hi == |init| as real * hi + hi;
    }
  }

  /** A sum of terms each at least `lo` is at least `|s|` times `lo`. */
  lemma {:induction false} SumAtLeast(s: seq<real>, lo: real)
    requires forall i :: 0 <= i < |s| ==> lo <= s[i]
    ensures |s| as real * lo <= SumOf(s)
  {
    if |s| > 0 {
      var init := s[..|s| - 1];
      SumAtLeast(init, lo);
      assert |s| as real * lo == |init| as real * lo + lo;
    }
  }

  lemma QuotientAtMost(total: real, n: real, hi: real)
    requires 0.0 < n && total <= n * hi
    ensures total / n <= hi
  {
  }

  lemma QuotientAtLeast(total: real, n: real, lo: real)
    requires 0.0 < n && n * lo <= total
    ensures lo <= total / n
  {
  }

  /** A mean of terms each at most `hi` is at most `hi`. */
  lemma MeanAtMost(s: seq<real>, hi: real)
    requires |s| > 0
    requires forall i :: 0 <= i < |s| ==> s[i] <= hi
    ensures Mean(s) <= hi
  {
    SumAtMost(s, hi);
    QuotientAtMost(SumOf(s), |s| as real, hi);
  }

  /** A mean of terms each at least `lo` is at least `lo`. */
  lemma MeanAtLeast(s: seq<real>, lo: real)
    requires |s| > 0
    requires forall i :: 0 <= i < |s| ==> lo <= s[i]
    ensures lo <= Mean(s)
  {
    SumAtLeast(s, lo);
    QuotientAtLeast(SumOf(s), |s| as real, lo);
  }

  /** The mean of a list lies between its minimum and its maximum. */
  lemma MeanBetweenExtrema(s: seq<real>)
    requires |s| > 0
    ensures MinOf(s) <= Mean(s) <= MaxOf(s)
  {
    MeanAtLeast(s, MinOf(s));
    MeanAtMost(s, MaxOf(s));
  }
}
