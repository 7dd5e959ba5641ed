/** Sums, extrema and means over sample series, and their first and last
    elements. Heart rate and cadence are integer series; positions, altitudes
    and distances are real series. */
module Stats {
  import opened Results

  /** The first element, absent on an empty series. */
  function First<T>(s: seq<T>): (r: Option<T>)
    ensures r.None? <==> |s| == 0
    ensures r.Some? ==> r.value == s[0]
  {
    if |s| > 0 then Some(s[0]) else None
  }

  /** The last element, absent on an empty series. */
  function Last<T>(s: seq<T>): (r: Option<T>)
    ensures r.None? <==> |s| == 0
    ensures r.Some? ==> r.value == s[|s| - 1]
  {
    if |s| > 0 then Some(s[|s| - 1]) else None
  }

  function SumInt(s: seq<int>): int {
    if |s| == 0 then 0 else s[0] + SumInt(s[1..])
  }

  function SumReal(s: seq<real>): real {
    if |s| == 0 then 0.0 else s[0] + SumReal(s[1..])
  }

  /** Python's `max` on a non-empty integer list. */
  function MaxInt(s: seq<int>): (m: int)
    requires |s| > 0
    ensures m in s
    ensures forall i :: 0 <= i < |s| ==> s[i] <= m
  {
    if |s| == 1 then s[0]
    else
      var rest := MaxInt(s[1..]);
      if s[0] >= rest then s[0] else rest
  }

  /** Python's `min` on a non-empty integer list. */
  function MinInt(s: seq<int>): (m: int)
    requires |s| > 0
    ensures m in s
    ensures forall i :: 0 <= i < |s| ==> m <= s[i]
  {
    if |s| == 1 then s[0]
    else
      var rest := MinInt(s[1..]);
      if s[0] <= rest then s[0] else rest
  }

  /** Python's `max` on a non-empty float list. */
  function MaxReal(s: seq<real>): (m: real)
    requires |s| > 0
    ensures m in s
    ensures forall i :: 0 <= i < |s| ==> s[i] <= m
  {
    if |s| == 1 then s[0]
    else
      var rest := MaxReal(s[1..]);
      if s[0] >= rest then s[0] else rest
  }

  /** Python's `min` on a non-empty float list. */
  function MinReal(s: seq<real>): (m: real)
    requires |s| > 0
    ensures m in s
    ensures forall i :: 0 <= i < |s| ==> m <= s[i]
  {
    if |s| == 1 then s[0]
    else
      var rest := MinReal(s[1..]);
      if s[0] <= rest then s[0] else rest
  }

  /** A sum of n values lying in [lo, hi] lies in [n * lo, n * hi]. */
  lemma {:induction false} SumRealBounded(s: seq<real>, lo: real, hi: real)
    requires forall i :: 0 <= i < |s| ==> lo <= s[i] <= hi
    ensures (|s| as real) * lo <= SumReal(s) <= (|s| as real) * hi
  {
    if |s| > 0 {
      SumRealBounded(s[1..], lo, hi);
      assert (|s| as real) * lo == ((|s| - 1) as real) * lo + lo;
      assert (|s| as real) * hi == ((|s| - 1) as real) * hi + hi;
    }
  }

  /** If a total lies between n * lo and n * hi then total / n lies between lo and hi. */
  lemma QuotientBetween(total: real, n: real, lo: real, hi: real)
    requires n > 0.0
    requires n * lo <= total <= n * hi
    ensures lo <= total / n <= hi
  {
  }

  /** An integer series read as reals, element by element. */
  function ToReals(s: seq<int>): (t: seq<real>)
    ensures |t| == |s|
    ensures forall i :: 0 <= i < |s| ==> t[i] == s[i] as real
  {
    seq(|s|, i requires 0 <= i < |s| => s[i] as real)
  }

  /** The mean of values lying in [lo, hi] lies in [lo, hi]. */
  lemma MeanBetween(t: seq<real>, lo: real, hi: real)
    requires |t| > 0
    requires forall i :: 0 <= i < |t| ==> lo <= t[i] <= hi
    ensures lo <= SumReal(t) / (|t| as real) <= hi
  {
    SumRealBounded(t, lo, hi);
    QuotientBetween(SumReal(t), |t| as real, lo, hi);
  }

  lemma {:induction false} SumToReals(s: seq<int>)
    ensures SumReal(ToReals(s)) == SumInt(s) as real
  {
    if |s| > 0 {
      assert ToReals(s)[1..] == ToReals(s[1..]);
      SumToReals(s[1..]);
    }
  }

  /** `sum(s) / len(s)` on a non-empty integer list, with true division:
      the mean times the number of values gives back their sum. */
  function MeanInt(s: seq<int>): (r: real)
    requires |s| > 0
    ensures r * (|s| as real) == SumInt(s) as real
  {
    (SumInt(s) as real) / (|s| as real)
  }

  /** `sum(s) / len(s)` on a non-empty float list: the mean times the number
      of values gives back their sum. */
  function MeanReal(s: seq<real>): (r: real)
    requires |s| > 0
    ensures r * (|s| as real) == SumReal(s)
  {
    SumReal(s) / (|s| as real)
  }

  /** The integer mean lies between the smallest and the largest value. */
  lemma MeanIntBetween(s: seq<int>)
    requires |s| > 0
    ensures MinInt(s) as real <= MeanInt(s) <= MaxInt(s) as real
  {
    var t := ToReals(s);
    MeanBetween(t, MinInt(s) as real, MaxInt(s) as real);
    SumToReals(s);
  }

  /** The float mean lies between the smallest and the largest value. */
  lemma MeanRealBetween(s: seq<real>)
    requires |s| > 0
    ensures MinReal(s) <= MeanReal(s) <= MaxReal(s)
  {
    MeanBetween(s, MinReal(s), MaxReal(s));
  }
}
