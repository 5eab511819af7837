/** Success rates and averages as exact rationals. The Python calculators
    write `succ / max(att, 1) * 100`; the Java services and some Python ones
    guard instead, `att > 0 ? succ * 100 / att : 0`. */
module Rates {

  function Max(a: int, b: int): int { if a >= b then a else b }

  /** `num / max(den, 1) * 100`. Its products are stated by lemmas
      (`RateTimesDen`), which keeps them out of every proof that only
      carries a rate along. */
  function Rate(num: int, den: int): real {
    num as real / Max(den, 1) as real * 100.0
  }

  /** `den > 0 ? num * 100 / den : 0`. */
  function GuardedRate(num: int, den: int): real {
    if den > 0 then num as real * 100.0 / den as real else 0.0
  }

  /** The two forms agree exactly when there are attempts or no successes:
      with no attempts the `max` form reports `100 * num`, not 0. */
  lemma RateFormsAgree(num: int, den: nat)
    ensures Rate(num, den) == GuardedRate(num, den) <==> den > 0 || num == 0
  {
  }

  /** The `max` form undone: the rate times the clamped denominator is a
      hundred times the numerator; without attempts the rate is that. */
  lemma RateTimesDen(num: int, den: int)
    ensures den >= 1 ==> Rate(num, den) * den as real == num as real * 100.0
    ensures den < 1 ==> Rate(num, den) == num as real * 100.0
  {
  }

  /** The guarded form undone: with attempts the rate times them is a
      hundred times the numerator; without attempts it is 0. */
  lemma GuardedTimesDen(num: int, den: int)
    ensures den > 0 ==> GuardedRate(num, den) * den as real == num as real * 100.0
    ensures den <= 0 ==> GuardedRate(num, den) == 0.0
  {
  }

  /** A success count within the attempt count gives a percentage. */
  lemma RateBounds(num: nat, den: nat)
    requires num <= den
    ensures 0.0 <= Rate(num, den) <= 100.0
    ensures 0.0 <= GuardedRate(num, den) <= 100.0
  {
    if den > 0 {
      assert num as real / den as real <= 1.0;
    }
  }

  function Sum(xs: seq<int>): int
    decreases |xs|
  {
    if xs == [] then 0 else Sum(xs[..|xs| - 1]) + xs[|xs| - 1]
  }

  /** `sum(xs) / len(xs)` when there are samples, else 0. */
  function Average(xs: seq<int>): real {
    if |xs| == 0 then 0.0 else Sum(xs) as real / |xs| as real
  }

  lemma {:induction false} SumBounds(xs: seq<int>, lo: int, hi: int)
    requires forall i :: 0 <= i < |xs| ==> lo <= xs[i] <= hi
    ensures |xs| * lo <= Sum(xs) <= |xs| * hi
    decreases |xs|
  {
    if xs != [] {
      var k := |xs| - 1;
      SumBounds(xs[..k], lo, hi);
      assert |xs| * lo == k * lo + lo && |xs| * hi == k * hi + hi;
    }
  }

  lemma CastProduct(a: int, b: int)
    ensures (b * a) as real == a as real * b as real
  {
  }

  /** A total between `n` times two bounds, shared by `n`, lies between them. */
  lemma QuotientBetween(s: real, n: real, lo: real, hi: real)
    requires n > 0.0 && lo * n <= s <= hi * n
    ensures lo <= s / n <= hi
  {
    assert lo == lo * n / n && hi == hi * n / n;
  }

  /** A part strictly inside a whole is a percentage strictly between 0
      and 100. */
  lemma ShareBelow(part: real, whole: real)
    requires 0.0 < part < whole
    ensures 0.0 < part * 100.0 / whole < 100.0
  {
    var q, d := part / whole, (whole - part) / whole;
    assert d > 0.0;
    assert q + d == whole / whole == 1.0;
    assert part * 100.0 / whole == q * 100.0;
  }

  /** An average lies between the smallest and the largest sample. */
  lemma AverageBounds(xs: seq<int>, lo: int, hi: int)
    requires |xs| > 0
    requires forall i :: 0 <= i < |xs| ==> lo <= xs[i] <= hi
    ensures lo as real <= Average(xs) <= hi as real
  {
    var n, s := |xs|, Sum(xs);
    SumBounds(xs, lo, hi);
    CastProduct(lo, n);
    CastProduct(hi, n);
    QuotientBetween(s as real, n as real, lo as real, hi as real);
  }

  /** Appending a sample twice weighs it twice in the average. */
  lemma SumAppend(xs: seq<int>, x: int)
    ensures Sum(xs + [x]) == Sum(xs) + x
  {
    assert (xs + [x])[..|xs|] == xs;
  }

  function SumReal(xs: seq<real>): real
    decreases |xs|
  {
    if xs == [] then 0.0 else SumReal(xs[..|xs| - 1]) + xs[|xs| - 1]
  }

  /** `stream().average().orElse(0.0)` on doubles, exactly. */
  function MeanReal(xs: seq<real>): real {
    if |xs| == 0 then 0.0 else SumReal(xs) / |xs| as real
  }

  lemma {:induction false} SumRealBounds(xs: seq<real>, lo: real, hi: real)
    requires forall i :: 0 <= i < |xs| ==> lo <= xs[i] <= hi
    ensures |xs| as real * lo <= SumReal(xs) <= |xs| as real * hi
    decreases |xs|
  {
    if xs != [] {
      SumRealBounds(xs[..|xs| - 1], lo, hi);
    }
  }

  /** A mean of samples lies between the smallest and the largest. */
  lemma MeanRealBounds(xs: seq<real>, lo: real, hi: real)
    requires |xs| > 0
    requires forall i :: 0 <= i < |xs| ==> lo <= xs[i] <= hi
    ensures lo <= MeanReal(xs) <= hi
  {
    SumRealBounds(xs, lo, hi);
    QuotientBetween(SumReal(xs), |xs| as real, lo, hi);
  }
}
