/** Rounded means stay between their rounded bounds, once and twice over. */
module Averages {
  import opened AnalyticsSpec

  lemma RoundMonotone(x: real, y: real)
    requires x <= y
    ensures Round(x) <= Round(y)
  {
  }

  lemma RoundInt(n: int)
    ensures Round(n as real) == n
  {
  }

  predicate AllWithin(values: seq<real>, a: real, b: real) {
    forall k :: 0 <= k < |values| ==> a <= values[k] <= b
  }

  lemma {:induction false} SumWithin(values: seq<real>, a: real, b: real)
    requires AllWithin(values, a, b)
    ensures a * (|values| as real) <= Sum(values) <= b * (|values| as real)
  {
    if values != [] {
      var n := |values| - 1;
      SumWithin(values[..n], a, b);
      assert (|values| as real) == (n as real) + 1.0;
    }
  }

  lemma MeanWithin(sum: real, n: real, a: real, b: real)
    requires 0.0 < n && a * n <= sum <= b * n
    ensures a <= sum / n <= b
  {
    var q := sum / n;
    assert q * n == sum;
    assert (a - q) * n == a * n - sum && (q - b) * n == sum - b * n;
    if q < a {
      ProductPositive(a - q, n);
    }
    if q > b {
      ProductPositive(q - b, n);
    }
  }

  lemma ProductPositive(x: real, y: real)
    requires 0.0 < x && 0.0 < y
    ensures 0.0 < x * y
  {
  }

  /** A rounded mean lies between the rounded bounds of its values, and is null for none. */
  lemma AverageWithin(values: seq<real>, a: real, b: real)
    requires AllWithin(values, a, b)
    ensures Average(values).None? <==> values == []
    ensures Average(values).Some? ==> Round(a) <= Average(values).value <= Round(b)
  {
    if values != [] {
      SumWithin(values, a, b);
      MeanWithin(Sum(values), |values| as real, a, b);
      RoundMonotone(a, Sum(values) / (|values| as real));
      RoundMonotone(Sum(values) / (|values| as real), b);
    }
  }

  lemma {:induction false} MeansWithin(ranges: seq<Stats>, k: Duration, a: int, b: int)
    requires forall i :: 0 <= i < |ranges| ==> Mean(ranges[i], k).Some? ==> a <= Mean(ranges[i], k).value <= b
    ensures AllWithin(Means(ranges, k), a as real, b as real)
    ensures Means(ranges, k) == [] <==> forall i :: 0 <= i < |ranges| ==> Mean(ranges[i], k).None?
  {
    if ranges != [] {
      var n := |ranges| - 1;
      assert forall i :: 0 <= i < n ==> ranges[..n][i] == ranges[i];
      MeansWithin(ranges[..n], k, a, b);
    }
  }

  /** A rounded mean of rounded means stays between the rounded bounds of the samples, and is
      null exactly when no range had a sample. */
  lemma TwoLevelsWithin(ranges: seq<Stats>, samples: seq<seq<real>>, k: Duration, a: real, b: real)
    requires |ranges| == |samples|
    requires forall i :: 0 <= i < |ranges| ==> Mean(ranges[i], k) == Average(samples[i])
    requires forall i :: 0 <= i < |ranges| ==> AllWithin(samples[i], a, b)
    ensures Average(Means(ranges, k)).None? <==> forall i :: 0 <= i < |samples| ==> samples[i] == []
    ensures Average(Means(ranges, k)).Some? ==> Round(a) <= Average(Means(ranges, k)).value <= Round(b)
  {
    forall i | 0 <= i < |ranges|
      ensures Mean(ranges[i], k).None? <==> samples[i] == []
      ensures Mean(ranges[i], k).Some? ==> Round(a) <= Mean(ranges[i], k).value <= Round(b)
    {
      AverageWithin(samples[i], a, b);
    }
    MeansWithin(ranges, k, Round(a), Round(b));
    AverageWithin(Means(ranges, k), Round(a) as real, Round(b) as real);
    RoundInt(Round(a));
    RoundInt(Round(b));
  }
}
