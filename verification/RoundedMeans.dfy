/** What an average is: the mean of its values, rounded half up, whatever order they come in. */
module RoundedMeans {
  import opened AnalyticsSpec
  import opened Averages

  // ---------- Sums ----------

  lemma SumOne(x: real)
    ensures Sum([x]) == x && Sum([]) == 0.0
  {
    assert [x][..0] == [];
  }

  lemma {:induction false} SumConcat(a: seq<real>, b: seq<real>)
    ensures Sum(a + b) == Sum(a) + Sum(b)
  {
    if b == [] {
      assert a + b == a;
    } else {
      var n := |b| - 1;
      SumConcat(a, b[..n]);
      assert (a + b)[..|a + b| - 1] == a + b[..n];
    }
  }

  lemma SumAround(head: seq<real>, x: real, tail: seq<real>)
    ensures Sum(head + ([x] + tail)) == Sum(head + tail) + x
  {
    SumConcat(head, [x] + tail);
    SumConcat([x], tail);
    SumConcat(head, tail);
    SumOne(x);
  }

  lemma SplitAround<T>(b: seq<T>, k: nat)
    requires k < |b|
    ensures b[..k] + ([b[k]] + b[k + 1..]) == b
  {
  }

  lemma ValuesWithout(b: seq<real>, k: nat)
    requires k < |b|
    ensures multiset(b[..k] + b[k + 1..]) == multiset(b) - multiset{b[k]}
  {
    assert b == b[..k] + [b[k]] + b[k + 1..];
  }

  /** A sum does not depend on the order of its values. */
  lemma {:induction false} SumInAnyOrder(a: seq<real>, b: seq<real>)
    requires multiset(a) == multiset(b)
    ensures Sum(a) == Sum(b) && |a| == |b|
    decreases |a|
  {
    assert |multiset(a)| == |a| && |multiset(b)| == |b|;
    if a != [] {
      var n := |a| - 1;
      assert a[n] in multiset(a);
      var k :| 0 <= k < |b| && b[k] == a[n];
      SplitAround(b, k);
      SumAround(b[..k], b[k], b[k + 1..]);
      ValuesWithout(b, k);
      assert a == a[..n] + [a[n]];
      assert multiset(a[..n]) == multiset(a) - multiset{a[n]};
      SumInAnyOrder(a[..n], b[..k] + b[k + 1..]);
    }
  }

  // ---------- The rounded mean ----------

  /** The number, as often as there are values, misses their sum by at most half per value; a half
      is rounded up. */
  predicate IsRoundedMean(values: seq<real>, m: int) {
    var n := |values| as real;
    values != [] && 2.0 * Sum(values) - n < 2.0 * ((m as real) * n) <= 2.0 * Sum(values) + n
  }

  /** Products are named, to keep what follows from them linear. */
  lemma Scaled(a: real, b: real, n: real, an: real, bn: real)
    requires 0.0 < n && a <= b && an == a * n && bn == b * n
    ensures an <= bn && (a < b ==> an < bn)
  {
    if a < b {
      ProductPositive(b - a, n);
      Minus(a, b, n);
    }
  }

  lemma Minus(a: real, b: real, n: real)
    ensures (b - a) * n == b * n - a * n
  {
  }

  lemma Plus(a: real, b: real, n: real)
    ensures (b + a) * n == b * n + a * n
  {
  }

  lemma HalfUp(q: real, x: real, n: real, sum: real, product: real)
    requires 0.0 < n && q * n == sum && x * n == product && x <= q + 0.5 < x + 1.0
    ensures 2.0 * sum - n < 2.0 * product <= 2.0 * sum + n
  {
    var middle, upper := (q + 0.5) * n, (x + 1.0) * n;
    Scaled(x, q + 0.5, n, product, middle);
    Scaled(q + 0.5, x + 1.0, n, middle, upper);
    Plus(0.5, q, n);
    Plus(1.0, x, n);
    Between(sum, n, product, middle, upper);
  }

  lemma Between(sum: real, n: real, product: real, middle: real, upper: real)
    requires product <= middle < upper && middle == sum + 0.5 * n && upper == product + n
    ensures 2.0 * sum - n < 2.0 * product <= 2.0 * sum + n
  {
  }

  lemma RoundedQuotient(sum: real, n: real, m: int)
    requires 0.0 < n && m == Round(sum / n)
    ensures 2.0 * sum - n < 2.0 * ((m as real) * n) <= 2.0 * sum + n
  {
    var q := sum / n;
    assert q * n == sum;
    HalfUp(q, m as real, n, sum, (m as real) * n);
  }

  /** An average is null exactly when there are no values, and else the mean rounded half up. */
  lemma AverageIsRoundedMean(values: seq<real>)
    ensures Average(values).None? <==> values == []
    ensures Average(values).Some? ==> IsRoundedMean(values, Average(values).value)
  {
    if values != [] {
      RoundedQuotient(Sum(values), |values| as real, Average(values).value);
    }
  }

  /** Only one number is. */
  lemma RoundedMeanIsUnique(values: seq<real>, m: int, k: int)
    requires IsRoundedMean(values, m) && IsRoundedMean(values, k)
    ensures m == k
  {
    if m < k {
      NotAbove(values, m, k);
    } else if k < m {
      NotAbove(values, k, m);
    }
  }

  lemma NotAbove(values: seq<real>, m: int, k: int)
    requires IsRoundedMean(values, m) && m < k
    ensures !IsRoundedMean(values, k)
  {
    var n, x, y := |values| as real, m as real, k as real;
    Scaled(x + 1.0, y, n, (x + 1.0) * n, y * n);
    Plus(1.0, x, n);
    FarBelow(Sum(values), n, x * n, (x + 1.0) * n, y * n);
  }

  lemma FarBelow(sum: real, n: real, low: real, next: real, high: real)
    requires 2.0 * sum - n < 2.0 * low && next == low + n && next <= high
    ensures 2.0 * sum + n < 2.0 * high
  {
  }

  lemma AverageInAnyOrder(a: seq<real>, b: seq<real>)
    requires multiset(a) == multiset(b)
    ensures Average(a) == Average(b)
  {
    SumInAnyOrder(a, b);
  }
}
