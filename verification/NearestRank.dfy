/** Inclusive nearest-rank percentiles (serving/live_astra_comparison_collect.py).

  A percentile is the exact fraction num/den; floating-point rounding of the product with
  the sample size is not modelled. Samples are integers or exact fractions, so reals here.
 */
module NearestRank {
  import opened Sorting
  import opened Wrappers

  function RealLe(): (real, real) -> bool { (a, b) => a <= b }

  datatype Percentile = Percentile(num: nat, den: nat) {
    predicate Valid() { 0 < den && num <= den }
  }

  const P50 := Percentile(50, 100)
  const P95 := Percentile(95, 100)
  const P99 := Percentile(99, 100)

  /** ceil(p * n) */
  function CeilShare(p: Percentile, n: nat): nat
    requires p.den != 0
  {
    (p.num * n + p.den - 1) / p.den
  }

  function Max(a: int, b: int): int { if a < b then b else a }

  /** The collector's percentile: the element of rank max(1, ceil(p*n)). */
  function NearestRank(ordered: seq<real>, p: Percentile): real
    requires p.Valid() && ordered != []
  {
    RankInBounds(p, |ordered|);
    ordered[Max(1, CeilShare(p, |ordered|)) - 1]
  }

  /** The token-distribution helper's percentile: index max(0, ceil(q*n) - 1). */
  function NearestRankByIndex(ordered: seq<real>, p: Percentile): real
    requires p.Valid() && ordered != []
  {
    RankInBounds(p, |ordered|);
    ordered[Max(0, CeilShare(p, |ordered|) - 1)]
  }

  lemma MulLe(a: nat, b: nat, d: nat)
    requires a <= b
    ensures a * d <= b * d
  {}

  /** ceil(p*n) is the least integer c with c >= p*n. */
  lemma CeilIsLeast(p: Percentile, n: nat, c: nat)
    requires p.Valid()
    ensures CeilShare(p, n) <= c <==> p.num * n <= c * p.den
  {
    var q := CeilShare(p, n);
    assert q * p.den <= p.num * n + p.den - 1 < q * p.den + p.den;
    if q <= c {
      MulLe(q, c, p.den);
    } else {
      MulLe(c + 1, q, p.den);
    }
  }

  lemma RankInBounds(p: Percentile, n: nat)
    requires p.Valid() && n > 0
    ensures 1 <= Max(1, CeilShare(p, n)) <= n
  {
    MulLe(p.num, p.den, n);
    CeilIsLeast(p, n, n);
  }

  // ---------------------------------------------------------------- counting

  function CountLe(s: seq<real>, v: real): nat {
    if s == [] then 0 else (if s[0] <= v then 1 else 0) + CountLe(s[1..], v)
  }

  function CountLt(s: seq<real>, v: real): nat {
    if s == [] then 0 else (if s[0] < v then 1 else 0) + CountLt(s[1..], v)
  }

  lemma {:induction false} CountLeOfPrefix(s: seq<real>, k: nat, v: real)
    requires k <= |s| && forall i :: 0 <= i < k ==> s[i] <= v
    ensures CountLe(s, v) >= k
  {
    if k > 0 {
      CountLeOfPrefix(s[1..], k - 1, v);
    }
  }

  lemma {:induction false} CountLtOfSuffix(s: seq<real>, k: nat, v: real)
    requires k <= |s| && forall i :: k <= i < |s| ==> v <= s[i]
    ensures CountLt(s, v) <= k
  {
    if s == [] {
    } else if k == 0 {
      CountLtOfSuffix(s[1..], 0, v);
    } else {
      CountLtOfSuffix(s[1..], k - 1, v);
    }
  }

  ghost predicate Ascending(s: seq<real>) {
    forall i, j :: 0 <= i <= j < |s| ==> s[i] <= s[j]
  }

  lemma SortAscends(sample: seq<real>)
    ensures |Sort(RealLe(), sample)| == |sample| && Ascending(Sort(RealLe(), sample))
  {
    var s := Sort(RealLe(), sample);
    SortPermutes(RealLe(), sample);
    SortSorts(RealLe(), sample);
    forall i, j | 0 <= i < j < |s| ensures s[i] <= s[j] { assert RealLe()(s[i], s[j]); }
  }

  /** What a nearest-rank percentile is: at least ceil(p*n) values lie at or below it and, for a
      positive percentile, fewer than ceil(p*n) lie strictly below. */
  lemma AscendingSplits(s: seq<real>, p: Percentile)
    requires p.Valid() && s != [] && Ascending(s)
    ensures CountLe(s, NearestRank(s, p)) >= CeilShare(p, |s|)
    ensures p.num > 0 ==> CountLt(s, NearestRank(s, p)) < CeilShare(p, |s|)
  {
    RankInBounds(p, |s|);
    var r := Max(1, CeilShare(p, |s|));
    var q := s[r - 1];
    CountLeOfPrefix(s, r, q);
    CountLtOfSuffix(s, r - 1, q);
    if p.num > 0 {
      CeilIsLeast(p, |s|, 0);
      Positive(p.num, |s|);
    }
  }

  lemma Positive(a: nat, b: nat)
    requires a > 0 && b > 0
    ensures a * b > 0
  {}

  lemma {:induction false} CountOfSortedIsCountOfSample(le: (real, real) -> bool, s: seq<real>, v: real)
    ensures CountLe(Sort(le, s), v) == CountLe(s, v) && CountLt(Sort(le, s), v) == CountLt(s, v)
  {
    if s != [] {
      CountOfSortedIsCountOfSample(le, s[1..], v);
      CountOfInsert(le, s[0], Sort(le, s[1..]), v);
    }
  }

  lemma {:induction false} CountOfInsert(le: (real, real) -> bool, x: real, s: seq<real>, v: real)
    ensures CountLe(Insert(le, x, s), v) == (if x <= v then 1 else 0) + CountLe(s, v)
    ensures CountLt(Insert(le, x, s), v) == (if x < v then 1 else 0) + CountLt(s, v)
  {
    if s != [] && !le(x, s[0]) {
      CountOfInsert(le, x, s[1..], v);
    }
  }

  /** The percentile of a sample in arrival order. */
  function PercentileOf(sample: seq<real>, p: Percentile): real
    requires p.Valid() && sample != []
  {
    SortPermutes(RealLe(), sample);
    NearestRank(Sort(RealLe(), sample), p)
  }

  /** The same split, stated on the sample as it arrived; the percentile is one of its values. */
  lemma PercentileSplitsSample(sample: seq<real>, p: Percentile)
    requires p.Valid() && sample != []
    ensures PercentileOf(sample, p) in sample
    ensures CountLe(sample, PercentileOf(sample, p)) >= CeilShare(p, |sample|)
    ensures p.num > 0 ==> CountLt(sample, PercentileOf(sample, p)) < CeilShare(p, |sample|)
  {
    SortAscends(sample);
    var s := Sort(RealLe(), sample);
    var q := PercentileOf(sample, p);
    hide Sort, CeilShare;
    AscendingSplits(s, p);
    RankInBounds(p, |s|);
    assert q == NearestRank(s, p) && q in s;
    SortMembers(RealLe(), sample, q);
    CountOfSortedIsCountOfSample(RealLe(), sample, q);
  }

  /** Both implementations in the repository pick the same element. */
  lemma ImplementationsAgree(ordered: seq<real>, p: Percentile)
    requires p.Valid() && ordered != []
    ensures NearestRank(ordered, p) == NearestRankByIndex(ordered, p)
  {
    RankInBounds(p, |ordered|);
  }

  lemma CeilMonotone(p: Percentile, q: Percentile, n: nat)
    requires p.Valid() && q.Valid() && p.num * q.den <= q.num * p.den
    ensures CeilShare(p, n) <= CeilShare(q, n)
  {
    var c := CeilShare(q, n);
    CeilIsLeast(q, n, c);
    CeilIsLeast(p, n, c);
    assert q.num * n <= c * q.den;
    CrossMultiply(p.num, p.den, q.num, q.den, n, c);
  }

  lemma CrossMultiply(a: nat, b: nat, c: nat, d: nat, n: nat, k: nat)
    requires 0 < d && a * d <= c * b && c * n <= k * d
    ensures a * n <= k * b
  {
    MulLe(a * d, c * b, n);
    MulLe(c * n, k * d, b);
    Shuffle(a, d, n);
    Shuffle(c, b, n);
    Shuffle(k, d, b);
    Cancel(a * n, k * b, d);
  }

  lemma Shuffle(x: nat, y: nat, z: nat)
    ensures (x * y) * z == (x * z) * y
  {}

  lemma Cancel(x: nat, y: nat, d: nat)
    requires 0 < d && x * d <= y * d
    ensures x <= y
  {
    if y + 1 <= x { MulLe(y + 1, x, d); }
  }

  /** Percentiles of one sample are monotone in the percentile. */
  lemma PercentilesMonotone(ordered: seq<real>, p: Percentile, q: Percentile)
    requires p.Valid() && q.Valid() && p.num * q.den <= q.num * p.den
    requires ordered != [] && Ascending(ordered)
    ensures ordered[0] <= NearestRank(ordered, p) <= NearestRank(ordered, q) <= ordered[|ordered| - 1]
  {
    var n := |ordered|;
    CeilMonotone(p, q, n);
    RankInBounds(p, n);
    RankInBounds(q, n);
  }

  // ---------------------------------------------------------------- the published summary

  datatype Distribution = Distribution(
    count: int, mean: real, minimum: real, p50: real, p95: real, p99: real, maximum: real)

  function Sum(s: seq<real>): real {
    if s == [] then 0.0 else s[0] + Sum(s[1..])
  }

  /** Summary of a latency sample; an empty sample is an error. */
  function Summarize(values: seq<real>): (r: Result<Distribution>)
    ensures r.Ok? <==> values != []
    ensures r.Ok? ==> r.value.count == |values|
  {
    if values == [] then Err("cannot summarize an empty distribution")
    else
      var ordered := Sort(RealLe(), values);
      SortPermutes(RealLe(), values);
      Ok(Distribution(
           |ordered|, Sum(ordered) / |ordered| as real, ordered[0],
           NearestRank(ordered, P50), NearestRank(ordered, P95), NearestRank(ordered, P99),
           ordered[|ordered| - 1]))
  }

  /** The summary is ordered, its extremes bound every value, and its mean lies between them. */
  lemma SummaryIsOrdered(values: seq<real>)
    requires values != []
    ensures var d := Summarize(values).value;
      && d.minimum <= d.p50 <= d.p95 <= d.p99 <= d.maximum
      && d.minimum in values && d.maximum in values
      && (forall v :: v in values ==> d.minimum <= v <= d.maximum)
      && d.minimum <= d.mean <= d.maximum
  {
    var ordered := Sort(RealLe(), values);
    SortAscends(values);
    PercentilesMonotone(ordered, P50, P95);
    PercentilesMonotone(ordered, P95, P99);
    SortMembers(RealLe(), values, ordered[0]);
    SortMembers(RealLe(), values, ordered[|ordered| - 1]);
    forall v | v in values ensures ordered[0] <= v <= ordered[|ordered| - 1] {
      SortMembers(RealLe(), values, v);
    }
    MeanOfAscending(ordered);
  }

  lemma {:induction false} SumOfInsert(le: (real, real) -> bool, x: real, s: seq<real>)
    ensures Sum(Insert(le, x, s)) == x + Sum(s)
  {
    if s != [] && !le(x, s[0]) { SumOfInsert(le, x, s[1..]); }
  }

  lemma {:induction false} SumOfSort(le: (real, real) -> bool, s: seq<real>)
    ensures Sum(Sort(le, s)) == Sum(s)
  {
    if s != [] {
      SumOfSort(le, s[1..]);
      SumOfInsert(le, s[0], Sort(le, s[1..]));
    }
  }

  /** At least `p` percent of the values are at or below the percentile, and fewer are strictly below it. */
  lemma PercentSplits(values: seq<real>, p: Percentile)
    requires values != [] && p.den == 100 && 0 < p.num <= 100
    ensures 100 * CountLe(values, PercentileOf(values, p)) >= p.num * |values|
    ensures 100 * CountLt(values, PercentileOf(values, p)) < p.num * |values|
  {
    PercentileSplitsSample(values, p);
    CeilIsLeast(p, |values|, CountLe(values, PercentileOf(values, p)));
    CeilIsLeast(p, |values|, CountLt(values, PercentileOf(values, p)));
  }

  /** What the summary publishes: the 50th, 95th and 99th percentile of the sample and its mean. */
  lemma SummaryIsExact(values: seq<real>)
    requires values != []
    ensures var d := Summarize(values).value;
      && d.count == |values| && d.mean * |values| as real == Sum(values)
      && 100 * CountLe(values, d.p50) >= 50 * |values| && 100 * CountLt(values, d.p50) < 50 * |values|
      && 100 * CountLe(values, d.p95) >= 95 * |values| && 100 * CountLt(values, d.p95) < 95 * |values|
      && 100 * CountLe(values, d.p99) >= 99 * |values| && 100 * CountLt(values, d.p99) < 99 * |values|
  {
    SummaryFields(values);
    PercentSplits(values, P50);
    PercentSplits(values, P95);
    PercentSplits(values, P99);
    hide Summarize, PercentileOf, CountLe, CountLt, Sum;
  }

  lemma SummaryFields(values: seq<real>)
    requires values != []
    ensures var d := Summarize(values).value;
      && d.count == |values| && d.mean * |values| as real == Sum(values)
      && d.p50 == PercentileOf(values, P50) && d.p95 == PercentileOf(values, P95) && d.p99 == PercentileOf(values, P99)
  {
    SortPermutes(RealLe(), values);
    SumOfSort(RealLe(), values);
    hide Sort, NearestRank, Sum;
    MeanTimesCount(Sum(values), |values|);
  }

  lemma MeanTimesCount(total: real, n: nat)
    requires n > 0
    ensures total / n as real * n as real == total
  {}

  lemma MeanOfAscending(s: seq<real>)
    requires s != [] && Ascending(s)
    ensures s[0] <= Sum(s) / |s| as real <= s[|s| - 1]
  {
    SumBounds(s, s[0], s[|s| - 1]);
    Between(s[0], Sum(s), s[|s| - 1], |s| as real);
  }

  lemma {:induction false} SumBounds(s: seq<real>, lo: real, hi: real)
    requires forall i :: 0 <= i < |s| ==> lo <= s[i] <= hi
    ensures lo * |s| as real <= Sum(s) <= hi * |s| as real
  {
    if s != [] {
      SumBounds(s[1..], lo, hi);
      assert |s[1..]| as real == |s| as real - 1.0;
    }
  }

  lemma Between(lo: real, total: real, hi: real, n: real)
    requires n > 0.0 && lo * n <= total <= hi * n
    ensures lo <= total / n <= hi
  {
    var m := total / n;
    assert m * n == total;
    CancelReal(lo, m, n);
    CancelReal(m, hi, n);
  }

  lemma CancelReal(x: real, y: real, n: real)
    requires n > 0.0 && x * n <= y * n
    ensures x <= y
  {
    assert (y - x) * n >= 0.0;
  }

  /** The summary depends on the multiset of values only. */
  lemma SummaryIgnoresOrder(a: seq<real>, b: seq<real>)
    requires multiset(a) == multiset(b)
    ensures Summarize(a) == Summarize(b)
  {
    assert |a| == |multiset(a)| == |multiset(b)| == |b|;
    SortIgnoresOrder(RealLe(), a, b);
  }
}
