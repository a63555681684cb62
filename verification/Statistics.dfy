/** The latency figures: what the accumulating loop, the rounding and the sort compute. */
module Statistics {
  import opened Sequences

  /** Minimum, maximum, rounded mean, 95th percentile and last of the latencies, in microseconds, and their number. */
  datatype LatencyData = LatencyData(min: int, max: int, mean: int, p95: int, last: int, iterationCount: nat)

  /** The running minimum starts at zero, and a zero gives way to whatever comes next. */
  function RunningMin(ls: seq<int>): int {
    if ls == [] then 0
    else
      var min, l := RunningMin(ls[..|ls| - 1]), ls[|ls| - 1];
      if l < min || min == 0 then l else min
  }

  function RunningMax(ls: seq<int>): int {
    if ls == [] then 0
    else
      var max, l := RunningMax(ls[..|ls| - 1]), ls[|ls| - 1];
      if l > max then l else max
  }

  /** To the nearest integer, halves away from zero. */
  function Round(x: real): int {
    if x >= 0.0 then (x + 0.5).Floor else -(-x + 0.5).Floor
  }

  function Insert(sorted: seq<int>, l: int): seq<int> {
    if sorted == [] || l <= sorted[0] then [l] + sorted else [sorted[0]] + Insert(sorted[1..], l)
  }

  /** The library's sort. */
  function Sorted(ls: seq<int>): seq<int> {
    if ls == [] then [] else Insert(Sorted(ls[..|ls| - 1]), ls[|ls| - 1])
  }

  function Rank95(n: nat): nat {
    n * 95 / 100
  }

  function P95(ls: seq<int>): int {
    var i := Rank95(|ls|);
    if i < |ls| && i > 0 && |Sorted(ls)| == |ls| then Sorted(ls)[i - 1] else 0
  }

  function DataOf(ls: seq<int>): LatencyData
    requires ls != []
  {
    LatencyData(RunningMin(ls), RunningMax(ls), Round(Sum(ls) as real / |ls| as real), P95(ls), ls[|ls| - 1], |ls|)
  }

  ghost predicate IsMinimum(m: int, ls: seq<int>) {
    m in ls && forall i :: 0 <= i < |ls| ==> m <= ls[i]
  }

  ghost predicate IsMaximum(m: int, ls: seq<int>) {
    m in ls && forall i :: 0 <= i < |ls| ==> ls[i] <= m
  }

  lemma {:induction false} RunningMinOfPositive(ls: seq<int>)
    requires ls != [] && forall i :: 0 <= i < |ls| ==> 0 < ls[i]
    ensures IsMinimum(RunningMin(ls), ls)
  {
    var init, l := ls[..|ls| - 1], ls[|ls| - 1];
    assert ls == init + [l];
    if init != [] {
      RunningMinOfPositive(init);
    }
  }

  lemma {:induction false} RunningMinNonNegative(ls: seq<int>)
    requires forall i :: 0 <= i < |ls| ==> 0 <= ls[i]
    ensures 0 <= RunningMin(ls)
    ensures ls != [] ==> RunningMin(ls) in ls && (RunningMin(ls) == 0 <==> ls[|ls| - 1] == 0)
  {
    if ls != [] {
      var init, l := ls[..|ls| - 1], ls[|ls| - 1];
      RunningMinNonNegative(init);
      var min := RunningMin(init);
      assert RunningMin(ls) == if l < min || min == 0 then l else min;
      if RunningMin(ls) != l {
        assert init != [];
        assert min in init;
        assert min in init + [l] && ls == init + [l];
      }
    }
  }

  /** Latencies below a microsecond count as zero, and then the reported minimum may be too high: of latencies that are
      not negative it is the true minimum exactly if none is zero or the last one visited is. */
  lemma RunningMinExact(ls: seq<int>)
    requires ls != [] && forall i :: 0 <= i < |ls| ==> 0 <= ls[i]
    ensures IsMinimum(RunningMin(ls), ls) <==> 0 !in ls || ls[|ls| - 1] == 0
  {
    RunningMinNonNegative(ls);
    if 0 !in ls {
      RunningMinOfPositive(ls);
    }
  }

  /** A zero that is visited first is forgotten. */
  lemma MinimumMissed()
    ensures RunningMin([0, 7]) == 7 && !IsMinimum(RunningMin([0, 7]), [0, 7])
  {
    assert [0, 7][..1] == [0] && [0][..0] == [];
    assert RunningMin([0]) == 0;
    assert 0 in [0, 7];
  }

  lemma {:induction false} RunningMaxExact(ls: seq<int>)
    ensures 0 <= RunningMax(ls) && (RunningMax(ls) == 0 || RunningMax(ls) in ls)
    ensures forall i :: 0 <= i < |ls| ==> ls[i] <= RunningMax(ls)
  {
    if ls != [] {
      var init, l := ls[..|ls| - 1], ls[|ls| - 1];
      assert ls == init + [l];
      RunningMaxExact(init);
    }
  }

  lemma OneMore(x: int, n: int)
    ensures x * (n + 1) == x * n + x
  {
  }

  lemma {:induction false} SumBounds(ls: seq<int>, lo: int, hi: int)
    requires forall i :: 0 <= i < |ls| ==> lo <= ls[i] <= hi
    ensures lo * |ls| <= Sum(ls) <= hi * |ls|
  {
    if ls != [] {
      var n := |ls| - 1;
      SumBounds(ls[..n], lo, hi);
      assert Sum(ls) == Sum(ls[..n]) + ls[n];
      OneMore(lo, n);
      OneMore(hi, n);
    }
  }

  /** A quotient between two integers rounds to something between them. */
  lemma RoundBetween(x: real, lo: int, hi: int)
    requires lo as real <= x <= hi as real
    ensures lo <= Round(x) <= hi
  {
  }

  lemma Positive(a: real, m: real)
    requires a > 0.0 && m > 0.0
    ensures a * m > 0.0
  {
  }

  lemma Cancel(a: real, b: real, m: real)
    requires m > 0.0 && a * m <= b * m
    ensures a <= b
  {
    if a > b {
      Positive(a - b, m);
    }
  }

  lemma QuotientBetween(sum: int, n: nat, lo: int, hi: int)
    requires n > 0 && lo * n <= sum <= hi * n
    ensures lo as real <= sum as real / n as real <= hi as real
  {
    var q, m := sum as real / n as real, n as real;
    assert q * m == sum as real;
    assert (lo * n) as real == lo as real * m && (hi * n) as real == hi as real * m;
    Cancel(lo as real, q, m);
    Cancel(q, hi as real, m);
  }

  ghost predicate Ascending(s: seq<int>) {
    forall i, j :: 0 <= i <= j < |s| ==> s[i] <= s[j]
  }

  lemma {:induction false} InsertPermutes(s: seq<int>, l: int)
    ensures multiset(Insert(s, l)) == multiset(s) + multiset{l}
  {
    if s != [] && l > s[0] {
      InsertPermutes(s[1..], l);
      assert s == [s[0]] + s[1..];
    }
  }

  lemma InsertAbove(s: seq<int>, l: int, lo: int)
    requires (forall i :: 0 <= i < |s| ==> lo <= s[i]) && lo <= l
    ensures forall i :: 0 <= i < |Insert(s, l)| ==> lo <= Insert(s, l)[i]
  {
    var t := Insert(s, l);
    InsertPermutes(s, l);
    forall i | 0 <= i < |t| ensures lo <= t[i] {
      assert t[i] in multiset(t);
      assert t[i] == l || t[i] in s;
    }
  }

  lemma {:induction false} InsertAscends(s: seq<int>, l: int)
    requires Ascending(s)
    ensures Ascending(Insert(s, l))
  {
    if s != [] && l > s[0] {
      InsertAscends(s[1..], l);
      InsertAbove(s[1..], l, s[0]);
    }
  }

  /** Sorting gives the ascending rearrangement. */
  lemma {:induction false} SortedAscends(ls: seq<int>)
    ensures Ascending(Sorted(ls)) && multiset(Sorted(ls)) == multiset(ls) && |Sorted(ls)| == |ls|
  {
    if ls != [] {
      var init, l := ls[..|ls| - 1], ls[|ls| - 1];
      assert ls == init + [l];
      SortedAscends(init);
      InsertAscends(Sorted(init), l);
      InsertPermutes(Sorted(init), l);
      assert |multiset(Sorted(ls))| == |Sorted(ls)| && |multiset(ls)| == |ls|;
    }
  }

  /** How many latencies are at most `x`. */
  function AtMost(ls: seq<int>, x: int): nat {
    if ls == [] then 0 else AtMost(ls[..|ls| - 1], x) + if ls[|ls| - 1] <= x then 1 else 0
  }

  lemma {:induction false} AtMostConcat(a: seq<int>, b: seq<int>, x: int)
    ensures AtMost(a + b, x) == AtMost(a, x) + AtMost(b, x)
  {
    if b == [] {
      assert a + b == a;
    } else {
      assert (a + b)[..|a + b| - 1] == a + b[..|b| - 1];
      AtMostConcat(a, b[..|b| - 1], x);
    }
  }

  lemma {:induction false} AtMostInsert(s: seq<int>, l: int, x: int)
    ensures AtMost(Insert(s, l), x) == AtMost(s + [l], x)
  {
    AtMostConcat(s, [l], x);
    if s == [] || l <= s[0] {
      AtMostConcat([l], s, x);
    } else {
      AtMostInsert(s[1..], l, x);
      AtMostConcat(s[1..], [l], x);
      AtMostConcat([s[0]], Insert(s[1..], l), x);
      AtMostConcat([s[0]], s[1..], x);
      assert s == [s[0]] + s[1..];
    }
  }

  lemma {:induction false} AtMostSorted(ls: seq<int>, x: int)
    ensures AtMost(Sorted(ls), x) == AtMost(ls, x)
  {
    if ls != [] {
      var init, l := ls[..|ls| - 1], ls[|ls| - 1];
      assert ls == init + [l];
      AtMostSorted(init, x);
      AtMostInsert(Sorted(init), l, x);
      AtMostConcat(Sorted(init), [l], x);
      AtMostConcat(init, [l], x);
    }
  }

  lemma {:induction false} AtMostAll(ls: seq<int>, x: int)
    requires forall i :: 0 <= i < |ls| ==> ls[i] <= x
    ensures AtMost(ls, x) == |ls|
  {
    if ls != [] {
      assert ls == ls[..|ls| - 1] + [ls[|ls| - 1]];
      AtMostAll(ls[..|ls| - 1], x);
    }
  }

  lemma {:induction false} AtMostNone(ls: seq<int>, x: int)
    requires forall i :: 0 <= i < |ls| ==> x < ls[i]
    ensures AtMost(ls, x) == 0
  {
    if ls != [] {
      assert ls == ls[..|ls| - 1] + [ls[|ls| - 1]];
      AtMostNone(ls[..|ls| - 1], x);
    }
  }

  lemma RankAtLeast(s: seq<int>, i: nat)
    requires Ascending(s) && i < |s|
    ensures i < AtMost(s, s[i])
  {
    hide AtMost;
    assert s == s[..i + 1] + s[i + 1..];
    AtMostConcat(s[..i + 1], s[i + 1..], s[i]);
    AtMostAll(s[..i + 1], s[i]);
  }

  lemma RankAtMost(s: seq<int>, i: nat, y: int)
    requires Ascending(s) && i < |s| && y < s[i]
    ensures AtMost(s, y) <= i
  {
    hide AtMost;
    assert s == s[..i] + s[i..];
    AtMostConcat(s[..i], s[i..], y);
    AtMostNone(s[i..], y);
    AtMostBound(s[..i], y);
  }

  lemma {:induction false} AtMostBound(ls: seq<int>, x: int)
    ensures AtMost(ls, x) <= |ls|
  {
    if ls != [] {
      AtMostBound(ls[..|ls| - 1], x);
    }
  }

  lemma RankInRange(n: nat)
    requires 2 <= n
    ensures 0 < Rank95(n) < n
  {
  }

  /** The rank is nineteen twentieths of the number of latencies, rounded down. */
  lemma RankIff(n: nat, k: nat)
    ensures Rank95(n) <= k <==> 95 * n < 100 * (k + 1)
  {
  }

  /** The 95th percentile is a latency with at least the required number of latencies at or below it; every smaller
      number has fewer. A single latency has none. */
  lemma P95Exact(ls: seq<int>)
    ensures |ls| <= 1 ==> P95(ls) == 0
    ensures 2 <= |ls| ==> P95(ls) in ls && 95 * |ls| < 100 * (AtMost(ls, P95(ls)) + 1)
    ensures 2 <= |ls| ==> forall y :: y < P95(ls) ==> 100 * (AtMost(ls, y) + 1) <= 95 * |ls|
  {
    if 2 <= |ls| {
      var s, i := Sorted(ls), Rank95(|ls|);
      RankInRange(|ls|);
      SortedAscends(ls);
      assert s[i - 1] in multiset(s);
      AtMostSorted(ls, P95(ls));
      RankAtLeast(s, i - 1);
      RankIff(|ls|, AtMost(ls, P95(ls)));
      forall y | y < P95(ls) ensures 100 * (AtMost(ls, y) + 1) <= 95 * |ls| {
        RankAtMost(s, i - 1, y);
        AtMostSorted(ls, y);
        RankIff(|ls|, AtMost(ls, y));
      }
    }
  }

  /** Rounding goes to the nearest integer, and away from zero from the middle between two. */
  lemma RoundIff(x: real, m: int)
    ensures x >= 0.0 ==> (Round(x) == m <==> m as real - 0.5 <= x < m as real + 0.5)
    ensures x < 0.0 ==> (Round(x) == m <==> m as real - 0.5 < x <= m as real + 0.5)
  {
  }

  /** The rounded mean, times the number of latencies, is half of that number away from their sum at most. */
  lemma MeanExact(sum: nat, n: nat)
    requires n > 0
    ensures var mean := Round(sum as real / n as real); 2 * (mean * n) <= 2 * sum + n && 2 * sum < 2 * (mean * n) + n
  {
    hide Round, Product;
    var x := sum as real / n as real;
    Cancelled(sum, n, x);
    RoundIff(x, Round(x));
    MeanNear(sum, n, x, Round(x));
  }

  function Product(a: real, m: real): real {
    a * m
  }

  lemma MeanNear(sum: nat, n: nat, x: real, mean: int)
    requires n > 0 && Product(x, n as real) == sum as real && mean as real - 0.5 <= x < mean as real + 0.5
    ensures 2 * (mean * n) <= 2 * sum + n && 2 * sum < 2 * (mean * n) + n
  {
    hide Product;
    var m, a, p := n as real, mean as real, mean * n;
    Spread(a, x, m);
    ProductOf(mean, n);
    InHalves(p, sum, n);
  }

  lemma Spread(a: real, x: real, m: real)
    requires m > 0.0 && a - 0.5 <= x < a + 0.5
    ensures Product(a, m) - 0.5 * m <= Product(x, m) < Product(a, m) + 0.5 * m
  {
    hide Product;
    Times(a - 0.5, x, m);
    TimesStrictly(x, a + 0.5, m);
    Halves(a, m);
  }

  lemma ProductOf(a: int, b: int)
    ensures (a * b) as real == Product(a as real, b as real)
  {
  }

  lemma Halves(a: real, m: real)
    ensures Product(a - 0.5, m) == Product(a, m) - 0.5 * m && Product(a + 0.5, m) == Product(a, m) + 0.5 * m
  {
  }

  lemma InHalves(p: int, sum: int, n: int)
    requires p as real - 0.5 * n as real <= sum as real < p as real + 0.5 * n as real
    ensures 2 * p <= 2 * sum + n && 2 * sum < 2 * p + n
  {
    assert (2 * p) as real <= (2 * sum + n) as real && (2 * sum) as real < (2 * p + n) as real;
  }

  lemma Cancelled(sum: nat, n: nat, x: real)
    requires n > 0 && x == sum as real / n as real
    ensures x >= 0.0 && Product(x, n as real) == sum as real
  {
  }

  lemma Times(a: real, b: real, m: real)
    requires a <= b && m > 0.0
    ensures Product(a, m) <= Product(b, m)
  {
    assert (b - a) * m >= 0.0;
  }

  lemma TimesStrictly(a: real, b: real, m: real)
    requires a < b && m > 0.0
    ensures Product(a, m) < Product(b, m)
  {
    Positive(b - a, m);
  }

  /** Of at least two positive latencies, in whatever order: true extremes, the rounded mean, and the percentile. */
  lemma DataMeaning(ls: seq<int>)
    requires 2 <= |ls| && forall i :: 0 <= i < |ls| ==> 0 < ls[i]
    ensures var d, n := DataOf(ls), |ls|;
      && IsMinimum(d.min, ls) && IsMaximum(d.max, ls) && d.min <= d.mean <= d.max
      && 2 * (d.mean * n) <= 2 * Sum(ls) + n && 2 * Sum(ls) < 2 * (d.mean * n) + n
      && d.p95 in ls && 95 * n < 100 * (AtMost(ls, d.p95) + 1)
      && (forall y :: y < d.p95 ==> 100 * (AtMost(ls, y) + 1) <= 95 * n)
      && d.last == ls[n - 1] && d.iterationCount == n
  {
    hide Round, P95, Sum;
    var d := DataOf(ls);
    RunningMinOfPositive(ls);
    RunningMaxExact(ls);
    assert ls[0] in ls;
    SumBounds(ls, d.min, d.max);
    QuotientBetween(Sum(ls), |ls|, d.min, d.max);
    RoundBetween(Sum(ls) as real / |ls| as real, d.min, d.max);
    SumBounds(ls, 0, d.max);
    MeanExact(Sum(ls), |ls|);
    P95Exact(ls);
  }

  lemma MoveToEnd(b: seq<int>, k: nat, x: int)
    requires k < |b|
    ensures var rest := b[..k] + b[k + 1..];
      && multiset(b) == multiset(rest) + multiset{b[k]}
      && Sum(b) == Sum(rest) + b[k] && AtMost(b, x) == AtMost(rest, x) + if b[k] <= x then 1 else 0
  {
    var l, r := [b[k]], b[k + 1..];
    assert b == b[..k] + (l + r);
    assert l[..0] == [];
    assert Sum(l) == b[k] && AtMost(l, x) == if b[k] <= x then 1 else 0;
    SumConcat(b[..k], l + r);
    SumConcat(l, r);
    SumConcat(b[..k], r);
    AtMostConcat(b[..k], l + r, x);
    AtMostConcat(l, r, x);
    AtMostConcat(b[..k], r, x);
  }

  lemma {:induction false} Permuted(a: seq<int>, b: seq<int>, x: int)
    requires multiset(a) == multiset(b)
    ensures |a| == |b| && Sum(a) == Sum(b) && AtMost(a, x) == AtMost(b, x)
    decreases |a|
  {
    if a == [] {
      assert |multiset(b)| == 0;
    } else {
      var init, l := a[..|a| - 1], a[|a| - 1];
      assert a == init + [l];
      assert l in multiset(b);
      var k :| 0 <= k < |b| && b[k] == l;
      MoveToEnd(b, k, x);
      assert multiset(init) == multiset(a) - multiset{l};
      Permuted(init, b[..k] + b[k + 1..], x);
    }
  }

  /** The order in which the pings are visited makes no difference to the figures, the last one excepted. */
  lemma OrderIrrelevant(a: seq<int>, b: seq<int>)
    requires 2 <= |a| && multiset(a) == multiset(b) && forall i :: 0 <= i < |a| ==> 0 < a[i]
    ensures |b| == |a| && DataOf(a).(last := 0) == DataOf(b).(last := 0)
  {
    hide RunningMin, RunningMax, P95, Sum, AtMost, Sorted;
    Permuted(a, b, 0);
    forall l ensures l in a <==> l in b {
      assert l in multiset(a) <==> l in multiset(b);
    }
    forall i | 0 <= i < |b| ensures 0 < b[i] {
      assert b[i] in b;
    }
    DataMeaning(a);
    DataMeaning(b);
    Permuted(a, b, P95(a));
    Permuted(a, b, P95(b));
  }
}
