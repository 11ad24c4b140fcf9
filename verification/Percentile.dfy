/** The linear-interpolation ("R-7") percentile of latency samples, over the reals. */
module Percentile {
  import opened Sorting
  import opened Regression

  predicate RealLeq(a: real, b: real) { a <= b }

  lemma RealsAreOrdered()
    ensures TotalOrder(RealLeq)
  {
  }

  ghost predicate Rising(s: seq<real>) {
    forall i, j :: 0 <= i < j < |s| ==> s[i] <= s[j]
  }

  function Ordered(s: seq<real>): (r: seq<real>)
    ensures |r| == |s|
  {
    Sort(s, RealLeq)
  }

  lemma OrderedIsRising(s: seq<real>)
    ensures Rising(Ordered(s)) && multiset(Ordered(s)) == multiset(s)
  {
    RealsAreOrdered();
    SortSorts(s, RealLeq);
    assert Sorted(Ordered(s), RealLeq);
    assert forall i, j :: 0 <= i < j < |s| ==> RealLeq(Ordered(s)[i], Ordered(s)[j]);
  }

  // ----- the percentile -----

  /** The value at a rank: an order statistic, or a point between two neighbouring ones. */
  function AtRank(o: seq<real>, rank: real): real
    requires o != [] && 0.0 <= rank <= (|o| - 1) as real
  {
    var lo := rank.Floor;
    if lo as real == rank then o[lo]
    else
      Mix(o[lo], o[lo + 1], rank - lo as real)
  }

  function Mix(x: real, y: real, f: real): real { x * (1.0 - f) + y * f }

  function Rank(n: nat, pct: real): (r: real)
    requires n > 0 && 0.0 <= pct <= 100.0
    ensures 0.0 <= r <= (n - 1) as real
  {
    RankBound((n - 1) as real, pct / 100.0, Share((n - 1) as real, pct));
    Share((n - 1) as real, pct)
  }

  function Share(m: real, pct: real): real { m * (pct / 100.0) }

  lemma RankBound(m: real, f: real, p: real)
    requires 0.0 <= m && 0.0 <= f <= 1.0 && p == m * f
    ensures 0.0 <= p <= m
  {
    Product(m, f);
    Product(m, 1.0 - f);
    assert m * (1.0 - f) == m - m * f;
  }

  function PercentileOf(samples: seq<real>, pct: real): real
    requires 0.0 <= pct <= 100.0
  {
    if samples == [] then 0.0
    else
      var ordered := Ordered(samples);
      if |ordered| == 1 then ordered[0] else AtRank(ordered, Rank(|ordered|, pct))
  }

  // ----- its laws -----

  /** The order of the samples is irrelevant. */
  lemma OrderIsIrrelevant(a: seq<real>, b: seq<real>, pct: real)
    requires 0.0 <= pct <= 100.0 && multiset(a) == multiset(b)
    ensures PercentileOf(a, pct) == PercentileOf(b, pct)
  {
    RealsAreOrdered();
    SortSorts(a, RealLeq);
    SortSorts(b, RealLeq);
    SortedIsUnique(Ordered(a), Ordered(b), RealLeq);
    assert |multiset(a)| == |a| && |multiset(b)| == |b|;
  }

  lemma Between(x: real, y: real, f: real)
    requires x <= y && 0.0 <= f <= 1.0
    ensures x <= Mix(x, y, f) <= y
  {
    assert x * (1.0 - f) + y * f == x + (y - x) * f;
    RankBound(y - x, f, (y - x) * f);
  }

  lemma AtRankBetween(o: seq<real>, rank: real)
    requires Rising(o) && o != [] && 0.0 <= rank <= (|o| - 1) as real
    ensures o[rank.Floor] <= AtRank(o, rank)
    ensures rank.Floor + 1 < |o| ==> AtRank(o, rank) <= o[rank.Floor + 1]
    ensures AtRank(o, rank) <= o[|o|-1]
  {
    var lo := rank.Floor;
    if lo as real != rank {
      Between(o[lo], o[lo + 1], rank - lo as real);
    }
  }

  lemma Steeper(x: real, y: real, f: real, g: real)
    requires x <= y && f <= g
    ensures Mix(x, y, f) <= Mix(x, y, g)
  {
    assert x * (1.0 - g) + y * g - (x * (1.0 - f) + y * f) == (y - x) * (g - f);
    Product(y - x, g - f);
  }

  lemma Product(a: real, b: real)
    requires 0.0 <= a && 0.0 <= b
    ensures 0.0 <= a * b
  {
  }

  /** A higher rank never has a lower value, within one step and across steps. */
  lemma AtRankMonotone(o: seq<real>, r: real, q: real)
    requires Rising(o) && o != [] && 0.0 <= r <= q <= (|o| - 1) as real
    ensures AtRank(o, r) <= AtRank(o, q)
  {
    AtRankBetween(o, r);
    AtRankBetween(o, q);
    var lo := r.Floor;
    if lo < q.Floor {
      assert o[lo + 1] <= o[q.Floor];
    } else if r < q {
      var x, y, f, g := o[lo], o[lo + 1], r - lo as real, q - lo as real;
      Steeper(x, y, f, g);
      assert AtRank(o, q) == Mix(x, y, g);
      if lo as real == r { Between(x, y, g); } else { assert AtRank(o, r) == Mix(x, y, f); }
    }
  }

  lemma RankMonotone(m: real, p: real, q: real)
    requires 0.0 <= m && p <= q
    ensures Share(m, p) <= Share(m, q)
  {
    assert m * (q / 100.0) - m * (p / 100.0) == m * ((q - p) / 100.0);
    Product(m, (q - p) / 100.0);
  }

  lemma MonotoneInPercentage(samples: seq<real>, p: real, q: real)
    requires 0.0 <= p <= q <= 100.0
    ensures PercentileOf(samples, p) <= PercentileOf(samples, q)
  {
    OrderedIsRising(samples);
    if |samples| > 1 {
      RankMonotone((|samples| - 1) as real, p, q);
      AtRankMonotone(Ordered(samples), Rank(|samples|, p), Rank(|samples|, q));
    }
  }

  lemma OrderedKeeps(samples: seq<real>, x: real)
    ensures x in Ordered(samples) <==> x in samples
  {
    RealsAreOrdered();
    SortKeeps(samples, RealLeq, x);
  }

  /** The percentile lies between any lower and any upper bound of the samples. */
  lemma WithinBounds(samples: seq<real>, pct: real, lo: real, hi: real)
    requires samples != [] && 0.0 <= pct <= 100.0
    requires forall i :: 0 <= i < |samples| ==> lo <= samples[i] <= hi
    ensures lo <= PercentileOf(samples, pct) <= hi
  {
    var o := Ordered(samples);
    OrderedIsRising(samples);
    forall i | 0 <= i < |o| ensures lo <= o[i] <= hi {
      assert o[i] in o;
      OrderedKeeps(samples, o[i]);
    }
    if |o| > 1 { AtRankBetween(o, Rank(|o|, pct)); }
  }

  // ----- larger samples, larger percentile -----

  ghost predicate Below(a: seq<real>, b: seq<real>) {
    |a| == |b| && forall i :: 0 <= i < |a| ==> a[i] <= b[i]
  }

  /** Putting a value in front that is below everything stays below the insertion of a larger one. */
  lemma {:induction false} InsertDominates(x: real, s: seq<real>, y: real, t: seq<real>)
    requires x <= y && Below(s, t) && Rising(s) && (s == [] || x <= s[0])
    ensures Below([x] + s, Insert(y, t, RealLeq))
    decreases |s|
  {
    if t != [] && t[0] < y {
      assert Below(s[1..], t[1..]) && Rising(s[1..]) && s[0] <= t[0];
      InsertDominates(s[0], s[1..], y, t[1..]);
      assert s == [s[0]] + s[1..];
      ConsBelow(x, s, t[0], Insert(y, t[1..], RealLeq));
    } else {
      ConsBelow(x, s, y, t);
    }
  }

  lemma ConsBelow(x: real, s: seq<real>, y: real, t: seq<real>)
    requires x <= y && Below(s, t)
    ensures Below([x] + s, [y] + t)
  {
  }

  /** Inserting a value into a list stays below a larger value put in front of a larger list. */
  lemma {:induction false} InsertBelow(x: real, s: seq<real>, y: real, t: seq<real>)
    requires x <= y && Below(s, t) && Rising(t) && (t == [] || y <= t[0])
    ensures Below(Insert(x, s, RealLeq), [y] + t)
    decreases |s|
  {
    if s != [] && s[0] < x {
      assert Below(s[1..], t[1..]) && Rising(t[1..]);
      InsertBelow(x, s[1..], t[0], t[1..]);
      assert t == [t[0]] + t[1..];
      ConsBelow(s[0], Insert(x, s[1..], RealLeq), y, t);
    } else {
      ConsBelow(x, s, y, t);
    }
  }

  lemma {:induction false} InsertMonotone(x: real, s: seq<real>, y: real, t: seq<real>)
    requires x <= y && Below(s, t) && Rising(s) && Rising(t)
    ensures Below(Insert(x, s, RealLeq), Insert(y, t, RealLeq))
    decreases |s|
  {
    if s == [] || x <= s[0] {
      InsertDominates(x, s, y, t);
    } else if y <= t[0] {
      InsertBelow(x, s, y, t);
    } else {
      InsertMonotone(x, s[1..], y, t[1..]);
    }
  }

  lemma {:induction false} SortMonotone(a: seq<real>, b: seq<real>)
    requires Below(a, b)
    ensures Below(Ordered(a), Ordered(b))
  {
    if a != [] {
      SortMonotone(a[1..], b[1..]);
      OrderedIsRising(a[1..]);
      OrderedIsRising(b[1..]);
      InsertMonotone(a[0], Ordered(a[1..]), b[0], Ordered(b[1..]));
    }
  }

  lemma Weighted(x: real, y: real, x': real, y': real, f: real)
    requires x <= x' && y <= y' && 0.0 <= f <= 1.0
    ensures Mix(x, y, f) <= Mix(x', y', f)
  {
    Product(x' - x, 1.0 - f);
    Product(y' - y, f);
    assert (x' - x) * (1.0 - f) == x' * (1.0 - f) - x * (1.0 - f);
    assert (y' - y) * f == y' * f - y * f;
  }

  /** If no sample gets smaller, no percentile does, whatever the order of the samples. */
  lemma MonotoneInSamples(a: seq<real>, b: seq<real>, pct: real)
    requires 0.0 <= pct <= 100.0 && Below(a, b)
    ensures PercentileOf(a, pct) <= PercentileOf(b, pct)
  {
    SortMonotone(a, b);
    if |a| > 1 {
      var rank := Rank(|a|, pct);
      var lo := rank.Floor;
      if lo as real != rank {
        Weighted(Ordered(a)[lo], Ordered(a)[lo + 1], Ordered(b)[lo], Ordered(b)[lo + 1], rank - lo as real);
      }
    }
  }

  // ----- order statistics -----

  function CountBelow(s: seq<real>, v: real): nat {
    if s == [] then 0 else CountBelow(s[1..], v) + (if s[0] < v then 1 else 0)
  }

  function CountUpTo(s: seq<real>, v: real): nat {
    if s == [] then 0 else CountUpTo(s[1..], v) + (if s[0] <= v then 1 else 0)
  }

  lemma {:induction false} InsertCounts(x: real, s: seq<real>, v: real)
    ensures CountBelow(Insert(x, s, RealLeq), v) == CountBelow(s, v) + (if x < v then 1 else 0)
    ensures CountUpTo(Insert(x, s, RealLeq), v) == CountUpTo(s, v) + (if x <= v then 1 else 0)
  {
    var r := Insert(x, s, RealLeq);
    if s == [] || x <= s[0] {
      assert r[1..] == s;
    } else {
      InsertCounts(x, s[1..], v);
      assert r[1..] == Insert(x, s[1..], RealLeq);
    }
  }

  lemma {:induction false} SortCounts(s: seq<real>, v: real)
    ensures CountBelow(Ordered(s), v) == CountBelow(s, v) && CountUpTo(Ordered(s), v) == CountUpTo(s, v)
  {
    if s != [] {
      SortCounts(s[1..], v);
      InsertCounts(s[0], Ordered(s[1..]), v);
    }
  }

  lemma {:induction false} NoneBelow(o: seq<real>, v: real)
    requires forall i :: 0 <= i < |o| ==> v <= o[i]
    ensures CountBelow(o, v) == 0
  {
    if o != [] { NoneBelow(o[1..], v); }
  }

  lemma {:induction false} SortedCounts(o: seq<real>, k: nat)
    requires Rising(o) && k < |o|
    ensures CountBelow(o, o[k]) <= k < CountUpTo(o, o[k])
  {
    if k == 0 {
      NoneBelow(o, o[0]);
    } else {
      SortedCounts(o[1..], k - 1);
      assert o[1..][k-1] == o[k];
    }
  }

  /** The value at position `k` of the samples in order: at most `k` are below it and more than `k` are up to it. */
  ghost predicate IsOrderStatistic(samples: seq<real>, k: nat, v: real) {
    v in samples && CountBelow(samples, v) <= k < CountUpTo(samples, v)
  }

  lemma OrderedAt(samples: seq<real>, k: nat)
    requires k < |samples|
    ensures IsOrderStatistic(samples, k, Ordered(samples)[k])
  {
    var o := Ordered(samples);
    OrderedIsRising(samples);
    SortedCounts(o, k);
    SortCounts(samples, o[k]);
    OrderedKeeps(samples, o[k]);
  }

  lemma {:induction false} UpToIsBelow(s: seq<real>, v: real, w: real)
    requires v < w
    ensures CountUpTo(s, v) <= CountBelow(s, w)
  {
    if s != [] { UpToIsBelow(s[1..], v, w); }
  }

  lemma OrderStatisticIsUnique(samples: seq<real>, k: nat, v: real, w: real)
    requires IsOrderStatistic(samples, k, v) && IsOrderStatistic(samples, k, w)
    ensures v == w
  {
    if v < w { UpToIsBelow(samples, v, w); }
    if w < v { UpToIsBelow(samples, w, v); }
  }

  /** The share of the way from the first sample to the last, counted in steps. */
  lemma RankIs(n: nat, pct: real)
    requires n > 0 && 0.0 <= pct <= 100.0
    ensures 100.0 * Rank(n, pct) == pct * (n - 1) as real
  {
    ShareIs((n - 1) as real, pct, pct / 100.0);
  }

  lemma ShareIs(m: real, pct: real, f: real)
    requires f == pct / 100.0
    ensures 100.0 * (m * f) == pct * m
  {
    assert 100.0 * f == pct;
    assert 100.0 * (m * f) == (100.0 * f) * m;
  }

  /** At a percentage that is a whole number of steps, the percentile is the sample in that position. */
  lemma WholeRankIsOrderStatistic(samples: seq<real>, pct: real, k: nat)
    requires k < |samples| && 0.0 <= pct <= 100.0 && pct * (|samples| - 1) as real == 100.0 * k as real
    ensures IsOrderStatistic(samples, k, PercentileOf(samples, pct))
  {
    RankIs(|samples|, pct);
    OrderedAt(samples, k);
    if |samples| > 1 {
      assert Rank(|samples|, pct) == k as real;
      AtWholeRank(Ordered(samples), k);
    }
  }

  lemma AtWholeRank(o: seq<real>, k: nat)
    requires k < |o|
    ensures AtRank(o, k as real) == o[k]
  {
  }

  /** The smallest sample at 0 and the largest at 100. */
  lemma EndsAreExtremes(samples: seq<real>)
    requires samples != []
    ensures PercentileOf(samples, 0.0) in samples && PercentileOf(samples, 100.0) in samples
    ensures forall x :: x in samples ==> PercentileOf(samples, 0.0) <= x <= PercentileOf(samples, 100.0)
  {
    WholeRankIsOrderStatistic(samples, 0.0, 0);
    WholeRankIsOrderStatistic(samples, 100.0, |samples| - 1);
    forall x | x in samples ensures PercentileOf(samples, 0.0) <= x <= PercentileOf(samples, 100.0) {
      CountsOf(samples, x);
      if x < PercentileOf(samples, 0.0) { UpToIsBelow(samples, x, PercentileOf(samples, 0.0)); }
      if PercentileOf(samples, 100.0) < x { UpToIsBelow(samples, PercentileOf(samples, 100.0), x); }
    }
  }

  lemma {:induction false} CountsOf(s: seq<real>, v: real)
    requires v in s
    ensures CountBelow(s, v) < |s| && 0 < CountUpTo(s, v)
    decreases s
  {
    if s[0] == v {
      CountAtMost(s[1..], v);
    } else {
      CountsOf(s[1..], v);
    }
  }

  lemma {:induction false} CountAtMost(s: seq<real>, v: real)
    ensures CountBelow(s, v) <= |s|
  {
    if s != [] { CountAtMost(s[1..], v); }
  }

  /** Between two neighbouring positions the percentile lies on the straight line through their two samples. */
  lemma BetweenRanksIsLinear(samples: seq<real>, pct: real, k: nat, x: real, y: real)
    requires k + 1 < |samples| && 0.0 <= pct <= 100.0
    requires 100.0 * k as real <= pct * (|samples| - 1) as real <= 100.0 * (k + 1) as real
    requires IsOrderStatistic(samples, k, x) && IsOrderStatistic(samples, k + 1, y)
    ensures 100.0 * (PercentileOf(samples, pct) - x) == (pct * (|samples| - 1) as real - 100.0 * k as real) * (y - x)
  {
    var o := Ordered(samples);
    OrderedAt(samples, k);
    OrderedAt(samples, k + 1);
    OrderStatisticIsUnique(samples, k, x, o[k]);
    OrderStatisticIsUnique(samples, k + 1, y, o[k + 1]);
    RankIs(|samples|, pct);
    OnTheLine(o, Rank(|samples|, pct), k, pct * (|samples| - 1) as real);
  }

  lemma OnTheLine(o: seq<real>, rank: real, k: nat, p: real)
    requires k + 1 < |o| && 0.0 <= rank <= (|o| - 1) as real
    requires 100.0 * rank == p && 100.0 * k as real <= p <= 100.0 * (k + 1) as real
    ensures 100.0 * (AtRank(o, rank) - o[k]) == (p - 100.0 * k as real) * (o[k + 1] - o[k])
  {
    AtRankIsLinear(o, rank, k);
    Steps(AtRank(o, rank) - o[k], rank - k as real, o[k + 1] - o[k], p - 100.0 * k as real);
  }

  lemma AtRankIsLinear(o: seq<real>, rank: real, k: nat)
    requires k + 1 < |o| && k as real <= rank <= (k + 1) as real
    ensures AtRank(o, rank) - o[k] == (rank - k as real) * (o[k + 1] - o[k])
  {
    if rank < (k + 1) as real {
      assert rank.Floor == k;
      MixIs(o[k], o[k + 1], rank - k as real);
    }
  }

  lemma MixIs(x: real, y: real, f: real)
    ensures Mix(x, y, f) - x == f * (y - x)
  {
  }

  lemma Steps(d: real, f: real, g: real, p: real)
    requires d == f * g && 100.0 * f == p
    ensures 100.0 * d == p * g
  {
    assert 100.0 * (f * g) == (100.0 * f) * g;
  }

  // ----- the summary -----

  datatype LatencyStats = LatencyStats(count: nat, p50: real, p95: real, p99: real, max: real, mean: real)

  lemma {:induction false} SumBound(s: seq<real>, hi: real)
    requires forall i :: 0 <= i < |s| ==> s[i] <= hi
    ensures Sum(s) <= |s| as real * hi
  {
    if s != [] {
      SumBound(s[..|s|-1], hi);
      assert |s| as real * hi == (|s| - 1) as real * hi + hi;
    }
  }

  lemma MeanBound(total: real, n: real, mean: real, hi: real)
    requires 0.0 < n && mean == total / n && total <= n * hi
    ensures mean * n == total && mean <= hi
  {
    var d := hi - mean;
    assert d * n == hi * n - mean * n;
    NotNegative(d, n);
  }

  lemma NotNegative(d: real, n: real)
    requires 0.0 < n && 0.0 <= d * n
    ensures 0.0 <= d
  {
  }

  method MaxAndTotal(samples: seq<real>) returns (max: real, total: real)
    ensures total == Sum(samples) && (samples == [] ==> max == 0.0)
    ensures forall i :: 0 <= i < |samples| ==> samples[i] <= max
    ensures samples != [] ==> max in samples
  {
    max, total := 0.0, 0.0;
    for i := 0 to |samples|
      invariant forall j :: 0 <= j < i ==> samples[j] <= max
      invariant i > 0 ==> max in samples
      invariant i == 0 ==> max == 0.0
      invariant total == Sum(samples[..i])
    {
      assert samples[..i+1][..i] == samples[..i];
      if i == 0 || samples[i] > max { max := samples[i]; }
      total := total + samples[i];
    }
    assert samples[..|samples|] == samples;
  }

  lemma OrderedPercentiles(samples: seq<real>, hi: real)
    requires samples != [] && forall i :: 0 <= i < |samples| ==> samples[i] <= hi
    ensures PercentileOf(samples, 50.0) <= PercentileOf(samples, 95.0) <= PercentileOf(samples, 99.0) <= hi
  {
    MonotoneInPercentage(samples, 50.0, 95.0);
    MonotoneInPercentage(samples, 95.0, 99.0);
    MonotoneInPercentage(samples, 99.0, 100.0);
    TopBound(samples, hi);
  }

  method MeanOf(samples: seq<real>, total: real, max: real) returns (mean: real)
    requires total == Sum(samples) && forall i :: 0 <= i < |samples| ==> samples[i] <= max
    ensures samples == [] ==> mean == 0.0
    ensures samples != [] ==> mean == Mean(samples) && mean <= max
  {
    if samples == [] { return 0.0; }
    mean := total / |samples| as real;
    SumBound(samples, max);
    MeanBound(total, |samples| as real, mean, max);
  }

  method Percentiles(samples: seq<real>, ghost hi: real) returns (p50: real, p95: real, p99: real)
    requires forall i :: 0 <= i < |samples| ==> samples[i] <= hi
    ensures p50 == PercentileOf(samples, 50.0) && p95 == PercentileOf(samples, 95.0)
    ensures p99 == PercentileOf(samples, 99.0)
    ensures samples == [] ==> p50 == p95 == p99 == 0.0
    ensures samples != [] ==> p50 <= p95 <= p99 <= hi
  {
    if samples != [] { OrderedPercentiles(samples, hi); }
    p50, p95, p99 := PercentileOf(samples, 50.0), PercentileOf(samples, 95.0), PercentileOf(samples, 99.0);
  }

  /** The summary of a sample: a maximum that is attained, ordered percentiles, a mean below the maximum. */
  method Stats(samples: seq<real>) returns (r: LatencyStats)
    ensures r.count == |samples|
    ensures samples == [] ==> r == LatencyStats(0, 0.0, 0.0, 0.0, 0.0, 0.0)
    ensures samples != [] ==> r.max in samples && r.p50 <= r.p95 <= r.p99 <= r.max && r.mean <= r.max
    ensures forall i :: 0 <= i < |samples| ==> samples[i] <= r.max
    ensures r.p50 == PercentileOf(samples, 50.0) && r.p95 == PercentileOf(samples, 95.0)
    ensures r.p99 == PercentileOf(samples, 99.0)
    ensures samples != [] ==> r.mean == Mean(samples)
  {
    var max, total := MaxAndTotal(samples);
    var p50, p95, p99 := Percentiles(samples, max);
    var mean := MeanOf(samples, total, max);
    r := LatencyStats(|samples|, p50, p95, p99, max, mean);
  }

  lemma TopBound(samples: seq<real>, hi: real)
    requires samples != [] && forall i :: 0 <= i < |samples| ==> samples[i] <= hi
    ensures PercentileOf(samples, 100.0) <= hi
  {
    var o := Ordered(samples);
    OrderedIsRising(samples);
    assert o[|o|-1] in o;
    OrderedKeeps(samples, o[|o|-1]);
  }
}
