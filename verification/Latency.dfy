/** Latency sets: running figures and nearest-rank percentiles over exact reals. */
module Latency {
  import opened Sorting

  datatype Summary = Summary(count: nat, min: real, avg: real, max: real, p50: real, p95: real, p99: real)

  // ---------------------------------------------------------------- what a summary has to say

  function Total(s: seq<real>): real {
    if s == [] then 0.0 else Total(s[..|s| - 1]) + s[|s| - 1]
  }

  function Mean(s: seq<real>): real
    requires s != []
  {
    Total(s) / (|s| as real)
  }

  /** Samples at or below `v`, and strictly below it. */
  function AtMost(s: seq<real>, v: real): nat {
    if s == [] then 0 else AtMost(s[..|s| - 1], v) + if s[|s| - 1] <= v then 1 else 0
  }

  function Below(s: seq<real>, v: real): nat {
    if s == [] then 0 else Below(s[..|s| - 1], v) + if s[|s| - 1] < v then 1 else 0
  }

  /** `v` is the least sample such that at least `p` percent of the samples lie at or below it. */
  ghost predicate NearestRank(s: seq<real>, p: nat, v: real) {
    v in s && 100 * AtMost(s, v) >= p * |s| && 100 * Below(s, v) < p * |s|
  }

  ghost predicate IsLeast(s: seq<real>, v: real) {
    v in s && forall x :: x in s ==> v <= x
  }

  ghost predicate IsGreatest(s: seq<real>, v: real) {
    v in s && forall x :: x in s ==> x <= v
  }

  ghost predicate IsSummary(out: Summary, s: seq<real>) {
    if s == [] then out == Summary(0, 0.0, 0.0, 0.0, 0.0, 0.0, 0.0)
    else
      && out.count == |s| && IsLeast(s, out.min) && IsGreatest(s, out.max)
      && out.avg == Mean(s)
      && NearestRank(s, 50, out.p50) && NearestRank(s, 95, out.p95) && NearestRank(s, 99, out.p99)
  }

  // ---------------------------------------------------------------- counting

  lemma {:induction false} Without(s: seq<real>, i: nat, v: real)
    requires i < |s|
    ensures var t := s[..i] + s[i + 1..];
            && AtMost(s, v) == AtMost(t, v) + (if s[i] <= v then 1 else 0)
            && Below(s, v) == Below(t, v) + (if s[i] < v then 1 else 0)
            && Total(s) == Total(t) + s[i]
  {
    var n, t := |s| - 1, s[..i] + s[i + 1..];
    if i == n {
      assert t == s[..n];
    } else {
      Without(s[..n], i, v);
      assert t[..|t| - 1] == s[..n][..i] + s[..n][i + 1..];
      assert t[|t| - 1] == s[n];
    }
  }

  /** Counts and totals do not depend on the order of the samples. */
  lemma {:induction false} SameContents(a: seq<real>, b: seq<real>, v: real)
    requires multiset(a) == multiset(b)
    ensures |a| == |b| && AtMost(a, v) == AtMost(b, v) && Below(a, v) == Below(b, v) && Total(a) == Total(b)
  {
    assert |multiset(a)| == |a| && |multiset(b)| == |b|;
    if a != [] {
      var n := |a| - 1;
      var x := a[n];
      assert x in multiset(a);
      assert x in b;
      var i :| 0 <= i < |b| && b[i] == x;
      var c := b[..i] + b[i + 1..];
      TakeOut(a, n);
      TakeOut(b, i);
      assert a[..n] + a[n + 1..] == a[..n];
      assert multiset(a[..n]) == multiset(a) - multiset{x} == multiset(c);
      SameContents(a[..n], c, v);
      Without(b, i, v);
    }
  }

  lemma {:induction false} CountsOrdered(s: seq<real>, u: real, v: real)
    requires u < v
    ensures AtMost(s, u) <= Below(s, v)
  {
    if s != [] {
      CountsOrdered(s[..|s| - 1], u, v);
    }
  }

  /** Percentiles of one set of samples come in the order of their ranks, and one rank has one value. */
  lemma RanksOrdered(s: seq<real>, p: nat, u: real, q: nat, v: real)
    requires p <= q && NearestRank(s, p, u) && NearestRank(s, q, v)
    ensures u <= v
  {
    assert p * |s| <= q * |s|;
    if v < u {
      CountsOrdered(s, v, u);
    }
  }

  // ---------------------------------------------------------------- sorting and percentiles

  function Itself(x: real): real {
    x
  }

  /** The element at the ceiling of `p` percent of the length, counting from one, kept within the list. */
  function RankIndex(n: nat, p: nat): nat
    requires n > 0
  {
    var idx := (p * n + 99) / 100 - 1;
    if idx < 0 then 0 else if idx >= n then n - 1 else idx
  }

  function Percentile(sorted: seq<real>, p: nat): real {
    if sorted == [] then 0.0 else sorted[RankIndex(|sorted|, p)]
  }

  lemma RankIndexBounds(n: nat, p: nat)
    requires n > 0 && 1 <= p <= 100
    ensures 100 * (RankIndex(n, p) + 1) >= p * n && 100 * RankIndex(n, p) < p * n
  {
    ShareBounds(n, p);
    CeilingBounds(p * n, n);
  }

  lemma ShareBounds(n: nat, p: nat)
    requires n > 0 && 1 <= p <= 100
    ensures 1 <= p * n <= 100 * n
  {
    assert (p - 1) * n >= 0 && (100 - p) * n >= 0;
  }

  lemma CeilingBounds(q: nat, n: nat)
    requires 1 <= q <= 100 * n
    ensures var idx := (q + 99) / 100 - 1; 0 <= idx < n && 100 * idx < q <= 100 * (idx + 1)
  {
  }

  lemma {:induction false} SortedCounts(s: seq<real>, m: nat, v: real)
    requires Sorted(s, Itself) && m < |s|
    ensures v >= s[m] ==> AtMost(s, v) >= m + 1
    ensures v <= s[m] ==> Below(s, v) <= m
  {
    var n := |s| - 1;
    if m < n {
      SortedCounts(s[..n], m, v);
    } else {
      CountBounds(s, v);
      CountBounds(s[..n], v);
    }
  }

  lemma {:induction false} CountBounds(s: seq<real>, v: real)
    ensures Below(s, v) <= |s|
    ensures (forall i :: 0 <= i < |s| ==> s[i] <= v) ==> AtMost(s, v) == |s|
  {
    if s != [] {
      CountBounds(s[..|s| - 1], v);
    }
  }

  /** The percentile picked from a sorted copy is the nearest-rank value of the samples themselves. */
  lemma PercentileIsNearestRank(samples: seq<real>, sorted: seq<real>, p: nat)
    requires samples != [] && Sorted(sorted, Itself) && multiset(sorted) == multiset(samples) && 1 <= p <= 100
    ensures NearestRank(samples, p, Percentile(sorted, p))
  {
    var v := Percentile(sorted, p);
    SameContents(sorted, samples, v);
    var m := RankIndex(|sorted|, p);
    RankIndexBounds(|sorted|, p);
    SortedCounts(sorted, m, v);
    assert v in multiset(sorted);
  }

  lemma PercentilesAreRanks(samples: seq<real>, sorted: seq<real>)
    requires samples != [] && Sorted(sorted, Itself) && multiset(sorted) == multiset(samples)
    ensures NearestRank(samples, 50, Percentile(sorted, 50))
    ensures NearestRank(samples, 95, Percentile(sorted, 95))
    ensures NearestRank(samples, 99, Percentile(sorted, 99))
  {
    PercentileIsNearestRank(samples, sorted, 50);
    PercentileIsNearestRank(samples, sorted, 95);
    PercentileIsNearestRank(samples, sorted, 99);
  }

  /** Any two summaries of the same multiset of samples are the same summary. */
  lemma SummaryDetermined(a: Summary, s: seq<real>, b: Summary, t: seq<real>)
    requires multiset(s) == multiset(t) && IsSummary(a, s) && IsSummary(b, t)
    ensures a == b
  {
    SameContents(s, t, 0.0);
    if s != [] {
      ExtremesAgree(s, a.min, a.max, t, b.min, b.max);
      RankSame(s, t, 50, b.p50);
      RankSame(s, t, 95, b.p95);
      RankSame(s, t, 99, b.p99);
      RanksAgree(s, 50, a.p50, b.p50);
      RanksAgree(s, 95, a.p95, b.p95);
      RanksAgree(s, 99, a.p99, b.p99);
    }
  }

  lemma ExtremesAgree(s: seq<real>, lo: real, hi: real, t: seq<real>, lo': real, hi': real)
    requires multiset(s) == multiset(t) && IsLeast(s, lo) && IsGreatest(s, hi) && IsLeast(t, lo') && IsGreatest(t, hi')
    ensures lo == lo' && hi == hi'
  {
    assert lo in multiset(s) && hi in multiset(s) && lo' in multiset(t) && hi' in multiset(t);
    assert lo in t && hi in t && lo' in s && hi' in s;
  }

  lemma RankSame(s: seq<real>, t: seq<real>, p: nat, v: real)
    requires multiset(s) == multiset(t) && NearestRank(t, p, v)
    ensures NearestRank(s, p, v)
  {
    SameContents(s, t, v);
    assert v in multiset(t);
  }

  lemma RanksAgree(s: seq<real>, p: nat, u: real, v: real)
    requires NearestRank(s, p, u) && NearestRank(s, p, v)
    ensures u == v
  {
    RanksOrdered(s, p, u, p, v);
    RanksOrdered(s, p, v, p, u);
  }

  lemma SummaryOrdered(out: Summary, s: seq<real>)
    requires s != [] && IsSummary(out, s)
    ensures out.min <= out.p50 <= out.p95 <= out.p99 <= out.max
    ensures out.min <= out.avg <= out.max
  {
    RanksOrdered(s, 50, out.p50, 95, out.p95);
    RanksOrdered(s, 95, out.p95, 99, out.p99);
    MeanInRange(s, out.min, out.max);
  }

  lemma MeanInRange(s: seq<real>, lo: real, hi: real)
    requires s != [] && IsLeast(s, lo) && IsGreatest(s, hi)
    ensures lo <= Mean(s) <= hi
  {
    TotalBounds(s, lo, hi);
    MeanBetween(Total(s), |s| as real, lo, hi);
  }

  lemma MeanBetween(total: real, n: real, lo: real, hi: real)
    requires n > 0.0 && lo * n <= total <= hi * n
    ensures lo <= total / n <= hi
  {
    var mean := total / n;
    assert mean * n == total;
    if mean < lo {
      Stretch(mean, lo, n);
    }
    if hi < mean {
      Stretch(hi, mean, n);
    }
  }

  lemma Stretch(x: real, y: real, n: real)
    requires n > 0.0 && x < y
    ensures x * n < y * n
  {
  }

  lemma ScaledStep(x: real, n: real, m: real)
    requires m == n + 1.0
    ensures x * m == x * n + x
  {
  }

  lemma {:induction false} TotalBounds(s: seq<real>, lo: real, hi: real)
    requires forall x :: x in s ==> lo <= x <= hi
    ensures lo * (|s| as real) <= Total(s) <= hi * (|s| as real)
  {
    if s == [] {
      assert |s| as real == 0.0;
    } else {
      var n := |s| - 1;
      assert forall x :: x in s[..n] ==> x in s;
      TotalBounds(s[..n], lo, hi);
      assert s[n] in s;
      ScaledStep(lo, n as real, |s| as real);
      ScaledStep(hi, n as real, |s| as real);
    }
  }

  // ---------------------------------------------------------------- the accumulator

  /** The figures kept while samples arrive one by one. */
  datatype Figures = Figures(count: nat, sum: real, min: real, max: real, has: bool)

  function Running(s: seq<real>): Figures {
    if s == [] then Figures(0, 0.0, 0.0, 0.0, false)
    else
      var f, v := Running(s[..|s| - 1]), s[|s| - 1];
      Figures(f.count + 1, f.sum + v,
              if !f.has || v < f.min then v else f.min, if !f.has || v > f.max then v else f.max, true)
  }

  /** They are the size, total, least and greatest of the samples. */
  lemma {:induction false} RunningIsRight(s: seq<real>)
    ensures var f := Running(s);
            && f.count == |s| && f.sum == Total(s) && f.has == (s != [])
            && (s != [] ==> IsLeast(s, f.min) && IsGreatest(s, f.max))
  {
    if s != [] {
      var n := |s| - 1;
      RunningIsRight(s[..n]);
      assert s == s[..n] + [s[n]];
    }
  }

  class LatencySet {
    var samples: seq<real>
    var count: nat
    var sum: real
    var min: real
    var max: real
    var has: bool

    /** The running figures are those of the samples held. */
    ghost predicate Valid()
      reads this
    {
      Running(samples) == Figures(count, sum, min, max, has)
    }

    constructor ()
      ensures Valid() && samples == []
    {
      samples, count, sum, min, max, has := [], 0, 0.0, 0.0, 0.0, false;
    }

    method Add(v: real)
      requires Valid()
      modifies this
      ensures Valid() && samples == old(samples) + [v]
    {
      assert (samples + [v])[..|samples|] == samples;
      samples := samples + [v];
      count := count + 1;
      sum := sum + v;
      if !has || v < min {
        min := v;
      }
      if !has || v > max {
        max := v;
      }
      has := true;
    }

    method Summarise() returns (out: Summary)
      requires Valid()
      ensures IsSummary(out, samples)
    {
      RunningIsRight(samples);
      if !has {
        return Summary(0, 0.0, 0.0, 0.0, 0.0, 0.0, 0.0);
      }
      var sorted := samples;
      if |sorted| > 1 && !Sorted(sorted, Itself) {
        SortSorts(sorted, Itself);
        SortKeeps(sorted, Itself);
        sorted := Sort(sorted, Itself);
      }
      PercentilesAreRanks(samples, sorted);
      out := Summary(count, min, sum / (count as real), max,
                     Percentile(sorted, 50), Percentile(sorted, 95), Percentile(sorted, 99));
    }

    method Reset()
      modifies this
      ensures Valid() && samples == []
    {
      samples, count, sum, min, max, has := [], 0, 0.0, 0.0, 0.0, false;
    }

    method SnapshotReset() returns (out: Summary)
      requires Valid()
      modifies this
      ensures IsSummary(out, old(samples))
      ensures Valid() && samples == []
    {
      out := Summarise();
      Reset();
    }
  }

  // ---------------------------------------------------------------- histories

  datatype Op = AddOp(v: real) | ResetOp | SnapshotOp

  /** The samples added since the last reset. */
  function Kept(ops: seq<Op>): seq<real> {
    if ops == [] then []
    else match ops[|ops| - 1]
      case AddOp(v) => Kept(ops[..|ops| - 1]) + [v]
      case _ => []
  }

  /** After any history of adds and resets, the summary is that of what was added since the last reset. */
  method Replay(ops: seq<Op>) returns (out: Summary)
    ensures IsSummary(out, Kept(ops))
  {
    var set0 := new LatencySet();
    for i := 0 to |ops|
      invariant set0.Valid() && set0.samples == Kept(ops[..i]) && fresh(set0)
    {
      assert ops[..i + 1][..i] == ops[..i];
      match ops[i] {
        case AddOp(v) => set0.Add(v);
        case ResetOp => set0.Reset();
        case SnapshotOp => var row := set0.SnapshotReset();
      }
    }
    assert ops[..|ops|] == ops;
    out := set0.Summarise();
  }
}
