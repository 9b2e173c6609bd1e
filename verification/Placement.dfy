/** Placing items into bins: channels onto connections and workers onto channels use the same three
    disciplines, round-robin, everything into the first bin, and packing up to a cap. */
module Placement {
  import opened Sorting

  datatype Distribution = Even | Uneven | Unknown(text: string)

  /** The bin of item `i` among `n` bins. */
  function Bin(mode: Distribution, cap: int, n: nat, i: nat): nat
    requires n > 0
  {
    if mode.Even? then i % n
    else if cap <= 0 then 0
    else i / cap
  }

  /** The items below `count` that land in bin `k`, in increasing order. */
  function InBin(mode: Distribution, cap: int, n: nat, count: nat, k: nat): seq<nat>
    requires n > 0
  {
    if count == 0 then []
    else InBin(mode, cap, n, count - 1, k) + if Bin(mode, cap, n, count - 1) == k then [count - 1] else []
  }

  /** Everything fits in the `n` bins. */
  predicate Fits(mode: Distribution, cap: int, n: nat, count: nat) {
    mode.Even? || cap <= 0 || count <= n * cap
  }

  lemma BinInRange(mode: Distribution, cap: int, n: nat, count: nat, i: nat)
    requires n > 0 && Fits(mode, cap, n, count) && i < count
    ensures Bin(mode, cap, n, i) < n
  {
    if !mode.Even? && cap > 0 {
      if i / cap >= n {
        Scale(n, i / cap, cap);
      }
    }
  }

  lemma Scale(a: nat, b: nat, c: nat)
    requires a <= b
    ensures a * c <= b * c
  {
    assert (b - a) * c >= 0;
  }

  /** A bin holds exactly the items that belong there. */
  lemma {:induction false} InBinExact(mode: Distribution, cap: int, n: nat, count: nat, k: nat)
    requires n > 0
    ensures forall i :: i in InBin(mode, cap, n, count, k) <==> 0 <= i < count && Bin(mode, cap, n, i) == k
  {
    if count > 0 {
      InBinExact(mode, cap, n, count - 1, k);
    }
  }

  predicate StrictlyIncreasing(s: seq<nat>) {
    forall a, b :: 0 <= a < b < |s| ==> s[a] < s[b]
  }

  /** ... each once, in order. */
  lemma {:induction false} InBinIncreasing(mode: Distribution, cap: int, n: nat, count: nat, k: nat)
    requires n > 0
    ensures StrictlyIncreasing(InBin(mode, cap, n, count, k))
  {
    if count > 0 {
      InBinIncreasing(mode, cap, n, count - 1, k);
      InBinExact(mode, cap, n, count - 1, k);
      var s := InBin(mode, cap, n, count - 1, k);
      forall a | 0 <= a < |s| ensures s[a] < count - 1 {
        assert s[a] in s;
      }
    }
  }

  // ---------------------------------------------------------------- loads

  lemma ModStep(count: nat, n: nat)
    requires n > 0
    ensures if count % n + 1 < n then (count + 1) / n == count / n && (count + 1) % n == count % n + 1
            else (count + 1) / n == count / n + 1 && (count + 1) % n == 0
  {
    var q, r := count / n, count % n;
    assert count + 1 == n * q + (r + 1);
    if r + 1 < n {
      DivModUnique(count + 1, n, q, r + 1);
    } else {
      assert n * q + n == n * (q + 1);
      DivModUnique(count + 1, n, q + 1, 0);
    }
  }

  lemma DivModUnique(a: nat, n: nat, q: nat, r: nat)
    requires n > 0 && a == n * q + r && r < n
    ensures a / n == q && a % n == r
  {
    var q', r' := a / n, a % n;
    assert a == n * q' + r';
    assert n * (q + 1) == n * q + n && n * (q' + 1) == n * q' + n;
    if q' > q {
      Scale(q + 1, q', n);
    } else if q' < q {
      Scale(q' + 1, q, n);
    }
  }

  /** Round-robin: loads differ by at most one, the earlier bins being the fuller ones. */
  lemma {:induction false} EvenLoad(cap: int, n: nat, count: nat, k: nat)
    requires k < n
    ensures |InBin(Even, cap, n, count, k)| == count / n + if k < count % n then 1 else 0
  {
    if count == 0 {
      DivModUnique(0, n, 0, 0);
    } else {
      EvenLoad(cap, n, count - 1, k);
      ModStep(count - 1, n);
    }
  }

  /** Which side of `k * cap` an item lies on decides its bin. */
  lemma Quotient(i: nat, cap: int, k: nat)
    requires cap > 0
    ensures i / cap == k <==> k * cap <= i < k * cap + cap
    ensures i / cap < k <==> i < k * cap
  {
    var q, r := i / cap, i % cap;
    assert i == q * cap + r && (q + 1) * cap == q * cap + cap && (k + 1) * cap == k * cap + cap;
    if q < k {
      Scale(q + 1, k, cap);
    } else if q > k {
      Scale(k + 1, q, cap);
    }
  }

  /** Capped packing: bins are filled in order, each up to the cap. */
  lemma {:induction false} CappedLoad(cap: int, n: nat, count: nat, k: nat)
    requires cap > 0 && n > 0
    ensures |InBin(Uneven, cap, n, count, k)|
            == if count <= k * cap then 0 else if count - k * cap <= cap then count - k * cap else cap
  {
    if count == 0 {
      Scale(0, k, cap);
    } else {
      CappedLoad(cap, n, count - 1, k);
      Quotient(count - 1, cap, k);
    }
  }

  // ---------------------------------------------------------------- how many land in the first bins

  /** Items below `count` in bins below `h`. */
  function CountBelow(mode: Distribution, cap: int, n: nat, count: nat, h: nat): nat
    requires n > 0
  {
    if count == 0 then 0
    else CountBelow(mode, cap, n, count - 1, h) + if Bin(mode, cap, n, count - 1) < h then 1 else 0
  }

  function Min(a: int, b: int): int {
    if a <= b then a else b
  }

  /** The same in closed form. */
  function BelowFormula(mode: Distribution, cap: int, n: nat, count: nat, h: nat): int
    requires n > 0
  {
    if mode.Even? then h * (count / n) + Min(h, count % n)
    else if cap <= 0 then if h > 0 then count else 0
    else Min(count, h * cap)
  }

  lemma {:induction false} EvenBelow(cap: int, n: nat, count: nat, h: nat)
    requires n > 0 && h <= n
    ensures CountBelow(Even, cap, n, count, h) == h * (count / n) + Min(h, count % n)
  {
    if count == 0 {
      DivModUnique(0, n, 0, 0);
    } else {
      EvenBelow(cap, n, count - 1, h);
      ModStep(count - 1, n);
      assert h * ((count - 1) / n + 1) == h * ((count - 1) / n) + h;
    }
  }

  lemma {:induction false} PackedBelow(mode: Distribution, cap: int, n: nat, count: nat, h: nat)
    requires n > 0 && !mode.Even?
    ensures CountBelow(mode, cap, n, count, h) == BelowFormula(mode, cap, n, count, h)
  {
    if count > 0 {
      PackedBelow(mode, cap, n, count - 1, h);
      if cap > 0 {
        Quotient(count - 1, cap, h);
      }
    } else {
      assert h * 0 == 0;
      if cap > 0 {
        Scale(0, h, cap);
      }
    }
  }

  lemma CountClosedForm(mode: Distribution, cap: int, n: nat, count: nat, h: nat)
    requires n > 0 && h <= n
    ensures CountBelow(mode, cap, n, count, h) == BelowFormula(mode, cap, n, count, h)
  {
    if mode.Even? {
      EvenBelow(cap, n, count, h);
    } else {
      PackedBelow(mode, cap, n, count, h);
    }
  }

  lemma {:induction false} BelowGrows(mode: Distribution, cap: int, n: nat, count: nat, g: nat, h: nat)
    requires n > 0 && g <= h
    ensures CountBelow(mode, cap, n, count, g) <= CountBelow(mode, cap, n, count, h) <= count
  {
    if count > 0 {
      BelowGrows(mode, cap, n, count - 1, g, h);
    }
  }

  // ---------------------------------------------------------------- the loops

  /** The placement loop: item `i` is appended to its bin. */
  method Place(mode: Distribution, cap: int, n: nat, count: nat) returns (bins: seq<seq<nat>>)
    requires n > 0 && Fits(mode, cap, n, count)
    ensures |bins| == n && forall k :: 0 <= k < n ==> bins[k] == InBin(mode, cap, n, count, k)
  {
    bins := seq(n, _ => []);
    var i := 0;
    while i < count
      invariant 0 <= i <= count && |bins| == n
      invariant forall k :: 0 <= k < n ==> bins[k] == InBin(mode, cap, n, i, k)
    {
      BinInRange(mode, cap, n, count, i);
      var b := Bin(mode, cap, n, i);
      bins := bins[b := bins[b] + [i]];
      i := i + 1;
    }
  }

  // ---------------------------------------------------------------- every item is somewhere, once

  function Flat(bins: seq<seq<nat>>): seq<nat> {
    if bins == [] then [] else Flat(bins[..|bins| - 1]) + bins[|bins| - 1]
  }

  function Range(count: nat): (r: seq<nat>)
    ensures |r| == count && forall i :: 0 <= i < count ==> r[i] == i
  {
    if count == 0 then [] else Range(count - 1) + [count - 1]
  }

  lemma {:induction false} FlatAppend(bins: seq<seq<nat>>, b: nat, x: nat)
    requires b < |bins|
    ensures multiset(Flat(bins[b := bins[b] + [x]])) == multiset(Flat(bins)) + multiset{x}
  {
    var n := |bins| - 1;
    var bins' := bins[b := bins[b] + [x]];
    if b == n {
      assert bins'[..n] == bins[..n];
      assert Flat(bins') == Flat(bins) + [x];
    } else {
      assert bins'[..n] == bins[..n][b := bins[..n][b] + [x]];
      FlatAppend(bins[..n], b, x);
    }
  }

  lemma {:induction false} FlatEmpty(bins: seq<seq<nat>>)
    requires forall k :: 0 <= k < |bins| ==> bins[k] == []
    ensures Flat(bins) == []
  {
    if bins != [] {
      FlatEmpty(bins[..|bins| - 1]);
    }
  }

  lemma FlatGrows(before: seq<seq<nat>>, bins: seq<seq<nat>>, b: nat, x: nat, count: nat)
    requires b < |before| && count == x + 1 && bins == before[b := before[b] + [x]]
    requires multiset(Flat(before)) == multiset(Range(x))
    ensures multiset(Flat(bins)) == multiset(Range(count))
  {
    FlatAppend(before, b, x);
    RangeGrows(x);
  }

  lemma RangeGrows(x: nat)
    ensures multiset(Range(x + 1)) == multiset(Range(x)) + multiset{x}
  {
    assert Range(x + 1) == Range(x) + [x];
  }

  lemma LastPlaced(mode: Distribution, cap: int, n: nat, count: nat, before: seq<seq<nat>>, bins: seq<seq<nat>>)
    requires n > 0 && count > 0 && Bin(mode, cap, n, count - 1) < n && |before| == |bins| == n
    requires forall k :: 0 <= k < n ==> before[k] == InBin(mode, cap, n, count - 1, k)
    requires forall k :: 0 <= k < n ==> bins[k] == InBin(mode, cap, n, count, k)
    ensures var b := Bin(mode, cap, n, count - 1); bins == before[b := before[b] + [count - 1]]
  {
    var b := Bin(mode, cap, n, count - 1);
    forall k | 0 <= k < n ensures bins[k] == before[b := before[b] + [count - 1]][k] {
      assert bins[k] == InBin(mode, cap, n, count, k) && before[k] == InBin(mode, cap, n, count - 1, k);
    }
  }

  /** The first `h` bins. */
  function Bins(mode: Distribution, cap: int, n: nat, count: nat, h: nat): (bins: seq<seq<nat>>)
    requires n > 0
    ensures |bins| == h && forall k :: 0 <= k < h ==> bins[k] == InBin(mode, cap, n, count, k)
  {
    if h == 0 then [] else Bins(mode, cap, n, count, h - 1) + [InBin(mode, cap, n, count, h - 1)]
  }

  lemma FitsFewer(mode: Distribution, cap: int, n: nat, count: nat)
    requires n > 0 && count > 0 && Fits(mode, cap, n, count)
    ensures Fits(mode, cap, n, count - 1) && Bin(mode, cap, n, count - 1) < n
  {
    BinInRange(mode, cap, n, count, count - 1);
  }

  /** Read off bin after bin, the items are exactly 0, 1, .., count - 1, each once. */
  lemma {:induction false} FlatIsRange(mode: Distribution, cap: int, n: nat, count: nat, bins: seq<seq<nat>>)
    requires n > 0 && Fits(mode, cap, n, count)
    requires |bins| == n && forall k :: 0 <= k < n ==> bins[k] == InBin(mode, cap, n, count, k)
    ensures multiset(Flat(bins)) == multiset(Range(count))
    decreases count
  {
    if count == 0 {
      FlatEmpty(bins);
      assert Range(0) == [];
    } else {
      var before := Bins(mode, cap, n, count - 1, n);
      FitsFewer(mode, cap, n, count);
      FlatIsRange(mode, cap, n, count - 1, before);
      LastPlaced(mode, cap, n, count, before, bins);
      FlatGrows(before, bins, Bin(mode, cap, n, count - 1), count - 1, count);
    }
  }

  function NumberKey(n: nat): real {
    n as real
  }

  /** A sorted list is determined by its contents. */
  lemma {:induction false} SortedUnique(a: seq<nat>, b: seq<nat>)
    requires Sorted(a, NumberKey) && Sorted(b, NumberKey) && multiset(a) == multiset(b)
    ensures a == b
  {
    assert |a| == |multiset(a)| == |multiset(b)| == |b|;
    if a != [] {
      LeastFirst(a, b);
      LeastFirst(b, a);
      DropFirst(a);
      DropFirst(b);
      SortedUnique(a[1..], b[1..]);
      assert a == [a[0]] + a[1..] && b == [b[0]] + b[1..];
    }
  }

  lemma DropFirst(a: seq<nat>)
    requires a != []
    ensures multiset(a[1..]) == multiset(a) - multiset{a[0]}
  {
    assert a == [a[0]] + a[1..];
  }

  lemma LeastFirst(a: seq<nat>, b: seq<nat>)
    requires a != [] && b != [] && Sorted(a, NumberKey) && multiset(a) == multiset(b)
    ensures a[0] <= b[0]
  {
    assert b[0] in multiset(a);
    var i :| 0 <= i < |a| && a[i] == b[0];
  }
}
