/**
 Histogram buckets: normalizeBuckets and sortFloats of
 common/metrics/description.go, which work in place on one slice, and the
 cumulative histogram of common/metrics/registry.go. A float64 is a real number,
 one of the two infinities or NaN; its addition is a parameter, so that whatever it
 rounds to is allowed. Counters are 64 bits wide and wrap.
 */
module Buckets {

  datatype Float = Finite(value: real) | PosInf | NegInf | NaN {

    /** Go's `<=`: false whenever NaN takes part. */
    predicate AtMost(b: Float) {
      match (this, b)
      case (NaN, _) => false
      case (_, NaN) => false
      case (NegInf, _) => true
      case (_, PosInf) => true
      case (Finite(x), Finite(y)) => x <= y
      case _ => false
    }
  }

  /** The numbers are totally ordered, the infinities around them, and NaN is in no order. */
  lemma FloatOrder(a: Float, b: Float, c: Float)
    ensures a.NaN? || b.NaN? ==> !a.AtMost(b)
    ensures !a.NaN? && !b.NaN? ==> a.AtMost(b) || b.AtMost(a)
    ensures !a.NaN? && a.AtMost(b) && b.AtMost(a) ==> a == b
    ensures a.AtMost(b) && b.AtMost(c) ==> a.AtMost(c)
    ensures a.Finite? && b.Finite? ==> (a.AtMost(b) <==> a.value <= b.value)
    ensures !a.NaN? ==> NegInf.AtMost(a) && a.AtMost(PosInf)
  {
  }

  // ---------------------------------------------------------------- sorting in place

  ghost predicate Sorted(s: seq<real>) { forall i, j :: 0 <= i < j < |s| ==> s[i] <= s[j] }

  ghost predicate StrictlyAscending(s: seq<real>) { forall i, j :: 0 <= i < j < |s| ==> s[i] < s[j] }

  ghost predicate SortedFirst(s: seq<real>, k: nat) { forall p, q :: 0 <= p < q < k <= |s| ==> s[p] <= s[q] }

  /** The first `k` are sorted, but for the element at `j`, which may be smaller than those before it. */
  ghost predicate SortedBut(s: seq<real>, k: nat, j: nat) {
    && (forall p, q :: 0 <= p < q < k <= |s| && p != j && q != j ==> s[p] <= s[q])
    && (forall q :: j < q < k <= |s| ==> s[j] <= s[q])
  }

  ghost function Swapped(s: seq<real>, j: nat): (r: seq<real>)
    requires 0 < j < |s|
  {
    s[j := s[j - 1]][j - 1 := s[j]]
  }

  lemma SwapKeeps(s: seq<real>, j: nat)
    requires 0 < j < |s|
    ensures multiset(Swapped(s, j)) == multiset(s)
  {
  }

  lemma SwapDown(s: seq<real>, k: nat, j: nat)
    requires 0 < j < k <= |s| && SortedBut(s, k, j) && s[j] < s[j - 1]
    ensures SortedBut(Swapped(s, j), k, j - 1)
  {
  }

  method Swap(a: array<real>, ghost n: nat, j: nat)
    requires 0 < j < n <= a.Length
    modifies a
    ensures a[..n] == Swapped(old(a[..n]), j)
  {
    a[j], a[j - 1] := a[j - 1], a[j];
  }

  /** Insertion sort of the first `n` places. */
  method SortFloats(a: array<real>, n: nat)
    requires n <= a.Length
    modifies a
    ensures Sorted(a[..n]) && multiset(a[..n]) == multiset(old(a[..n]))
  {
    var i := 1;
    while i < n
      invariant 1 <= i && SortedFirst(a[..n], i) && (i > n ==> n == 0)
      invariant multiset(a[..n]) == multiset(old(a[..n]))
    {
      SinkInto(a, n, i);
      i := i + 1;
    }
  }

  /** The inner loop: the element at `i` moves down to its place. */
  method SinkInto(a: array<real>, n: nat, i: nat)
    requires 1 <= i < n <= a.Length && SortedFirst(a[..n], i)
    modifies a
    ensures SortedFirst(a[..n], i + 1) && multiset(a[..n]) == multiset(old(a[..n]))
  {
    var j := i;
    while j > 0 && a[j] < a[j - 1]
      invariant 0 <= j <= i
      invariant SortedBut(a[..n], i + 1, j)
      invariant multiset(a[..n]) == multiset(old(a[..n]))
    {
      ghost var s := a[..n];
      assert s[j] == a[j] && s[j - 1] == a[j - 1];
      SwapKeeps(s, j);
      SwapDown(s, i + 1, j);
      Swap(a, n, j);
      j := j - 1;
    }
    assert j > 0 ==> a[..n][j - 1] <= a[..n][j];
    Settled(a[..n], i + 1, j);
  }

  lemma Settled(s: seq<real>, k: nat, j: nat)
    requires j < k <= |s| && SortedBut(s, k, j) && (j > 0 ==> s[j - 1] <= s[j])
    ensures SortedFirst(s, k)
  {
    forall p, q | 0 <= p < q < k ensures s[p] <= s[q] {
      if q == j && p < j - 1 { assert s[p] <= s[j - 1]; }
    }
  }

  // ---------------------------------------------------------------- normalizing

  /** The values a bucket list may keep. */
  function Kept(buckets: seq<Float>): (r: seq<real>) {
    if buckets == [] then []
    else Kept(buckets[..|buckets| - 1]) + (if buckets[|buckets| - 1].Finite? then [buckets[|buckets| - 1].value] else [])
  }

  lemma {:induction false} KeptMembers(buckets: seq<Float>)
    ensures forall x :: x in Kept(buckets) <==> Finite(x) in buckets
  {
    if buckets != [] {
      var front := buckets[..|buckets| - 1];
      KeptMembers(front);
      assert buckets == front + [buckets[|buckets| - 1]];
    }
  }

  /** Filtering into a slice that was made with room for every bucket. */
  method Collect(buckets: seq<Float>, out: array<real>) returns (n: nat)
    requires out.Length == |buckets|
    modifies out
    ensures n <= out.Length && out[..n] == Kept(buckets)
  {
    n := 0;
    for i := 0 to |buckets|
      invariant n <= i && out[..n] == Kept(buckets[..i])
    {
      assert buckets[..i + 1][..i] == buckets[..i];
      if buckets[i].Finite? {
        out[n] := buckets[i].value;
        n := n + 1;
      }
    }
    assert buckets[..|buckets|] == buckets;
  }

  /** The distinct values of a sorted list. */
  function Distinct(s: seq<real>): (r: seq<real>) {
    if |s| <= 1 then s
    else if s[|s| - 1] == s[|s| - 2] then Distinct(s[..|s| - 1])
    else Distinct(s[..|s| - 1]) + [s[|s| - 1]]
  }

  lemma {:induction false} DistinctAscends(s: seq<real>)
    requires Sorted(s)
    ensures StrictlyAscending(Distinct(s)) && |Distinct(s)| <= |s|
    ensures forall x :: x in Distinct(s) <==> x in s
    ensures s != [] ==> Distinct(s) != [] && Distinct(s)[|Distinct(s)| - 1] == s[|s| - 1]
  {
    if |s| > 1 {
      var front := s[..|s| - 1];
      DistinctAscends(front);
      assert s == front + [s[|s| - 1]];
      assert front[|front| - 1] <= s[|s| - 1];
    }
  }

  /** Dropping repeats while writing over the slice being read: the write position
      never passes the read position, so what is still to be read is untouched. */
  method DedupeInPlace(a: array<real>, n: nat) returns (m: nat)
    requires n <= a.Length && Sorted(a[..n])
    modifies a
    ensures m <= n && a[..m] == Distinct(old(a[..n]))
  {
    m := 0;
    ghost var was := a[..n];
    for i := 0 to n
      invariant m <= i && (i > 0 ==> m > 0)
      invariant a[..m] == Distinct(was[..i])
      invariant forall k :: i <= k < n ==> a[k] == was[k]
      invariant i > 0 ==> a[i - 1] == was[i - 1]
    {
      assert was[..i + 1][..i] == was[..i];
      var b := a[i];
      if i > 0 && b == a[i - 1] {
        continue;
      }
      a[m] := b;
      m := m + 1;
    }
    assert was[..n] == was;
  }

  /** normalizeBuckets: strictly ascending, exactly the finite values, infinities and
      NaN gone. */
  method NormalizeBuckets(buckets: seq<Float>) returns (r: seq<real>)
    ensures StrictlyAscending(r)
    ensures forall x :: x in r <==> Finite(x) in buckets
  {
    var out := new real[|buckets|];
    var n := Collect(buckets, out);
    KeptMembers(buckets);
    ghost var kept := out[..n];
    SortFloats(out, n);
    ghost var sorted := out[..n];
    SameMembers(kept, sorted);
    DistinctAscends(sorted);
    var m := DedupeInPlace(out, n);
    r := out[..m];
  }

  lemma SameMembers(a: seq<real>, b: seq<real>)
    requires multiset(a) == multiset(b)
    ensures forall x :: x in a <==> x in b
  {
    forall x ensures x in a <==> x in b {
      assert x in a <==> x in multiset(a);
    }
  }

  // ---------------------------------------------------------------- histograms

  /** How many observations lie at or below a bound. */
  function AtOrBelow(history: seq<Float>, bound: Float): (r: nat) {
    if history == [] then 0
    else AtOrBelow(history[..|history| - 1], bound) + (if history[|history| - 1].AtMost(bound) then 1 else 0)
  }

  /** The observations added up one after another. */
  function Total(add: (Float, Float) -> Float, history: seq<Float>): (r: Float) {
    if history == [] then Finite(0.0) else add(Total(add, history[..|history| - 1]), history[|history| - 1])
  }

  const WORD := 0x1_0000_0000_0000_0000

  /** Adding one to a 64-bit counter. */
  function Next(n: nat): (r: nat) { (n + 1) % WORD }

  lemma NextCounts(n: nat)
    ensures Next(n % WORD) == (n + 1) % WORD
  {
  }

  lemma {:induction false} CountsAreCumulative(history: seq<Float>, low: Float, high: Float)
    requires low.AtMost(high)
    ensures AtOrBelow(history, low) <= AtOrBelow(history, high) <= |history|
  {
    if history != [] { CountsAreCumulative(history[..|history| - 1], low, high); }
  }

  /** One series' distribution. `history` is every observation but the NaNs. */
  class Distribution {
    const bounds: seq<Float>
    const add: (Float, Float) -> Float
    var counts: array<nat>
    var sum: Float
    var count: nat
    ghost var history: seq<Float>

    /** The fields say what the history says. */
    ghost predicate Valid()
      reads this, counts
    {
      && counts.Length == |bounds|
      && (forall i :: 0 <= i < |bounds| ==> counts[i] == AtOrBelow(history, bounds[i]) % WORD)
      && sum == Total(add, history)
      && count == |history| % WORD
    }

    constructor (bounds: seq<Float>, add: (Float, Float) -> Float)
      ensures Valid() && fresh(counts) && history == [] && this.bounds == bounds && this.add == add
    {
      this.bounds, this.add := bounds, add;
      counts := new nat[|bounds|](_ => 0);
      sum := Finite(0.0);
      count := 0;
      history := [];
    }

    method Observe(v: Float)
      requires Valid()
      modifies this, counts
      ensures Valid() && counts == old(counts)
      ensures history == if v.NaN? then old(history) else old(history) + [v]
    {
      if v.NaN? {
        return;
      }
      ghost var next := history + [v];
      assert next[..|history|] == history;
      for i := 0 to |bounds|
        invariant counts == old(counts) && history == old(history) && sum == old(sum) && count == old(count)
        invariant forall k :: 0 <= k < i ==> counts[k] == AtOrBelow(next, bounds[k]) % WORD
        invariant forall k :: i <= k < |bounds| ==> counts[k] == AtOrBelow(history, bounds[k]) % WORD
      {
        if v.AtMost(bounds[i]) {
          NextCounts(AtOrBelow(history, bounds[i]));
          counts[i] := Next(counts[i]);
        }
      }
      NextCounts(|history|);
      sum := add(sum, v);
      count := Next(count);
      history := next;
    }

    /** The cumulative counts, the sum and the total, as they stand together; until the
        counters wrap, counts grow with the bounds and stay within the total. */
    method Snapshot() returns (copied: seq<nat>, s: Float, n: nat)
      requires Valid()
      ensures |copied| == |bounds| && n == |history| % WORD && s == Total(add, history)
      ensures forall i :: 0 <= i < |bounds| ==> copied[i] == AtOrBelow(history, bounds[i]) % WORD
      ensures |history| < WORD ==>
        forall i, j :: 0 <= i < |bounds| && 0 <= j < |bounds| && bounds[i].AtMost(bounds[j]) ==> copied[i] <= copied[j] <= n
    {
      copied, s, n := counts[..], sum, count;
      if |history| < WORD {
        forall i, j | 0 <= i < |bounds| && 0 <= j < |bounds| && bounds[i].AtMost(bounds[j]) ensures copied[i] <= copied[j] <= n {
          CountsAreCumulative(history, bounds[i], bounds[j]);
        }
      }
    }
  }
}
