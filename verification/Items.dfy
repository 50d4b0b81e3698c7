/**
  * Items, bounds and their order (nip77/negentropy.go:25-50 and
  * nip77/reconcile.go:194-204, 255-292).
  *
  * Items sort by timestamp and then by id. A bound is an exclusive cut in that
  * order. Both are given a numeric rank here, so that an item is before a bound
  * exactly when its rank is smaller, and cutting a sorted list is arithmetic.
  */
module Items {
  import opened Words

  const INFINITE: U64 := MAX_U64

  type Id = s: Bytes | |s| == 32 witness seq(32, _ => 0)

  datatype Item = Item(ts: U64, id: Id)

  datatype Bound = Bound(ts: U64, prefix: Bytes)

  const Infinity := Bound(INFINITE, [])

  // ---------------------------------------------------------------- the code

  /** Item.Compare: by timestamp, then by the id bytes in turn. */
  function Compare(a: Item, b: Item): (c: int)
  {
    if a.ts < b.ts then -1
    else if a.ts > b.ts then 1
    else CompareIds(a.id, b.id, 0)
  }

  function CompareIds(a: Id, b: Id, x: nat): (c: int)
    requires x <= 32
    decreases 32 - x, a
  {
    if x == 32 then 0
    else if a[x] < b[x] then -1
    else if a[x] > b[x] then 1
    else CompareIds(a, b, x + 1)
  }

  /** ItemIsBeforeBound: whether item sorts strictly before bound. */
  predicate Before(item: Item, bound: Bound)
  {
    if bound.ts == INFINITE then true
    else if item.ts < bound.ts then true
    else if item.ts > bound.ts then false
    else PrefixBefore(item.id, bound.prefix, 0)
  }

  predicate PrefixBefore(id: Id, prefix: Bytes, i: nat)
    requires i <= 32
    decreases 32 - i, |prefix|
  {
    if i >= |prefix| || i >= 32 then false
    else if id[i] < prefix[i] then true
    else if id[i] > prefix[i] then false
    else PrefixBefore(id, prefix, i + 1)
  }

  /** The loop of minimalBound: how many leading bytes two ids share, at most 31. */
  function Shared(a: Id, b: Id, i: nat): (n: nat)
    requires i <= 31
    ensures i <= n <= 31
    ensures a[i..n] == b[i..n]
    ensures n < 31 ==> a[n] != b[n]
    decreases 31 - i, a
  {
    if i < 31 && a[i] == b[i] then
      var n := Shared(a, b, i + 1);
      assert a[i..n] == [a[i]] + a[i + 1..n] && b[i..n] == [b[i]] + b[i + 1..n];
      n
    else i
  }

  function MinBound(prev: Item, curr: Item): (b: Bound)
  {
    if prev.ts != curr.ts then Bound(curr.ts, [])
    else Bound(curr.ts, curr.id[..Shared(prev.id, curr.id, 0) + 1])
  }

  /** minimalBound. */
  method MinimalBound(prev: Item, curr: Item) returns (b: Bound)
    ensures b == MinBound(prev, curr)
  {
    if prev.ts != curr.ts { return Bound(curr.ts, []); }
    var shared := 0;
    while shared < 31 && prev.id[shared] == curr.id[shared]
      invariant 0 <= shared <= 31
      invariant Shared(prev.id, curr.id, 0) == Shared(prev.id, curr.id, shared)
    {
      shared := shared + 1;
    }
    b := Bound(curr.ts, curr.id[..shared + 1]);
  }

  // ------------------------------------------------------------------- ranks

  /** A list of digits, most significant first, as a number in base 256. */
  ghost function Value(ds: seq<nat>): nat
  {
    if ds == [] then 0 else ds[0] * Pow256(|ds| - 1) + Value(ds[1..])
  }

  ghost predicate ByteDigits(ds: seq<nat>) { forall i :: 0 <= i < |ds| ==> ds[i] < 256 }

  /** Lexicographic order of digit lists of one length. */
  ghost predicate LexLess(a: seq<nat>, b: seq<nat>)
    requires |a| == |b|
  {
    a != [] && (a[0] < b[0] || (a[0] == b[0] && LexLess(a[1..], b[1..])))
  }

  lemma {:induction false} ValueBound(ds: seq<nat>)
    requires ByteDigits(ds)
    ensures Value(ds) < Pow256(|ds|)
  {
    if ds != [] {
      ValueBound(ds[1..]);
      HeadDecides(ds[0], 256, Pow256(|ds| - 1), Value(ds[1..]), 0);
    }
  }

  lemma HeadDecides(x: nat, y: nat, p: nat, u: nat, v: nat)
    requires u < p && v < p
    ensures x < y ==> x * p + u < y * p + v
    ensures x == y ==> (x * p + u < y * p + v <==> u < v)
  {
    if x < y {
      assert (x + 1) * p <= y * p;
    }
  }

  lemma {:induction false} ValueIsLex(a: seq<nat>, b: seq<nat>)
    requires |a| == |b| && (a == [] || (ByteDigits(a[1..]) && ByteDigits(b[1..])))
    ensures LexLess(a, b) <==> Value(a) < Value(b)
  {
    if a != [] {
      ValueIsLex(a[1..], b[1..]);
      ValueBound(a[1..]);
      ValueBound(b[1..]);
      HeadDecides(a[0], b[0], Pow256(|a| - 1), Value(a[1..]), Value(b[1..]));
      HeadDecides(b[0], a[0], Pow256(|a| - 1), Value(b[1..]), Value(a[1..]));
    }
  }

  /** The first 32 bytes of a bound's prefix, filled up with zeros. */
  ghost function Padded(prefix: Bytes): (id: Id)
  {
    if |prefix| >= 32 then prefix[..32] else prefix + seq(32 - |prefix|, _ => 0)
  }

  ghost function Rank(item: Item): (r: nat) { Value([item.ts] + item.id) }

  ghost function Top(): (r: nat) { Value([TWO_64] + seq(32, _ => 0)) }

  ghost function BoundRank(b: Bound): (r: nat)
  {
    if b.ts == INFINITE then Top() else Value([b.ts] + Padded(b.prefix))
  }

  lemma {:induction false} PrefixIsLex(id: Id, prefix: Bytes, i: nat)
    requires i <= 32
    ensures PrefixBefore(id, prefix, i) <==> LexLess(id[i..], Padded(prefix)[i..])
    decreases 32 - i
  {
    var pad := Padded(prefix);
    if i < 32 {
      assert id[i..][1..] == id[i + 1..] && pad[i..][1..] == pad[i + 1..];
      PrefixIsLex(id, prefix, i + 1);
      if i >= |prefix| {
        assert pad[i] == 0;
      }
    }
  }

  lemma {:induction false} IdsAreLex(a: Id, b: Id, x: nat)
    requires x <= 32
    ensures CompareIds(a, b, x) < 0 <==> LexLess(a[x..], b[x..])
    ensures CompareIds(a, b, x) == 0 <==> a[x..] == b[x..]
    ensures CompareIds(a, b, x) == -CompareIds(b, a, x)
    decreases 32 - x
  {
    if x < 32 {
      assert a[x..] == [a[x]] + a[x + 1..] && b[x..] == [b[x]] + b[x + 1..];
      IdsAreLex(a, b, x + 1);
    }
  }

  /** Compare is the order of ranks, and only equal items compare equal. */
  lemma CompareIsRank(a: Item, b: Item)
    ensures Compare(a, b) < 0 <==> Rank(a) < Rank(b)
    ensures Compare(a, b) > 0 <==> Rank(a) > Rank(b)
    ensures Compare(a, b) == 0 <==> a == b
    ensures Rank(a) == Rank(b) <==> a == b
  {
    IdsAreLex(a.id, b.id, 0);
    IdsAreLex(b.id, a.id, 0);
    assert a.id[0..] == a.id && b.id[0..] == b.id;
    var x, y := [a.ts] + a.id, [b.ts] + b.id;
    assert x[1..] == a.id && y[1..] == b.id;
    ValueIsLex(x, y);
    ValueIsLex(y, x);
  }

  /** Being before a bound is having the smaller rank. */
  lemma BeforeIsRank(item: Item, b: Bound)
    ensures Before(item, b) <==> Rank(item) < BoundRank(b)
  {
    var x := [item.ts] + item.id;
    assert x[1..] == item.id;
    if b.ts == INFINITE {
      var y := [TWO_64] + seq(32, _ => 0);
      assert y[1..] == seq(32, _ => 0);
      ValueIsLex(x, y);
    } else {
      var y := [b.ts] + Padded(b.prefix);
      assert y[1..] == Padded(b.prefix);
      assert item.id[0..] == item.id && Padded(b.prefix)[0..] == Padded(b.prefix);
      PrefixIsLex(item.id, b.prefix, 0);
      ValueIsLex(x, y);
    }
  }

  lemma BoundAtMostTop(b: Bound)
    ensures BoundRank(b) <= Top()
  {
    if b.ts != INFINITE {
      var x, y := [b.ts] + Padded(b.prefix), [TWO_64] + seq(32, _ => 0);
      assert x[1..] == Padded(b.prefix) && y[1..] == seq(32, _ => 0);
      ValueIsLex(x, y);
    }
  }

  /** Bounds of smaller rank have no later timestamp. */
  lemma RankOrdersTimestamps(a: Bound, b: Bound)
    requires BoundRank(a) <= BoundRank(b)
    ensures a.ts <= b.ts
  {
    if b.ts < a.ts {
      var x := [b.ts] + Padded(b.prefix);
      var y := if a.ts == INFINITE then [TWO_64] + seq(32, _ => 0) else [a.ts] + Padded(a.prefix);
      assert x[1..] == Padded(b.prefix) && forall i :: 1 <= i < |y| ==> y[i] < 256;
      ValueIsLex(x, y);
    }
  }

  /** A bound made of an item's own timestamp and id cuts right before it. */
  lemma ItemBoundRank(item: Item)
    requires item.ts < INFINITE
    ensures BoundRank(Bound(item.ts, item.id)) == Rank(item)
  {
    assert Padded(item.id) == item.id;
  }

  // ---------------------------------------------------------- minimal bounds

  /** The minimal bound separates its two neighbours. */
  lemma MinBoundSeparates(prev: Item, curr: Item)
    requires Rank(prev) < Rank(curr) && curr.ts < INFINITE
    ensures Rank(prev) < BoundRank(MinBound(prev, curr)) <= Rank(curr)
  {
    var b := MinBound(prev, curr);
    CompareIsRank(prev, curr);
    BeforeIsRank(prev, b);
    BeforeIsRank(curr, b);
    if prev.ts == curr.ts {
      var n := Shared(prev.id, curr.id, 0);
      assert prev.id[0..n] == curr.id[0..n];
      forall k | 0 <= k < n ensures prev.id[k] == curr.id[k] {
        assert prev.id[0..n][k] == curr.id[0..n][k];
      }
      AgreeThenCompare(prev.id, curr.id, n, 0);
      AgreeThenPrefix(prev.id, curr.id[..n + 1], n, 0);
      AgreeThenPrefix(curr.id, curr.id[..n + 1], n, 0);
    }
  }

  lemma {:induction false} AgreeThenCompare(a: Id, b: Id, n: nat, i: nat)
    requires i <= n < 32 && forall k :: 0 <= k < n ==> a[k] == b[k]
    ensures CompareIds(a, b, i) == CompareIds(a, b, n)
    decreases n - i
  {
    if i < n { AgreeThenCompare(a, b, n, i + 1); }
  }

  lemma {:induction false} AgreeThenPrefix(a: Id, p: Bytes, n: nat, i: nat)
    requires i <= n < 32 && n < |p| && forall k :: 0 <= k < n ==> a[k] == p[k]
    ensures PrefixBefore(a, p, i) == PrefixBefore(a, p, n)
    decreases n - i
  {
    if i < n { AgreeThenPrefix(a, p, n, i + 1); }
  }

  /** ... and no bound that separates them has a shorter prefix. */
  lemma MinBoundShortest(prev: Item, curr: Item, b: Bound)
    requires Before(prev, b) && !Before(curr, b)
    ensures |MinBound(prev, curr).prefix| <= |b.prefix|
  {
    if prev.ts == curr.ts {
      var n := Shared(prev.id, curr.id, 0);
      if |b.prefix| <= n {
        forall k | 0 <= k < n ensures prev.id[k] == curr.id[k] {
          assert prev.id[0..n][k] == curr.id[0..n][k];
        }
        SamePrefix(prev.id, curr.id, b.prefix, 0);
      }
    }
  }

  lemma {:induction false} SamePrefix(a: Id, c: Id, p: Bytes, i: nat)
    requires i <= 32 && forall k :: 0 <= k < |p| && k < 32 ==> a[k] == c[k]
    ensures PrefixBefore(a, p, i) == PrefixBefore(c, p, i)
    decreases 32 - i
  {
    if i < |p| && i < 32 { SamePrefix(a, c, p, i + 1); }
  }

  // ------------------------------------------------------------ sorted lists

  /** What New expects: sorted by (timestamp, id), no item twice, and no item at the infinite timestamp. */
  ghost predicate Sorted(items: seq<Item>) { SortedTo(items, |items|) }

  ghost predicate SortedTo(items: seq<Item>, n: nat)
    requires n <= |items|
  {
    n == 0 || (SortedTo(items, n - 1) && items[n - 1].ts < INFINITE && (n >= 2 ==> Compare(items[n - 2], items[n - 1]) < 0))
  }

  lemma {:induction false} RankLess(items: seq<Item>, i: nat, j: nat)
    requires Sorted(items) && i < j < |items|
    ensures Rank(items[i]) < Rank(items[j])
    decreases j
  {
    hide Rank;
    hide Compare;
    SortedPrefix(items, |items|, j + 1);
    CompareIsRank(items[j - 1], items[j]);
    if i < j - 1 { RankLess(items, i, j - 1); }
  }

  lemma {:induction false} SortedPrefix(items: seq<Item>, n: nat, i: nat)
    requires i <= n <= |items| && SortedTo(items, n)
    ensures SortedTo(items, i)
    decreases n
  {
    if i < n { SortedPrefix(items, n - 1, i); }
  }

  lemma FiniteTs(items: seq<Item>, i: nat)
    requires Sorted(items) && i < |items|
    ensures items[i].ts < INFINITE
  {
    SortedPrefix(items, |items|, i + 1);
  }

  /** How many items have a rank below k. */
  ghost function Cut(items: seq<Item>, k: nat): (n: nat)
    ensures n <= |items|
    ensures 0 < n ==> Rank(items[n - 1]) < k
    ensures n < |items| ==> Rank(items[n]) >= k
  {
    CutTo(items, |items|, k)
  }

  ghost function CutTo(items: seq<Item>, from: nat, k: nat): (n: nat)
    requires from <= |items|
    ensures n <= from
    ensures 0 < n ==> Rank(items[n - 1]) < k
    ensures n < from ==> Rank(items[n]) >= k
  {
    if from == 0 || Rank(items[from - 1]) < k then from else CutTo(items, from - 1, k)
  }

  lemma CutSplits(items: seq<Item>, k: nat, i: nat)
    requires Sorted(items) && i < |items|
    ensures i < Cut(items, k) <==> Rank(items[i]) < k
  {
    hide Rank;
    var n := Cut(items, k);
    if i + 1 < n { RankLess(items, i, n - 1); }
    if n < i { RankLess(items, n, i); }
  }

  /** In a sorted list the cut is the only index with this property. */
  lemma CutIs(items: seq<Item>, k: nat, n: nat)
    requires Sorted(items) && n <= |items|
    requires n > 0 ==> Rank(items[n - 1]) < k
    requires n < |items| ==> Rank(items[n]) >= k
    ensures Cut(items, k) == n
  {
    hide Rank;
    if n > 0 { CutSplits(items, k, n - 1); }
    if n < |items| { CutSplits(items, k, n); }
  }

  lemma CutMonotone(items: seq<Item>, k: nat, l: nat)
    requires k <= l && Sorted(items)
    ensures Cut(items, k) <= Cut(items, l)
  {
    hide Rank;
    if Cut(items, k) > 0 { CutSplits(items, l, Cut(items, k) - 1); }
  }

  /** The slice between two cuts holds exactly the items ranked between them. */
  lemma SliceMembers(items: seq<Item>, k: nat, l: nat, x: Item)
    requires Sorted(items) && k <= l
    ensures Cut(items, k) <= Cut(items, l)
    ensures x in items[Cut(items, k)..Cut(items, l)] <==> x in items && k <= Rank(x) < l
  {
    hide Rank;
    CutMonotone(items, k, l);
    if x in items && k <= Rank(x) < l { SliceHolds(items, k, l, x); }
    if x in items[Cut(items, k)..Cut(items, l)] { SliceWithin(items, k, l, x); }
  }

  lemma SliceHolds(items: seq<Item>, k: nat, l: nat, x: Item)
    requires Sorted(items) && x in items && k <= Rank(x) < l && Cut(items, k) <= Cut(items, l)
    ensures x in items[Cut(items, k)..Cut(items, l)]
  {
    hide Rank;
    var i :| 0 <= i < |items| && items[i] == x;
    CutSplits(items, k, i);
    CutSplits(items, l, i);
    assert items[Cut(items, k)..Cut(items, l)][i - Cut(items, k)] == x;
  }

  lemma SliceWithin(items: seq<Item>, k: nat, l: nat, x: Item)
    requires Sorted(items) && Cut(items, k) <= Cut(items, l) && x in items[Cut(items, k)..Cut(items, l)]
    ensures x in items && k <= Rank(x) < l
  {
    hide Rank;
    var a := Cut(items, k);
    var i :| 0 <= i < Cut(items, l) - a && items[a..Cut(items, l)][i] == x;
    assert items[a + i] == x;
    CutSplits(items, k, a + i);
    CutSplits(items, l, a + i);
  }

  lemma CutTop(items: seq<Item>)
    requires Sorted(items)
    ensures Cut(items, Top()) == |items|
  {
    if items != [] {
      BeforeIsRank(items[|items| - 1], Infinity);
    }
    CutIs(items, Top(), |items|);
  }

  /** lowerBound, as a scan: the first index at or after from whose item is not before bound. */
  function FirstNotBefore(items: seq<Item>, from: nat, bound: Bound): (n: nat)
    requires from <= |items|
    ensures from <= n <= |items|
    ensures from < n ==> Before(items[n - 1], bound)
    ensures n < |items| ==> !Before(items[n], bound)
    decreases |items| - from
  {
    if from < |items| && Before(items[from], bound) then FirstNotBefore(items, from + 1, bound) else from
  }

  ghost function Max(a: nat, b: nat): (m: nat) { if a < b then b else a }

  /** Cutting on from an earlier cut reaches the larger of the two bounds. */
  lemma FirstNotBeforeIsCut(items: seq<Item>, k: nat, bound: Bound)
    requires Sorted(items)
    ensures FirstNotBefore(items, Cut(items, k), bound) == Cut(items, Max(k, BoundRank(bound)))
  {
    hide Rank;
    hide BoundRank;
    hide Before;
    var from := Cut(items, k);
    var n := FirstNotBefore(items, from, bound);
    if n < |items| {
      BeforeIsRank(items[n], bound);
      CutSplits(items, k, n);
    }
    if from < n { BeforeIsRank(items[n - 1], bound); }
    CutIs(items, Max(k, BoundRank(bound)), n);
  }

  lemma FirstNotBeforeUnique(items: seq<Item>, from: nat, bound: Bound, n: nat)
    requires Sorted(items) && from <= n <= |items|
    requires from < n ==> Before(items[n - 1], bound)
    requires n < |items| ==> !Before(items[n], bound)
    ensures n == FirstNotBefore(items, from, bound)
  {
    hide Rank;
    hide BoundRank;
    hide Before;
    var f := FirstNotBefore(items, from, bound);
    if f < |items| { BeforeIsRank(items[f], bound); CutSplits(items, BoundRank(bound), f); }
    if from < f { BeforeIsRank(items[f - 1], bound); CutSplits(items, BoundRank(bound), f - 1); }
    if n < |items| { BeforeIsRank(items[n], bound); CutSplits(items, BoundRank(bound), n); }
    if from < n { BeforeIsRank(items[n - 1], bound); CutSplits(items, BoundRank(bound), n - 1); }
  }

  /** lowerBound, by binary search as sort.Search does it. */
  method LowerBound(items: seq<Item>, from: nat, bound: Bound) returns (n: nat)
    requires from <= |items| && Sorted(items)
    ensures n == FirstNotBefore(items, from, bound)
  {
    var lo, hi := from, |items|;
    while lo < hi
      invariant from <= lo <= hi <= |items|
      invariant lo > from ==> Before(items[lo - 1], bound)
      invariant hi < |items| ==> !Before(items[hi], bound)
    {
      var mid := (lo + hi) / 2;
      if Before(items[mid], bound) { lo := mid + 1; } else { hi := mid; }
    }
    n := lo;
    FirstNotBeforeUnique(items, from, bound, n);
  }
}
