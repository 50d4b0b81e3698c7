/**
  * Splitting a mismatched range (nip77/reconcile.go:166-192): an id list when
  * it is small, else sixteen fingerprinted buckets cut at minimal bounds.
  */
module Split {
  import opened Words
  import opened Items
  import opened Fingerprint
  import opened Codec

  /** The size of bucket i among num items: the first num % 16 hold one more. */
  function Size(num: nat, i: nat): (n: nat) { num / 16 + (if i < num % 16 then 1 else 0) }

  /** Where bucket i starts. */
  function Offset(num: nat, i: nat): (n: nat)
  {
    if i == 0 then 0 else Offset(num, i - 1) + Size(num, i - 1)
  }

  lemma {:induction false} OffsetClosed(num: nat, i: nat)
    ensures Offset(num, i) == i * (num / 16) + (if i < num % 16 then i else num % 16)
  {
    if i > 0 {
      OffsetClosed(num, i - 1);
      assert i * (num / 16) == (i - 1) * (num / 16) + num / 16;
    }
  }

  lemma StepsBelow(per: nat, i: nat)
    requires i < 16 && per >= 2
    ensures (i + 1) * per <= 16 * per
    ensures i < 15 ==> (i + 1) * per + 2 <= 16 * per
  {
    assert 16 * per == (i + 1) * per + (15 - i) * per;
  }

  /** The sizes sum to the whole, no bucket is empty, and only the last ends at the end. */
  lemma OffsetSteps(num: nat, i: nat)
    requires i < 16 && num >= 32
    ensures Offset(num, 0) == 0 && Offset(num, 16) == num
    ensures 2 <= num / 16 <= Size(num, i) <= num / 16 + 1 && Size(num, i) <= (num + 15) / 16
    ensures Offset(num, i + 1) == Offset(num, i) + Size(num, i) <= num
    ensures i < 15 <==> Offset(num, i + 1) < num
  {
    hide Offset;
    OffsetClosed(num, 0);
    OffsetClosed(num, 16);
    OffsetClosed(num, i);
    OffsetClosed(num, i + 1);
    assert (i + 1) * (num / 16) == i * (num / 16) + num / 16;
    StepsBelow(num / 16, i);
  }

  /** The bounds of the buckets: a minimal bound between neighbours, the range's own bound at the end. */
  ghost function BucketBound(items: seq<Item>, curr: nat, upper: nat, bound: Bound): Bound
    requires 0 < curr <= upper <= |items|
  {
    if curr == upper then bound else MinBound(items[curr - 1], items[curr])
  }

  /** Bucket i of items[lower..upper]. */
  ghost function Bucket(hash: Hash, items: seq<Item>, lower: nat, upper: nat, bound: Bound, i: nat): Range
    requires lower <= upper <= |items| && upper - lower >= 32 && i < 16
  {
    OffsetSteps(upper - lower, i);
    var from := lower + Offset(upper - lower, i);
    var to := from + Size(upper - lower, i);
    Range(BucketBound(items, to, upper, bound), FINGERPRINT, Print(hash, items[from..to]))
  }

  lemma BucketIs(hash: Hash, items: seq<Item>, lower: nat, upper: nat, bound: Bound, i: nat, to: nat)
    requires lower <= upper <= |items| && upper - lower >= 32 && i < 16
    requires to == lower + Offset(upper - lower, i + 1)
    ensures 0 < to <= upper
    ensures Bucket(hash, items, lower, upper, bound, i)
         == Range(BucketBound(items, to, upper, bound), FINGERPRINT, Print(hash, items[to - Size(upper - lower, i)..to]))
  {
    hide Print, BucketBound, Offset, Size;
    OffsetSteps(upper - lower, i);
  }

  /** The first n buckets. */
  ghost function Buckets(hash: Hash, items: seq<Item>, lower: nat, upper: nat, bound: Bound, n: nat): (rs: seq<Range>)
    requires lower <= upper <= |items| && upper - lower >= 32 && n <= 16
    ensures |rs| == n
  {
    if n == 0 then []
    else Buckets(hash, items, lower, upper, bound, n - 1) + [Bucket(hash, items, lower, upper, bound, n - 1)]
  }

  ghost function SplitSpec(hash: Hash, items: seq<Item>, lower: nat, upper: nat, bound: Bound): (rs: seq<Range>)
    requires lower <= upper <= |items|
    ensures |rs| > 0
  {
    if upper - lower < 32 then [Range(bound, IDLIST, IdListBytes(items[lower..upper]))]
    else Buckets(hash, items, lower, upper, bound, 16)
  }

  /** splitRange. */
  method SplitRange(hash: Hash, items: seq<Item>, lower: nat, upper: nat, bound: Bound) returns (out: seq<Range>)
    requires lower <= upper <= |items| && |items| < TWO_64
    ensures out == SplitSpec(hash, items, lower, upper, bound)
  {
    hide IdListBytes, Offset, Bucket, Size;
    var num := upper - lower;
    if num < 2 * 16 {
      var payload := EncodeIdList(items[lower..upper]);
      return [Range(bound, IDLIST, payload)];
    }
    var per, extra := num / 16, num % 16;
    out := [];
    OffsetSteps(num, 0);
    var curr := lower;
    for i := 0 to 16
      invariant curr == lower + Offset(num, i) <= upper
      invariant out == Buckets(hash, items, lower, upper, bound, i)
    {
      OffsetSteps(num, i);
      SizeIs(num, i);
      var size := per;
      if i < extra { size := size + 1; }
      var r := NextBucket(hash, items, lower, upper, bound, i, curr, size);
      curr := curr + size;
      out := out + [r];
    }
  }

  lemma SizeIs(num: nat, i: nat)
    ensures Size(num, i) == if i < num % 16 then num / 16 + 1 else num / 16
  {
  }

  /** One turn of splitRange's loop: the bucket of size items from curr on. */
  method NextBucket(hash: Hash, items: seq<Item>, lower: nat, upper: nat, bound: Bound, i: nat, curr: nat, size: nat) returns (r: Range)
    requires lower <= upper <= |items| && |items| < TWO_64 && upper - lower >= 32 && i < 16
    requires curr == lower + Offset(upper - lower, i) && size == Size(upper - lower, i)
    ensures r == Bucket(hash, items, lower, upper, bound, i)
  {
    hide Print, IsFingerprint, MinBound, Offset, Size, Bucket;
    OffsetSteps(upper - lower, i);
    BucketIs(hash, items, lower, upper, bound, i, curr + size);
    var fp := ComputeFingerprint(hash, items[curr..curr + size]);
    var b := bound;
    if curr + size != upper { b := MinimalBound(items[curr + size - 1], items[curr + size]); }
    r := Range(b, FINGERPRINT, fp);
  }

  // ------------------------------------------------------------ what it cuts

  /** The furthest rank a list of ranges reaches: bounds only ever move a reader forward. */
  ghost function Reach(rs: seq<Range>): (k: nat)
  {
    if rs == [] then 0 else Max(Reach(rs[..|rs| - 1]), BoundRank(rs[|rs| - 1].bound))
  }

  lemma ReachAppend(rs: seq<Range>, r: Range)
    ensures Reach(rs + [r]) == Max(Reach(rs), BoundRank(r.bound))
  {
    hide BoundRank;
    assert (rs + [r])[..|rs|] == rs;
  }

  lemma ReachPrefix(rs: seq<Range>, i: nat)
    requires i < |rs|
    ensures Reach(rs[..i + 1]) == Max(Reach(rs[..i]), BoundRank(rs[i].bound))
  {
    hide BoundRank, Reach;
    assert rs[..i + 1] == rs[..i] + [rs[i]];
    ReachAppend(rs[..i], rs[i]);
  }

  lemma {:induction false} ReachMonotone(rs: seq<Range>, i: nat, j: nat)
    requires i <= j <= |rs|
    ensures Reach(rs[..i]) <= Reach(rs[..j])
    decreases j
  {
    hide Reach, BoundRank;
    if i < j {
      ReachPrefix(rs, j - 1);
      ReachMonotone(rs, i, j - 1);
    }
  }

  /** The bound of bucket i cuts the items right after that bucket. */
  lemma BucketCut(items: seq<Item>, k: nat, bound: Bound, num: nat, i: nat)
    requires Sorted(items) && i < 16
    requires k <= BoundRank(bound) && num == Cut(items, BoundRank(bound)) - Cut(items, k) && num >= 32
    ensures var lower, upper := Cut(items, k), Cut(items, BoundRank(bound));
      var to := lower + Offset(num, i + 1);
      && lower < to <= upper
      && Cut(items, BoundRank(BucketBound(items, to, upper, bound))) == to
      && k <= Rank(items[to - 1]) < BoundRank(BucketBound(items, to, upper, bound)) <= BoundRank(bound)
      && (to < upper ==> BoundRank(BucketBound(items, to, upper, bound)) <= Rank(items[to]))
  {
    hide Rank, BoundRank, MinBound, Cut, Offset;
    var lower, upper := Cut(items, k), Cut(items, BoundRank(bound));
    OffsetSteps(num, i);
    var to := lower + Offset(num, i + 1);
    CutSplits(items, k, to - 1);
    CutSplits(items, BoundRank(bound), to - 1);
    if to < upper {
      RankLess(items, to - 1, to);
      FiniteTs(items, to);
      MinBoundSeparates(items[to - 1], items[to]);
      CutSplits(items, BoundRank(bound), to);
      CutIs(items, BoundRank(MinBound(items[to - 1], items[to])), to);
    }
  }

  lemma {:induction false} BucketsIndex(hash: Hash, items: seq<Item>, lower: nat, upper: nat, bound: Bound, n: nat, i: nat)
    requires lower <= upper <= |items| && upper - lower >= 32 && i < n <= 16
    ensures Buckets(hash, items, lower, upper, bound, n)[i] == Bucket(hash, items, lower, upper, bound, i)
    decreases n
  {
    hide Bucket;
    if i < n - 1 { BucketsIndex(hash, items, lower, upper, bound, n - 1, i); }
  }

  /** Where re-cutting the items at the bound of bucket i - 1 stands: the start of bucket i. */
  lemma RecutAt(hash: Hash, items: seq<Item>, k: nat, bound: Bound, i: nat)
    requires Sorted(items) && i < 16 && k <= BoundRank(bound)
    requires Cut(items, BoundRank(bound)) - Cut(items, k) >= 32
    ensures var lower, upper := Cut(items, k), Cut(items, BoundRank(bound));
      var b := Bucket(hash, items, lower, upper, bound, i);
      && k < BoundRank(b.bound) <= BoundRank(bound)
      && (i == 15 ==> b.bound == bound)
      && FirstNotBefore(items, lower, b.bound) == Cut(items, BoundRank(b.bound)) == lower + Offset(upper - lower, i + 1)
  {
    hide Rank, BoundRank, Cut, Offset, Sorted, Bucket, FirstNotBefore, Print;
    var lower, upper := Cut(items, k), Cut(items, BoundRank(bound));
    var to := lower + Offset(upper - lower, i + 1);
    BucketCut(items, k, bound, upper - lower, i);
    OffsetSteps(upper - lower, i);
    BucketIs(hash, items, lower, upper, bound, i, to);
    FirstNotBeforeIsCut(items, k, BucketBound(items, to, upper, bound));
  }

  /** What bucket i says, in terms of where the reader stands before it. */
  lemma BucketSays(hash: Hash, items: seq<Item>, k: nat, bound: Bound, i: nat, from: nat)
    requires Sorted(items) && i < 16 && k <= BoundRank(bound)
    requires Cut(items, BoundRank(bound)) - Cut(items, k) >= 32
    requires from == Cut(items, k) + Offset(Cut(items, BoundRank(bound)) - Cut(items, k), i)
    ensures var b := Bucket(hash, items, Cut(items, k), Cut(items, BoundRank(bound)), bound, i);
      var to := Cut(items, BoundRank(b.bound));
      && k < BoundRank(b.bound) <= BoundRank(bound) && (i == 15 ==> b.bound == bound)
      && from < to == Cut(items, k) + Offset(Cut(items, BoundRank(bound)) - Cut(items, k), i + 1)
      && to - from <= (Cut(items, BoundRank(bound)) - Cut(items, k) + 15) / 16
      && b.mode == FINGERPRINT && b.payload == Print(hash, items[from..to])
  {
    hide BoundRank, Cut, Offset, Sorted, Bucket, FirstNotBefore, Print;
    var lower, upper := Cut(items, k), Cut(items, BoundRank(bound));
    BucketBounds(hash, items, k, bound, i, lower, upper);
    BucketHolds(hash, items, lower, upper, bound, i, from);
  }

  /** Where bucket i ends. */
  lemma BucketBounds(hash: Hash, items: seq<Item>, k: nat, bound: Bound, i: nat, lower: nat, upper: nat)
    requires Sorted(items) && i < 16 && k <= BoundRank(bound)
    requires lower == Cut(items, k) && upper == Cut(items, BoundRank(bound)) && upper - lower >= 32
    ensures var b := Bucket(hash, items, lower, upper, bound, i).bound;
      && k < BoundRank(b) <= BoundRank(bound) && (i == 15 ==> b == bound)
      && Cut(items, BoundRank(b)) == lower + Offset(upper - lower, i + 1)
  {
    hide BoundRank, Cut, Offset, Sorted, Bucket, FirstNotBefore, Print;
    RecutAt(hash, items, k, bound, i);
  }

  /** The slice a bucket fingerprints. */
  lemma BucketHolds(hash: Hash, items: seq<Item>, lower: nat, upper: nat, bound: Bound, i: nat, from: nat)
    requires lower <= upper <= |items| && upper - lower >= 32 && i < 16 && from == lower + Offset(upper - lower, i)
    ensures var b, to := Bucket(hash, items, lower, upper, bound, i), lower + Offset(upper - lower, i + 1);
      && from < to <= upper && to - from <= (upper - lower + 15) / 16
      && b.mode == FINGERPRINT && b.payload == Print(hash, items[from..to])
  {
    hide Offset, Bucket, Print, Size;
    OffsetSteps(upper - lower, i);
    BucketIs(hash, items, lower, upper, bound, i, lower + Offset(upper - lower, i + 1));
  }

  /** Bucket i ends beyond where it starts. */
  lemma BucketEnds(hash: Hash, items: seq<Item>, k: nat, bound: Bound, i: nat)
    requires Sorted(items) && i < 16 && k <= BoundRank(bound)
    requires Cut(items, BoundRank(bound)) - Cut(items, k) >= 32
    ensures var lower, upper := Cut(items, k), Cut(items, BoundRank(bound));
      var end := BoundRank(Bucket(hash, items, lower, upper, bound, i).bound);
      k < end && lower + Offset(upper - lower, i) < Cut(items, end)
  {
    hide BoundRank, Cut, Offset, Sorted, Bucket, FirstNotBefore, Size;
    RecutAt(hash, items, k, bound, i);
    OffsetSteps(Cut(items, BoundRank(bound)) - Cut(items, k), i);
  }

  /**
    * A split range cut again at its own bounds, by the reader's search over the
    * same items, gives back exactly the slices that were fingerprinted; the
    * bounds strictly ascend to the range's own, and the bucket sizes differ by
    * at most one.
    */
  lemma SplitAgreement(hash: Hash, items: seq<Item>, k: nat, bound: Bound, i: nat)
    requires Sorted(items) && i < 16 && k <= BoundRank(bound)
    requires Cut(items, BoundRank(bound)) - Cut(items, k) >= 32
    ensures var lower, upper := Cut(items, k), Cut(items, BoundRank(bound));
      var rs := SplitSpec(hash, items, lower, upper, bound);
      && |rs| == 16 && rs[15].bound == bound
      && k < BoundRank(rs[i].bound)
      && (i > 0 ==> BoundRank(rs[i - 1].bound) < BoundRank(rs[i].bound))
      && var from := if i == 0 then lower else FirstNotBefore(items, lower, rs[i - 1].bound);
      var to := FirstNotBefore(items, from, rs[i].bound);
      && rs[i].mode == FINGERPRINT && rs[i].payload == Print(hash, items[from..to])
      && (upper - lower) / 16 <= to - from <= (upper - lower) / 16 + 1
  {
    hide BoundRank, Cut, Offset, Sorted, Bucket, FirstNotBefore, Print, SplitSpec;
    var lower, upper := Cut(items, k), Cut(items, BoundRank(bound));
    SplitAt(hash, items, lower, upper, bound, i);
    SplitAt(hash, items, lower, upper, bound, 15);
    BucketBounds(hash, items, k, bound, i, lower, upper);
    BucketBounds(hash, items, k, bound, 15, lower, upper);
    if i > 0 {
      SplitAt(hash, items, lower, upper, bound, i - 1);
      RecutNext(hash, items, k, bound, i);
    }
    RecutSplit(hash, items, k, bound, i, lower, upper);
    RecutHolds(hash, items, lower, upper, bound, i, lower + Offset(upper - lower, i), lower + Offset(upper - lower, i + 1));
  }

  /** The reader's search over the same items stands where bucket i starts and then where it ends. */
  lemma RecutSplit(hash: Hash, items: seq<Item>, k: nat, bound: Bound, i: nat, lower: nat, upper: nat)
    requires Sorted(items) && i < 16 && k <= BoundRank(bound)
    requires lower == Cut(items, k) && upper == Cut(items, BoundRank(bound)) && upper - lower >= 32
    ensures var rs := SplitSpec(hash, items, lower, upper, bound);
      && |rs| == 16
      && var from := if i == 0 then lower else FirstNotBefore(items, lower, rs[i - 1].bound);
      from == lower + Offset(upper - lower, i) && FirstNotBefore(items, from, rs[i].bound) == lower + Offset(upper - lower, i + 1)
  {
    hide BoundRank, Cut, Offset, Sorted, Bucket, FirstNotBefore, SplitSpec;
    SplitAt(hash, items, lower, upper, bound, i);
    if i > 0 {
      SplitAt(hash, items, lower, upper, bound, i - 1);
      RecutNext(hash, items, k, bound, i);
    } else {
      RecutAt(hash, items, k, bound, 0);
      OffsetSteps(upper - lower, 0);
    }
  }

  lemma RecutHolds(hash: Hash, items: seq<Item>, lower: nat, upper: nat, bound: Bound, i: nat, from: nat, to: nat)
    requires lower <= upper <= |items| && upper - lower >= 32 && i < 16
    requires from == lower + Offset(upper - lower, i) && to == lower + Offset(upper - lower, i + 1)
    ensures |SplitSpec(hash, items, lower, upper, bound)| == 16 && from <= to <= upper
    ensures var r := SplitSpec(hash, items, lower, upper, bound)[i];
      r.mode == FINGERPRINT && r.payload == Print(hash, items[from..to])
    ensures (upper - lower) / 16 <= to - from <= (upper - lower) / 16 + 1
  {
    hide Offset, Bucket, Print, SplitSpec;
    SplitAt(hash, items, lower, upper, bound, i);
    BucketHolds(hash, items, lower, upper, bound, i, from);
    EvenSizes(upper - lower, i);
  }

  lemma SplitAt(hash: Hash, items: seq<Item>, lower: nat, upper: nat, bound: Bound, i: nat)
    requires lower <= upper <= |items| && upper - lower >= 32 && i < 16
    ensures var rs := SplitSpec(hash, items, lower, upper, bound);
      |rs| == 16 && rs[i] == Bucket(hash, items, lower, upper, bound, i)
  {
    hide Bucket, Buckets, IdListBytes;
    BucketsIndex(hash, items, lower, upper, bound, 16, i);
  }

  lemma EvenSizes(num: nat, i: nat)
    requires i < 16 && num >= 32
    ensures Offset(num, 0) == 0 && num / 16 <= Offset(num, i + 1) - Offset(num, i) <= num / 16 + 1
  {
    hide Offset;
    OffsetSteps(num, i);
  }

  /** Re-cutting at one bucket's bound and then at the next. */
  lemma RecutNext(hash: Hash, items: seq<Item>, k: nat, bound: Bound, i: nat)
    requires Sorted(items) && 0 < i < 16 && k <= BoundRank(bound)
    requires Cut(items, BoundRank(bound)) - Cut(items, k) >= 32
    ensures var lower, upper := Cut(items, k), Cut(items, BoundRank(bound));
      var a, b := Bucket(hash, items, lower, upper, bound, i - 1).bound, Bucket(hash, items, lower, upper, bound, i).bound;
      var from := FirstNotBefore(items, lower, a);
      && BoundRank(a) < BoundRank(b) && from == lower + Offset(upper - lower, i)
      && FirstNotBefore(items, from, b) == lower + Offset(upper - lower, i + 1)
  {
    hide BoundRank, Cut, Offset, Sorted, Bucket, FirstNotBefore, Size;
    var lower, upper := Cut(items, k), Cut(items, BoundRank(bound));
    RecutAt(hash, items, k, bound, i);
    RecutAt(hash, items, k, bound, i - 1);
    OffsetSteps(upper - lower, i);
    var a, b := Bucket(hash, items, lower, upper, bound, i - 1).bound, Bucket(hash, items, lower, upper, bound, i).bound;
    CutOrder(items, BoundRank(a), BoundRank(b));
    FirstNotBeforeIsCut(items, BoundRank(a), b);
  }

  lemma CutOrder(items: seq<Item>, a: nat, b: nat)
    requires Sorted(items) && Cut(items, a) < Cut(items, b)
    ensures a < b
  {
    hide Rank, Sorted;
    if b <= a { CutMonotone(items, b, a); }
  }
}
