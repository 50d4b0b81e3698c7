/**
  * What a message says about its sender's items.
  *
  * A reader moves through a message by the furthest bound read so far, so range
  * i is the items ranked between the reach of the ranges before it and the
  * reach including it. A message is told truly when every fingerprint and id
  * list in it is that of the sender's own items in its range.
  */
module Telling {
  import opened Items
  import opened Fingerprint
  import opened Codec
  import opened Split
  import opened Reconcile

  /** The two parties' items: a is the initiator's, b the responder's. */
  datatype World = World(hash: Hash, a: seq<Item>, b: seq<Item>)

  ghost function Own(w: World, initiator: bool): seq<Item> { if initiator then w.a else w.b }

  /** An item only one of the two holds. */
  ghost predicate Odd(w: World, x: Item) { (x in w.a) != (x in w.b) }

  // ------------------------------------------------------------- open ranges

  /** x lies in a range that is not a Skip. */
  ghost predicate Open(rs: seq<Range>, x: Item)
  {
    rs != [] &&
    var n := |rs| - 1;
    Open(rs[..n], x) || (rs[n].mode != SKIP && Reach(rs[..n]) <= Rank(x) < Reach(rs))
  }

  lemma OpenAppend(rs: seq<Range>, r: Range, x: Item)
    ensures Open(rs + [r], x) <==>
            Open(rs, x) || (r.mode != SKIP && Reach(rs) <= Rank(x) < Max(Reach(rs), BoundRank(r.bound)))
  {
    hide Rank, BoundRank, Reach;
    assert (rs + [r])[..|rs|] == rs;
    ReachAppend(rs, r);
  }

  lemma {:induction false} OpenExtends(rs: seq<Range>, more: seq<Range>, x: Item)
    requires Open(rs, x)
    ensures Open(rs + more, x)
    decreases |more|
  {
    hide Rank, Reach, BoundRank;
    if more == [] {
      assert rs + more == rs;
    } else {
      var n := |more| - 1;
      OpenExtends(rs, more[..n], x);
      assert rs + more == (rs + more[..n]) + [more[n]];
      OpenAppend(rs + more[..n], more[n], x);
    }
  }

  ghost predicate NoSkips(rs: seq<Range>) { forall i :: 0 <= i < |rs| ==> rs[i].mode != SKIP }

  /** Ranges appended without a Skip leave everything they pass over open. */
  lemma {:induction false} OpenRegion(rs: seq<Range>, more: seq<Range>, x: Item)
    requires more != [] && NoSkips(more) && Reach(rs) <= Rank(x) < Reach(rs + more)
    ensures Open(rs + more, x)
    decreases |more|
  {
    hide Rank, Reach, BoundRank;
    var n := |more| - 1;
    assert rs + more == (rs + more[..n]) + [more[n]];
    ReachAppend(rs + more[..n], more[n]);
    OpenAppend(rs + more[..n], more[n], x);
    assert n == 0 ==> rs + more[..n] == rs;
    if n > 0 && Rank(x) < Reach(rs + more[..n]) { OpenRegion(rs, more[..n], x); }
  }

  /** Nothing past the reach of a message is open in it. */
  lemma {:induction false} OpenWithin(rs: seq<Range>, x: Item)
    requires Open(rs, x)
    ensures Rank(x) < Reach(rs)
  {
    hide Rank, Reach, BoundRank;
    var n := |rs| - 1;
    assert rs == rs[..n] + [rs[n]];
    ReachAppend(rs[..n], rs[n]);
    if Open(rs[..n], x) { OpenWithin(rs[..n], x); }
  }

  /** An open item's own range is not a Skip. */
  lemma {:induction false} OpenMode(rs: seq<Range>, i: nat, x: Item)
    requires i < |rs| && Open(rs, x) && Reach(rs[..i]) <= Rank(x) < Reach(rs[..i + 1])
    ensures rs[i].mode != SKIP
    decreases |rs|
  {
    hide Rank, Reach, BoundRank;
    var n := |rs| - 1;
    assert rs[..n + 1] == rs;
    if i < n {
      assert rs[..n][..i] == rs[..i] && rs[..n][..i + 1] == rs[..i + 1];
      ReachMonotone(rs, i + 1, n);
      OpenMode(rs[..n], i, x);
    } else if Open(rs[..n], x) {
      OpenWithin(rs[..n], x);
    }
  }

  // ------------------------------------------------------------ true telling

  /** r describes items[from..] up to its bound, after ranges that reach before. */
  ghost predicate Describes(w: World, who: bool, rep: set<Id>, before: nat, r: Range, from: nat)
  {
    var items := Own(w, who);
    var to := Cut(items, BoundRank(r.bound));
    && before <= BoundRank(r.bound)
    && Cut(items, before) <= from <= to
    && (r.mode == FINGERPRINT || r.mode == IDLIST)
    && (r.mode == FINGERPRINT ==> r.payload == Print(w.hash, items[from..to]))
    && (r.mode == IDLIST ==> r.payload == IdListBytes(items[from..to]))
    && Known(w, who, rep, Cut(items, before), from)
  }

  /** The items passed over in silence are common to both, or were reported; a responder passes over none. */
  ghost predicate Known(w: World, who: bool, rep: set<Id>, lo: nat, hi: nat)
    requires hi <= |Own(w, who)|
  {
    && (!who ==> lo == hi)
    && forall i :: lo <= i < hi && Odd(w, Own(w, who)[i]) ==> Own(w, who)[i].id in rep
  }

  ghost predicate ToldRange(w: World, who: bool, rep: set<Id>, before: nat, r: Range)
  {
    if r.mode == SKIP then r.payload == [] else exists from: nat :: Describes(w, who, rep, before, r, from)
  }

  ghost predicate Told(w: World, who: bool, rep: set<Id>, rs: seq<Range>)
  {
    rs == [] ||
    var n := |rs| - 1;
    Told(w, who, rep, rs[..n]) && ToldRange(w, who, rep, Reach(rs[..n]), rs[n])
  }

  lemma ToldAppend(w: World, who: bool, rep: set<Id>, rs: seq<Range>, r: Range)
    ensures Told(w, who, rep, rs + [r]) <==> Told(w, who, rep, rs) && ToldRange(w, who, rep, Reach(rs), r)
  {
    hide ToldRange, Reach;
    assert (rs + [r])[..|rs|] == rs;
  }

  lemma {:induction false} ToldAt(w: World, who: bool, rep: set<Id>, rs: seq<Range>, i: nat)
    requires Told(w, who, rep, rs) && i < |rs|
    ensures ToldRange(w, who, rep, Reach(rs[..i]), rs[i])
    decreases |rs|
  {
    hide ToldRange, Reach;
    var n := |rs| - 1;
    if i < n {
      ToldAt(w, who, rep, rs[..n], i);
      assert rs[..n][..i] == rs[..i];
    }
  }

  lemma {:induction false} ToldMonotone(w: World, who: bool, rep: set<Id>, rep': set<Id>, rs: seq<Range>)
    requires Told(w, who, rep, rs) && rep <= rep'
    ensures Told(w, who, rep', rs)
    decreases |rs|
  {
    hide Reach, Cut, BoundRank, Print, IdListBytes;
    if rs != [] {
      var n := |rs| - 1;
      ToldMonotone(w, who, rep, rep', rs[..n]);
      if rs[n].mode != SKIP {
        var from: nat :| Describes(w, who, rep, Reach(rs[..n]), rs[n], from);
        assert Describes(w, who, rep', Reach(rs[..n]), rs[n], from);
      }
    }
  }

  lemma DescribedIsTold(w: World, who: bool, rep: set<Id>, before: nat, r: Range, from: nat)
    requires Describes(w, who, rep, before, r, from)
    ensures ToldRange(w, who, rep, before, r)
  {
    hide Cut, BoundRank, Print, IdListBytes, Known;
  }

  // ------------------------------------------------------------------- order

  /** Bounds that never fall back. */
  ghost predicate Ascending(rs: seq<Range>)
  {
    rs == [] ||
    var n := |rs| - 1;
    Ascending(rs[..n]) && Reach(rs[..n]) <= BoundRank(rs[n].bound)
  }

  lemma AscendingAppend(rs: seq<Range>, r: Range)
    ensures Ascending(rs + [r]) <==> Ascending(rs) && Reach(rs) <= BoundRank(r.bound)
  {
    hide Reach, BoundRank;
    assert (rs + [r])[..|rs|] == rs;
  }

  // --------------------------------------------------------- splits are told

  /** After out, whose reach is at most k, the items from the cut at k on are described next. */
  ghost predicate Gapped(w: World, who: bool, rep: set<Id>, out: seq<Range>, k: nat)
  {
    && Told(w, who, rep, out) && Reach(out) <= k
    && Cut(Own(w, who), Reach(out)) <= Cut(Own(w, who), k)
    && Known(w, who, rep, Cut(Own(w, who), Reach(out)), Cut(Own(w, who), k))
  }

  /** A range that follows a gap and describes everything up to its own bound. */
  lemma DescribeNext(w: World, who: bool, rep: set<Id>, out: seq<Range>, k: nat, r: Range)
    requires Sorted(Own(w, who)) && Gapped(w, who, rep, out, k) && k <= BoundRank(r.bound)
    requires r.mode == FINGERPRINT || r.mode == IDLIST
    requires Cut(Own(w, who), k) <= Cut(Own(w, who), BoundRank(r.bound))
    requires var slice := Own(w, who)[Cut(Own(w, who), k)..Cut(Own(w, who), BoundRank(r.bound))];
      if r.mode == FINGERPRINT then r.payload == Print(w.hash, slice) else r.payload == IdListBytes(slice)
    ensures var k' := BoundRank(r.bound);
      Reach(out + [r]) == k' && Gapped(w, who, rep, out + [r], k') && (Ascending(out) ==> Ascending(out + [r]))
  {
    hide Reach, Cut, BoundRank, Print, IdListBytes, Sorted, Told, ToldRange, Ascending, Known;
    assert Describes(w, who, rep, Reach(out), r, Cut(Own(w, who), k));
    DescribedIsTold(w, who, rep, Reach(out), r, Cut(Own(w, who), k));
    ToldAppend(w, who, rep, out, r);
    ReachAppend(out, r);
    AscendingAppend(out, r);
    KnownNothing(w, who, rep, Cut(Own(w, who), BoundRank(r.bound)));
  }

  lemma KnownNothing(w: World, who: bool, rep: set<Id>, n: nat)
    requires n <= |Own(w, who)|
    ensures Known(w, who, rep, n, n)
  {
  }

  lemma {:induction false} BucketsTold(w: World, who: bool, rep: set<Id>, out: seq<Range>, k: nat, bound: Bound, n: nat)
    requires Sorted(Own(w, who)) && Gapped(w, who, rep, out, k) && k <= BoundRank(bound) && 1 <= n <= 16
    requires Cut(Own(w, who), BoundRank(bound)) - Cut(Own(w, who), k) >= 32
    ensures var items, lower, upper := Own(w, who), Cut(Own(w, who), k), Cut(Own(w, who), BoundRank(bound));
      var rs := Buckets(w.hash, items, lower, upper, bound, n);
      var k' := BoundRank(rs[n - 1].bound);
      && k < k' && Reach(out + rs) == k' && Gapped(w, who, rep, out + rs, k')
      && Cut(items, k') == lower + Offset(upper - lower, n)
      && (n == 16 ==> rs[15].bound == bound)
      && (Ascending(out) ==> Ascending(out + rs))
    decreases n
  {
    hide Reach, Cut, BoundRank, Rank, Print, Sorted, Gapped, Ascending, Bucket, Offset;
    var items, lower, upper := Own(w, who), Cut(Own(w, who), k), Cut(Own(w, who), BoundRank(bound));
    var num := upper - lower;
    var b := Bucket(w.hash, items, lower, upper, bound, n - 1);
    BucketSays(w.hash, items, k, bound, n - 1, lower + Offset(num, n - 1));
    var rs := Buckets(w.hash, items, lower, upper, bound, n - 1);
    assert Buckets(w.hash, items, lower, upper, bound, n) == rs + [b];
    if n == 1 {
      OffsetSteps(num, 0);
      assert out + (rs + [b]) == out + [b];
      DescribeNext(w, who, rep, out, k, b);
    } else {
      BucketsTold(w, who, rep, out, k, bound, n - 1);
      CutOrder(items, BoundRank(rs[n - 2].bound), BoundRank(b.bound));
      assert out + (rs + [b]) == (out + rs) + [b];
      DescribeNext(w, who, rep, out + rs, BoundRank(rs[n - 2].bound), b);
    }
  }

  /** Where the buckets end so far. */
  lemma BucketsEnd(w: World, who: bool, rep: set<Id>, out: seq<Range>, k: nat, bound: Bound, n: nat)
    requires Sorted(Own(w, who)) && Gapped(w, who, rep, out, k) && k <= BoundRank(bound) && 1 <= n <= 16
    requires Cut(Own(w, who), BoundRank(bound)) - Cut(Own(w, who), k) >= 32
    ensures var items, lower, upper := Own(w, who), Cut(Own(w, who), k), Cut(Own(w, who), BoundRank(bound));
      var at := Reach(out + Buckets(w.hash, items, lower, upper, bound, n));
      k < at && Cut(items, at) == lower + Offset(upper - lower, n)
  {
    hide Reach, Cut, BoundRank, Sorted, Gapped, Buckets, Own, Offset, Ascending;
    BucketsTold(w, who, rep, out, k, bound, n);
  }

  /** A split, written after a gap, is told truly and reaches exactly the range's own bound. */
  lemma SplitTold(w: World, who: bool, rep: set<Id>, out: seq<Range>, k: nat, bound: Bound)
    requires Sorted(Own(w, who)) && Gapped(w, who, rep, out, k) && k <= BoundRank(bound)
    ensures var items, lower, upper := Own(w, who), Cut(Own(w, who), k), Cut(Own(w, who), BoundRank(bound));
      && lower <= upper
      && var rs := SplitSpec(w.hash, items, lower, upper, bound);
      && NoSkips(rs) && Reach(out + rs) == BoundRank(bound)
      && Gapped(w, who, rep, out + rs, BoundRank(bound))
      && (Ascending(out) ==> Ascending(out + rs))
  {
    hide Reach, Cut, BoundRank, Rank, Print, Sorted, Gapped, Ascending, Buckets, IdListBytes;
    var items, lower, upper := Own(w, who), Cut(Own(w, who), k), Cut(Own(w, who), BoundRank(bound));
    CutMonotone(items, k, BoundRank(bound));
    var rs := SplitSpec(w.hash, items, lower, upper, bound);
    if upper - lower < 32 {
      DescribeNext(w, who, rep, out, k, rs[0]);
      assert rs == [rs[0]];
    } else {
      BucketsTold(w, who, rep, out, k, bound, 16);
      BucketsNoSkips(w.hash, items, lower, upper, bound, 16);
    }
  }

  lemma {:induction false} BucketsNoSkips(hash: Hash, items: seq<Item>, lower: nat, upper: nat, bound: Bound, n: nat)
    requires lower <= upper <= |items| && upper - lower >= 32 && n <= 16
    ensures NoSkips(Buckets(hash, items, lower, upper, bound, n))
    decreases n
  {
    hide Bucket, Offset;
    if n > 0 {
      BucketsNoSkips(hash, items, lower, upper, bound, n - 1);
      BucketIs(hash, items, lower, upper, bound, n - 1, lower + Offset(upper - lower, n));
      assert Bucket(hash, items, lower, upper, bound, n - 1).mode != SKIP;
    }
  }
}
