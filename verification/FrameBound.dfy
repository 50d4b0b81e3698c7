/**
  * The frame limit holds (nip77/reconcile.go:87-119, 148-156, 213-217): however
  * an answer ends, its encoding fits the limit, or passes it by no more than what
  * the peer's own bounds take over 32 bytes of prefix.
  */
module FrameBound {
  import opened Words
  import opened Items
  import opened Varints
  import opened Fingerprint
  import opened Codec
  import opened Split
  import opened Frame
  import opened Reconcile

  ghost predicate PrefixesWithin(rs: seq<Range>, width: nat) { forall i :: 0 <= i < |rs| ==> |rs[i].bound.prefix| <= width }

  /** Bound prefixes no longer than an id. */
  ghost predicate ShortPrefixes(rs: seq<Range>) { PrefixesWithin(rs, 32) }

  /** The longest prefix, or that of an id. */
  function Widest(rs: seq<Range>): (width: nat)
    ensures width >= 32
    ensures forall i :: 0 <= i < |rs| ==> |rs[i].bound.prefix| <= width
  {
    if rs == [] then 32
    else
      var n := |rs| - 1;
      var width := Widest(rs[..n]);
      assert forall i :: 0 <= i < n ==> rs[..n][i] == rs[i];
      if |rs[n].bound.prefix| > width then |rs[n].bound.prefix| else width
  }

  /** Room for the closing ranges is left, and whatever is pending is within the width. */
  ghost predicate RoomyWithin(p: Party, t: Turn, width: nat)
  {
    && AllWritable(t.out) && PrefixesWithin(t.out, width) && |t.prevBound.prefix| <= width
    && (p.limit > 0 ==> EncodedLen(t.out) <= if t.closed then p.limit - 48 + 3 * Excess(width) else p.limit - 200)
  }

  ghost predicate Roomy(p: Party, t: Turn) { RoomyWithin(p, t, 32) }

  lemma AppendShort(out: seq<Range>, r: Range, extra: nat, width: nat)
    requires AllWritable(out) && PrefixesWithin(out, width) && Writable(r) && |r.bound.prefix| <= width
    requires extra >= (if r.mode == FINGERPRINT then 16 else if r.mode == IDLIST then |r.payload| else 0)
    ensures AllWritable(out + [r]) && PrefixesWithin(out + [r], width)
    ensures EncodedLen(out + [r]) <= EncodedLen(out) + 44 + Excess(width) + extra
  {
    hide EncodedLen, RangeBytes, LastTs, Excess;
    EncodedLenAppend(out, r);
    RangeAtMost(r, LastTs(out, 0), width);
  }

  lemma AppendRest(p: Party, out: seq<Range>, from: nat, width: nat)
    requires AllWritable(out) && PrefixesWithin(out, width) && from <= |p.items|
    ensures var out' := out + [RestFrom(p, from)];
      AllWritable(out') && PrefixesWithin(out', width) && EncodedLen(out') == EncodedLen(out) + 19
  {
    hide EncodedLen, RangeBytes, LastTs, Print;
    EncodedLenAppend(out, RestFrom(p, from));
    RangeAtMost(RestFrom(p, from), LastTs(out, 0), 32);
  }

  lemma AppendPending(p: Party, t: Turn, width: nat)
    requires RoomyWithin(p, t, width)
    ensures var out' := t.out + Pending(t);
      AllWritable(out') && PrefixesWithin(out', width) && EncodedLen(out') <= EncodedLen(t.out) + 44 + Excess(width)
  {
    hide EncodedLen, Excess;
    if t.skip { AppendShort(t.out, SkipTo(t.prevBound), 0, width); } else { assert t.out + Pending(t) == t.out; }
  }

  lemma {:induction false} BucketsShort(hash: Hash, items: seq<Item>, lower: nat, upper: nat, bound: Bound, n: nat, width: nat)
    requires lower <= upper <= |items| && upper - lower >= 32 && n <= 16 && |bound.prefix| <= width && 32 <= width
    ensures PrefixesWithin(Buckets(hash, items, lower, upper, bound, n), width)
    decreases n
  {
    hide Bucket;
    if n > 0 {
      BucketsShort(hash, items, lower, upper, bound, n - 1, width);
      BucketShort(hash, items, lower, upper, bound, n - 1, width);
    }
  }

  lemma BucketShort(hash: Hash, items: seq<Item>, lower: nat, upper: nat, bound: Bound, i: nat, width: nat)
    requires lower <= upper <= |items| && upper - lower >= 32 && i < 16 && |bound.prefix| <= width && 32 <= width
    ensures |Bucket(hash, items, lower, upper, bound, i).bound.prefix| <= width
    ensures Bucket(hash, items, lower, upper, bound, i).mode == FINGERPRINT
  {
    hide Print, Offset, Shared, Size, Bucket;
    BucketIs(hash, items, lower, upper, bound, i, lower + Offset(upper - lower, i + 1));
  }

  lemma SplitShort(hash: Hash, items: seq<Item>, lower: nat, upper: nat, bound: Bound, width: nat)
    requires lower <= upper <= |items| && |bound.prefix| <= width && 32 <= width
    ensures PrefixesWithin(SplitSpec(hash, items, lower, upper, bound), width)
  {
    hide IdListBytes, Buckets;
    if upper - lower >= 32 { BucketsShort(hash, items, lower, upper, bound, 16, width); }
  }

  /** The id list of an answer, cut or not, leaves room for the two closing ranges. */
  lemma ListRoom(p: Party, t: Turn, r: Range, upper: nat, width: nat)
    requires RoomyWithin(p, t, width) && !t.closed && t.prevIdx <= upper <= |p.items| && |r.bound.prefix| <= width && 32 <= width
    ensures var m := ListReply(p, t, r, upper);
      && m.o == [] && AllWritable(m.out) && PrefixesWithin(m.out, width)
      && (p.limit > 0 ==> EncodedLen(m.out) <= p.limit - 111 + 2 * Excess(width))
  {
    hide EncodedLen, IdListBytes, Excess;
    var base := EncodedLen(t.out + Pending(t));
    AppendPending(p, t, width);
    var e := ListEnd(p.limit, base, t.prevIdx, t.prevIdx, upper);
    var ids := p.items[t.prevIdx..e];
    var list := Range(if e < upper then Bound(p.items[e].ts, p.items[e].id) else r.bound, IDLIST, IdListBytes(ids));
    ListPayload(ids);
    AppendShort(t.out + Pending(t), list, |list.payload|, width);
  }

  lemma ListPayload(ids: seq<Item>)
    ensures |IdListBytes(ids)| <= 10 + 32 * |ids|
    ensures |ids| == 0 ==> |IdListBytes(ids)| == 1
  {
    VarintAtMostTen(Wrap64(|ids|));
    if |ids| == 0 { VarintSmall(0); }
    hide Varint, Wrap64;
  }

  lemma FinishRoom(p: Party, t: Turn, m: Mid, bound: Bound, width: nat)
    requires Fits(p, t) && m.writtenIdx <= |p.items| && m.upper <= |p.items|
    requires RoomyWithin(p, t, width) && !t.closed && |bound.prefix| <= width
    requires AllWritable(m.out) && PrefixesWithin(m.out, width) && AllWritable(m.o) && PrefixesWithin(m.o, width)
    requires p.limit > 0 ==> EncodedLen(m.out) <= p.limit - 111 + 2 * Excess(width)
    ensures RoomyWithin(p, Finish(p, t, m, bound), width)
  {
    hide EncodedLen, RestFrom, Excess;
    AppendRest(p, m.out, m.writtenIdx, width);
    if t.skip {
      AppendShort(m.out, SkipTo(t.prevBound), 0, width);
      AppendRest(p, m.out + [SkipTo(t.prevBound)], t.prevIdx, width);
    }
    JoinShort(m.out, m.o, width);
  }

  lemma JoinShort(a: seq<Range>, b: seq<Range>, width: nat)
    requires AllWritable(a) && PrefixesWithin(a, width) && AllWritable(b) && PrefixesWithin(b, width)
    ensures AllWritable(a + b) && PrefixesWithin(a + b, width)
  {
    hide Writable;
  }

  lemma StepRoomWithin(p: Party, t: Turn, r: Range, width: nat)
    requires Fits(p, t) && RoomyWithin(p, t, width) && !t.closed && |r.bound.prefix| <= width && 32 <= width
    ensures var o := Step(p, t, r); o.Going? ==> RoomyWithin(p, o.turn, width)
  {
    hide EncodedLen, FirstNotBefore, SplitSpec, Tallied, Print, ListReply, Finish, Excess;
    var upper := FirstNotBefore(p.items, t.prevIdx, r.bound);
    var tally := Tallied(p, t, r, upper);
    if tally.Some? {
      var t' := t.(tally := tally.value);
      SplitWritable(p.hash, p.items, t.prevIdx, upper, r.bound);
      SplitShort(p.hash, p.items, t.prevIdx, upper, r.bound, width);
      ListRoom(p, t', r, upper, width);
      JoinShort(Pending(t'), SplitSpec(p.hash, p.items, t.prevIdx, upper, r.bound), width);
      FinishRoom(p, t', Reply(p, t', r, upper), r.bound, width);
    }
  }

  lemma StepRoom(p: Party, t: Turn, r: Range)
    requires Fits(p, t) && Roomy(p, t) && !t.closed && |r.bound.prefix| <= 32
    ensures var o := Step(p, t, r); o.Going? ==> Roomy(p, o.turn)
  {
    hide Step, RoomyWithin;
    StepRoomWithin(p, t, r, 32);
  }

  lemma StartRoom(p: Party, reported: set<Id>, width: nat)
    requires p.limit > 0 ==> p.limit >= MIN_FRAME
    ensures RoomyWithin(p, Start(reported), width)
  {
    EmptyLen();
  }

  lemma {:induction false} AfterRoom(p: Party, reported: set<Id>, ranges: seq<Range>, n: nat, width: nat)
    requires n <= |ranges| && PrefixesWithin(ranges, width) && 32 <= width && (p.limit > 0 ==> p.limit >= MIN_FRAME)
    ensures var o := After(p, reported, ranges, n); o.Going? ==> RoomyWithin(p, o.turn, width)
    decreases n
  {
    hide Step, RoomyWithin;
    if n == 0 {
      StartRoom(p, reported, width);
    } else {
      AfterRoom(p, reported, ranges, n - 1, width);
      var o := After(p, reported, ranges, n - 1);
      if o.Going? && !o.turn.closed { StepRoomWithin(p, o.turn, ranges[n - 1], width); }
    }
  }

  /**
    * Every answer encodes, to no more bytes than the party's frame limit, raised to
    * 4096, less 48, and three times what the peer's longest prefix takes over 32.
    */
  lemma FrameBound(p: Party, reported: set<Id>, theirs: Message, frameSizeLimit: int)
    requires p.limit == FrameLimit(frameSizeLimit)
    ensures var o := Answer(p, reported, theirs.ranges);
      o.Going? ==>
        var bytes := Encode(Message(VERSION, o.turn.out));
        var limit := if frameSizeLimit < 4096 then 4096 else frameSizeLimit;
        && bytes.Some? && PrefixesWithin(o.turn.out, Widest(theirs.ranges))
        && (frameSizeLimit > 0 ==> |bytes.value| <= limit - 48 + 3 * Excess(Widest(theirs.ranges)))
        && (frameSizeLimit > 0 && ShortPrefixes(theirs.ranges) ==> |bytes.value| <= limit)
  {
    hide After, EncodedLen, RangesBytes, Widest;
    AfterRoom(p, reported, theirs.ranges, |theirs.ranges|, Widest(theirs.ranges));
    if ShortPrefixes(theirs.ranges) { AfterRoom(p, reported, theirs.ranges, |theirs.ranges|, 32); }
    var o := Answer(p, reported, theirs.ranges);
    if o.Going? { EncodedLenIsEncode(Message(VERSION, o.turn.out)); }
  }

  // ----------------------------------------------------------- well filled

  lemma ListAtLeast(out: seq<Range>, bound: Bound, ids: seq<Item>)
    ensures EncodedLen(out + [Range(bound, IDLIST, IdListBytes(ids))]) >= EncodedLen(out) + 4 + 32 * |ids|
  {
    hide Varint, LastTs, EncodedLen, IdBytes;
    EncodedLenAppend(out, Range(bound, IDLIST, IdListBytes(ids)));
  }

  /** An answer closed on a mismatched range lacks less room than a split takes; on a list, less than one more id and its header. */
  lemma StepFills(p: Party, t: Turn, r: Range)
    requires Fits(p, t) && Roomy(p, t) && !t.closed && |r.bound.prefix| <= 32 && p.limit > 0
    ensures var o := Step(p, t, r);
      o.Going? && o.turn.closed ==> EncodedLen(o.turn.out) > p.limit - (if r.mode == 2 then 273 else 1227)
  {
    hide EncodedLen, FirstNotBefore, SplitSpec, Tallied, Print, ListReply, RestFrom, Roomy;
    var upper := FirstNotBefore(p.items, t.prevIdx, r.bound);
    var tally := Tallied(p, t, r, upper);
    if tally.Some? {
      var t' := t.(tally := tally.value);
      assert Roomy(p, t') by { SameRoom(p, t, t'); }
      if r.mode == IDLIST && !p.initiator {
        ListFills(p, t', r, upper);
      } else if r.mode == FINGERPRINT && Print(p.hash, p.items[t.prevIdx..upper]) != r.payload {
        SplitFills(p, t', r, upper);
      } else {
        NothingFills(p, t', r, upper);
      }
    }
  }

  lemma SameRoom(p: Party, t: Turn, t': Turn)
    requires Roomy(p, t) && t' == t.(tally := t'.tally)
    ensures Roomy(p, t')
  {
    hide EncodedLen;
  }

  lemma NothingFills(p: Party, t: Turn, r: Range, upper: nat)
    requires Fits(p, t) && Roomy(p, t) && !t.closed && t.prevIdx <= upper <= |p.items|
    requires r.mode != FINGERPRINT || Print(p.hash, p.items[t.prevIdx..upper]) == r.payload
    requires r.mode != IDLIST || p.initiator
    ensures !Finish(p, t, Reply(p, t, r, upper), r.bound).closed
  {
    hide EncodedLen, Print, RestFrom, AllWritable, PrefixesWithin;
    assert t.out + [] == t.out;
  }

  lemma SplitFills(p: Party, t: Turn, r: Range, upper: nat)
    requires Fits(p, t) && Roomy(p, t) && !t.closed && t.prevIdx <= upper <= |p.items| && |r.bound.prefix| <= 32 && p.limit > 0
    ensures var t' := Finish(p, t, SplitReply(p, t, r, upper), r.bound);
      t'.closed ==> EncodedLen(t'.out) > p.limit - 1227
  {
    hide EncodedLen, SplitSpec, RestFrom;
    var split := SplitSpec(p.hash, p.items, t.prevIdx, upper, r.bound);
    AppendPending(p, t, 32);
    SplitLen(p.hash, p.items, t.prevIdx, upper, r.bound, t.out + Pending(t));
    assert t.out + (Pending(t) + split) == t.out + Pending(t) + split;
    assert t.out + [] == t.out;
    AppendRest(p, t.out + Pending(t), if t.skip then t.prevIdx else t.writtenIdx, 32);
  }

  lemma ListFills(p: Party, t: Turn, r: Range, upper: nat)
    requires Fits(p, t) && Roomy(p, t) && !t.closed && t.prevIdx <= upper <= |p.items| && |r.bound.prefix| <= 32 && p.limit > 0
    ensures var t' := Finish(p, t, ListReply(p, t, r, upper), r.bound);
      t'.closed ==> EncodedLen(t'.out) > p.limit - 273
  {
    hide EncodedLen, IdListBytes, RestFrom;
    var m := ListReply(p, t, r, upper);
    ListRoom(p, t, r, upper, 32);
    AppendRest(p, m.out, m.writtenIdx, 32);
    assert m.out + [] == m.out;
    if m.full {
      ListAtLeast(t.out + Pending(t), m.out[|m.out| - 1].bound, p.items[t.prevIdx..m.upper]);
    } else if t.skip {
      AppendShort(m.out, SkipTo(t.prevBound), 0, 32);
      EncodedLenAppend(m.out, SkipTo(t.prevBound));
      AppendRest(p, m.out + [SkipTo(t.prevBound)], t.prevIdx, 32);
    }
  }

  /** Frames are filled: an answer cut short of the message lacks at most 1226 bytes of the limit. */
  lemma {:induction false} FrameFilled(p: Party, reported: set<Id>, ranges: seq<Range>, n: nat, frameSizeLimit: int)
    requires n <= |ranges| && ShortPrefixes(ranges) && p.limit == FrameLimit(frameSizeLimit) && frameSizeLimit > 0
    ensures var o := After(p, reported, ranges, n);
      o.Going? && o.turn.closed ==> EncodedLen(o.turn.out) > (if frameSizeLimit < 4096 then 4096 else frameSizeLimit) - 1227
  {
    hide Step, EncodedLen, Roomy;
    if n > 0 {
      FrameFilled(p, reported, ranges, n - 1, frameSizeLimit);
      AfterRoom(p, reported, ranges, n - 1, 32);
      var o := After(p, reported, ranges, n - 1);
      if o.Going? && !o.turn.closed {
        assert Roomy(p, o.turn) by { RoomIs(p, o.turn); }
        StepFills(p, o.turn, ranges[n - 1]);
      }
    }
  }

  lemma RoomIs(p: Party, t: Turn) ensures RoomyWithin(p, t, 32) == Roomy(p, t) { }

  // ---------------------------------------------------------- long prefixes

  /** A peer settles up to a bound whose prefix has n bytes, and fingerprints the rest. */
  function Wide(n: nat, payload: Bytes): seq<Range>
  {
    [Range(Bound(1, seq(n, _ => 0)), SKIP, []), Range(Infinity, FINGERPRINT, payload)]
  }

  /** The answer repeats the peer's bound, and so is longer than it, whatever the limit. */
  lemma WideOverruns(p: Party, n: nat, payload: Bytes)
    requires p.items == [] && payload != Print(p.hash, []) && MIN_FRAME <= p.limit <= n
    ensures var o := Answer(p, {}, Wide(n, payload)); o.Going? && EncodedLen(o.turn.out) > p.limit
  {
    hide EncodedLen, Print, IdListBytes, RestFrom;
    var rs := Wide(n, payload);
    var t := Start({});
    AfterNone(p, {}, rs);
    AfterNext(p, {}, rs, 0, t, 0);
    assert t.out + [] == [];
    EmptyLen();
    var t1 := Turn(0, rs[0].bound, 0, true, [], t.tally, false);
    assert After(p, {}, rs, 1) == Going(t1);
    AfterNext(p, {}, rs, 1, t1, 0);
    var skip, list := SkipTo(rs[0].bound), Range(Infinity, IDLIST, IdListBytes([]));
    assert p.items[0..0] == [];
    assert t1.out + (Pending(t1) + [list]) == [] + [skip] + [list];
    assert t1.out + [skip] + [RestFrom(p, 0)] == [] + [skip] + [RestFrom(p, 0)];
    Repeated([], skip, RestFrom(p, 0));
    Repeated([], skip, list);
  }

  lemma Repeated(out: seq<Range>, skip: Range, next: Range)
    ensures EncodedLen(out + [skip] + [next]) > |skip.bound.prefix|
  {
    hide Varint, LastTs;
    EncodedLenAppend(out + [skip], next);
    EncodedLenAppend(out, skip);
    hide RangesBytes;
  }

  /** So does the first message, whatever the limit. */
  lemma InitiateBound(hash: Hash, items: seq<Item>)
    ensures var bytes := Encode(Message(VERSION, SplitSpec(hash, items, 0, |items|, Infinity)));
      bytes.Some? && |bytes.value| <= 4096
  {
    hide EncodedLen, RangesBytes, IdListBytes, Buckets;
    var rs := SplitSpec(hash, items, 0, |items|, Infinity);
    SplitWritable(hash, items, 0, |items|, Infinity);
    EncodedLenIsEncode(Message(VERSION, rs));
    EmptyLen();
    SplitLen(hash, items, 0, |items|, Infinity, []);
    assert [] + rs == rs;
  }

  /** A split adds little over a kilobyte to any frame. */
  lemma SplitLen(hash: Hash, items: seq<Item>, lower: nat, upper: nat, bound: Bound, out: seq<Range>)
    requires lower <= upper <= |items| && |bound.prefix| <= 32 && AllWritable(out) && ShortPrefixes(out)
    ensures EncodedLen(out + SplitSpec(hash, items, lower, upper, bound)) <= EncodedLen(out) + 1046
  {
    hide EncodedLen, IdListBytes, Buckets;
    if upper - lower < 32 {
      ListPayload(items[lower..upper]);
      AppendShort(out, SplitSpec(hash, items, lower, upper, bound)[0], 1002, 32);
    } else {
      BucketsLen(hash, items, lower, upper, bound, out, 16);
    }
  }

  lemma EmptyLen() ensures EncodedLen([]) == 1 { }

  lemma {:induction false} BucketsLen(hash: Hash, items: seq<Item>, lower: nat, upper: nat, bound: Bound,
                                      out: seq<Range>, n: nat)
    requires lower <= upper <= |items| && upper - lower >= 32 && n <= 16 && |bound.prefix| <= 32
    requires AllWritable(out) && ShortPrefixes(out)
    ensures EncodedLen(out + Buckets(hash, items, lower, upper, bound, n)) <= EncodedLen(out) + 60 * n
  {
    hide EncodedLen, Bucket;
    var rs := Buckets(hash, items, lower, upper, bound, n);
    if n == 0 {
      assert out + rs == out;
    } else {
      BucketsLen(hash, items, lower, upper, bound, out, n - 1);
      BucketsWritable(hash, items, lower, upper, bound, n);
      BucketsShort(hash, items, lower, upper, bound, n, 32);
      JoinShort(out, rs[..n - 1], 32);
      BucketShort(hash, items, lower, upper, bound, n - 1, 32);
      AppendShort(out + rs[..n - 1], rs[n - 1], 16, 32);
      assert rs[..n - 1] == Buckets(hash, items, lower, upper, bound, n - 1);
      assert out + rs == (out + rs[..n - 1]) + [rs[n - 1]];
    }
  }
}
