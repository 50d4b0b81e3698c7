/**
  * The NIP-77 wire format (nip77/encoding.go, nip77/reconcile.go:294-327):
  * messages to bytes and back, timestamps as offsets from the last finite one.
  */
module Codec {
  import opened Words
  import opened Items
  import opened Varints

  const VERSION: Byte := 0x61

  const SKIP := 0
  const FINGERPRINT := 1
  const IDLIST := 2

  datatype Range = Range(bound: Bound, mode: int, payload: Bytes)

  datatype Message = Message(version: Byte, ranges: seq<Range>)

  // ---------------------------------------------------------------- encoding

  /** The offset written for a timestamp: 0 is infinity, else one more than the 64-bit difference. */
  function EncodedTs(ts: U64, last: U64): (e: U64)
  {
    if ts == INFINITE then 0 else Wrap64(1 + ts - last)
  }

  /** The running lastTimestamp after a bound. */
  function NextTs(ts: U64, last: U64): U64 { if ts == INFINITE then last else ts }

  function Body(r: Range): Bytes
  {
    if r.mode == FINGERPRINT || r.mode == IDLIST then [r.mode] + r.payload else [r.mode % 256]
  }

  function RangeBytes(r: Range, last: U64): (bs: Bytes)
    ensures |bs| >= 3
  {
    Varint(EncodedTs(r.bound.ts, last)) + (Varint(Wrap64(|r.bound.prefix|)) + (r.bound.prefix + Body(r)))
  }

  function RangesBytes(rs: seq<Range>, last: U64): (bs: Bytes)
  {
    if rs == [] then []
    else RangeBytes(rs[0], last) + RangesBytes(rs[1..], NextTs(rs[0].bound.ts, last))
  }

  /** The modes and payloads ToBytes does not refuse. */
  predicate Writable(r: Range)
  {
    r.mode == SKIP || (r.mode == FINGERPRINT && |r.payload| == 16) || r.mode == IDLIST
  }

  function Encode(m: Message): (r: Option<Bytes>)
  {
    if forall i :: 0 <= i < |m.ranges| ==> Writable(m.ranges[i])
    then Some([m.version] + RangesBytes(m.ranges, 0))
    else None
  }

  lemma {:induction false} RangesBytesAppend(rs: seq<Range>, r: Range, last: U64)
    ensures RangesBytes(rs + [r], last) == RangesBytes(rs, last) + RangeBytes(r, LastTs(rs, last))
  {
    hide RangeBytes, NextTs;
    if rs == [] {
      assert (rs + [r])[1..] == [];
    } else {
      assert (rs + [r])[1..] == rs[1..] + [r];
      RangesBytesAppend(rs[1..], r, NextTs(rs[0].bound.ts, last));
    }
  }

  /** The running lastTimestamp after a list of ranges. */
  function LastTs(rs: seq<Range>, last: U64): U64
  {
    if rs == [] then last else LastTs(rs[1..], NextTs(rs[0].bound.ts, last))
  }

  lemma {:induction false} LastTsAppend(rs: seq<Range>, r: Range, last: U64)
    ensures LastTs(rs + [r], last) == NextTs(r.bound.ts, LastTs(rs, last))
  {
    hide NextTs;
    if rs == [] {
      assert (rs + [r])[1..] == [];
    } else {
      assert (rs + [r])[1..] == rs[1..] + [r];
      LastTsAppend(rs[1..], r, NextTs(rs[0].bound.ts, last));
    }
  }

  lemma OneMoreRange(rs: seq<Range>, i: nat)
    requires i < |rs|
    ensures RangesBytes(rs[..i + 1], 0) == RangesBytes(rs[..i], 0) + RangeBytes(rs[i], LastTs(rs[..i], 0))
    ensures LastTs(rs[..i + 1], 0) == NextTs(rs[i].bound.ts, LastTs(rs[..i], 0))
  {
    hide RangeBytes, NextTs, RangesBytes, LastTs;
    RangesBytesAppend(rs[..i], rs[i], 0);
    LastTsAppend(rs[..i], rs[i], 0);
    assert rs[..i + 1] == rs[..i] + [rs[i]];
  }

  /** One turn of ToBytes' loop: the range's bytes, or None for a payload or mode it refuses. */
  method WriteRange(r: Range, last: U64) returns (bs: Option<Bytes>)
    ensures bs == if Writable(r) then Some(RangeBytes(r, last)) else None
  {
    hide Varint, Wrap64;
    var encoded: U64 := 0;
    if r.bound.ts != INFINITE { encoded := Wrap64(1 + r.bound.ts - last); }
    var ts := EncodeVarint(encoded);
    var len := EncodeVarint(Wrap64(|r.bound.prefix|));
    if r.mode == SKIP {
      bs := Some(ts + (len + (r.bound.prefix + [r.mode])));
    } else if r.mode == FINGERPRINT {
      if |r.payload| != 16 { return None; }
      bs := Some(ts + (len + (r.bound.prefix + ([r.mode] + r.payload))));
    } else if r.mode == IDLIST {
      bs := Some(ts + (len + (r.bound.prefix + ([r.mode] + r.payload))));
    } else {
      bs := None;
    }
  }

  /** Message.ToBytes. */
  method ToBytes(m: Message) returns (r: Option<Bytes>)
    ensures r == Encode(m)
  {
    hide RangeBytes, NextTs;
    var buf: Bytes := [];
    var last: U64 := 0;
    for i := 0 to |m.ranges|
      invariant forall j :: 0 <= j < i ==> Writable(m.ranges[j])
      invariant last == LastTs(m.ranges[..i], 0)
      invariant buf == RangesBytes(m.ranges[..i], 0)
    {
      var bs := WriteRange(m.ranges[i], last);
      if bs.None? { return None; }
      OneMoreRange(m.ranges, i);
      buf := buf + bs.value;
      last := NextTs(m.ranges[i].bound.ts, last);
    }
    assert m.ranges[..|m.ranges|] == m.ranges;
    r := Some([m.version] + buf);
  }

  // ---------------------------------------------------------------- decoding

  /** The timestamp a reader makes of an offset. */
  function DecodedTs(e: U64, last: U64): U64 { if e == 0 then INFINITE else Wrap64(last + e - 1) }

  /** The bytes of n ids, on a 64-bit word. */
  function ListSize(n: U64): (size: U64)
    ensures n * 32 < TWO_64 ==> size == 32 * n
  {
    Wrap64(n * 32)
  }

  /** A range whose bound is read, from its mode byte on; the bytes after it. */
  function ReadBody(bound: Bound, bs: Bytes): (r: Option<(Range, Bytes)>)
    ensures r.Some? ==> |r.value.1| < |bs|
  {
    if bs == [] then None
    else if bs[0] == SKIP then Some((Range(bound, SKIP, []), bs[1..]))
    else if bs[0] == FINGERPRINT then
      if |bs| < 17 then None else Some((Range(bound, FINGERPRINT, bs[1..][..16]), bs[1..][16..]))
    else if bs[0] == IDLIST then
      var n := ReadVarint(0, bs[1..]);
      if n.None? then None
      else
        var size := ListSize(n.value.0);
        if |n.value.1| < size then None
        else Some((Range(bound, IDLIST, Varint(n.value.0) + n.value.1[..size]), n.value.1[size..]))
    else None
  }

  /** The encoded timestamp and prefix of a bound. */
  function ReadBound(bs: Bytes): (r: Option<(U64, Bytes, Bytes)>)
    ensures r.Some? ==> |r.value.2| < |bs|
  {
    var e := ReadVarint(0, bs);
    if e.None? then None
    else
      var n := ReadVarint(0, e.value.1);
      if n.None? || |n.value.1| < n.value.0 then None
      else Some((e.value.0, n.value.1[..n.value.0], n.value.1[n.value.0..]))
  }

  /** One range, with the encoded timestamp that tells the next lastTimestamp. */
  function ReadRange(bs: Bytes, last: U64): (r: Option<(U64, Range, Bytes)>)
    ensures r.Some? ==> |r.value.2| < |bs|
  {
    var b := ReadBound(bs);
    if b.None? then None
    else
      var body := ReadBody(Bound(DecodedTs(b.value.0, last), b.value.1), b.value.2);
      if body.None? then None else Some((b.value.0, body.value.0, body.value.1))
  }

  function Prepend<T>(xs: seq<T>, tail: Option<seq<T>>): (r: Option<seq<T>>)
    ensures xs == [] ==> r == tail
    ensures tail == Some([]) ==> r == Some(xs)
  {
    assert tail.Some? && xs == [] ==> xs + tail.value == tail.value;
    assert tail == Some([]) ==> xs + tail.value == xs;
    if tail.None? then None else Some(xs + tail.value)
  }

  lemma PrependTwice<T>(xs: seq<T>, x: T, tail: Option<seq<T>>)
    ensures Prepend(xs, Prepend([x], tail)) == Prepend(xs + [x], tail)
  {
    if tail.Some? { assert xs + ([x] + tail.value) == xs + [x] + tail.value; }
  }

  function ReadRanges(bs: Bytes, last: U64): (r: Option<seq<Range>>)
    decreases |bs|
  {
    if bs == [] then Some([])
    else
      var r := ReadRange(bs, last);
      if r.None? then None
      else
        var (e, range, rest) := r.value;
        Prepend([range], ReadRanges(rest, if e == 0 then last else range.bound.ts))
  }

  function Decode(data: Bytes): (r: Option<Message>)
  {
    if data == [] || data[0] != VERSION then None
    else
      var rs := ReadRanges(data[1..], 0);
      if rs.None? then None else Some(Message(VERSION, rs.value))
  }

  /** A reader over a byte string, as bytes.Reader. */
  class Reader {
    const data: Bytes
    var pos: nat

    constructor (data: Bytes)
      ensures Valid() && Rest() == data
    {
      this.data := data;
      pos := 0;
      new;
      assert data[0..] == data;
    }

    predicate Valid() reads this { pos <= |data| }

    function Rest(): (bs: Bytes)
      requires Valid()
      reads this
    {
      data[pos..]
    }

    method ReadByte() returns (b: Option<Byte>)
      requires Valid()
      modifies this
      ensures Valid()
      ensures old(Rest()) == [] ==> b == None && Rest() == []
      ensures old(Rest()) != [] ==> b == Some(old(Rest())[0]) && Rest() == old(Rest())[1..]
    {
      if pos == |data| { return None; }
      b := Some(data[pos]);
      pos := pos + 1;
    }

    /** io.ReadFull into a buffer of n bytes. */
    method ReadFull(n: nat) returns (bs: Option<Bytes>)
      requires Valid()
      modifies this
      ensures Valid()
      ensures bs.Some? <==> n <= |old(Rest())|
      ensures bs.Some? ==> bs.value == old(Rest())[..n] && Rest() == old(Rest())[n..]
    {
      if |data| - pos < n { pos := |data|; return None; }
      bs := Some(data[pos..pos + n]);
      pos := pos + n;
    }

    /** decodeReaderVarint, and readVarintBytes, which also counts the bytes. */
    method DecodeVarint() returns (v: Option<U64>, count: nat)
      requires Valid()
      modifies this
      ensures Valid()
      ensures v.None? <==> ReadVarint(0, old(Rest())).None?
      ensures v.Some? ==> ReadVarint(0, old(Rest())) == Some((v.value, Rest())) && count == |old(Rest())| - |Rest()|
    {
      var res: U64 := 0;
      count := 0;
      while true
        invariant Valid() && count + |Rest()| == |old(Rest())|
        invariant ReadVarint(res, Rest()) == ReadVarint(0, old(Rest()))
        decreases |Rest()|
      {
        var b := ReadByte();
        if b.None? { return None, 0; }
        res := Shifted(res, b.value);
        count := count + 1;
        if b.value < 128 { return Some(res), count; }
      }
    }

    /** The body of one turn of FromBytes' loop. */
    method NextRange(last: U64) returns (r: Option<(U64, Range)>)
      requires Valid()
      modifies this
      ensures Valid()
      ensures r.None? <==> ReadRange(old(Rest()), last).None?
      ensures r.Some? ==> ReadRange(old(Rest()), last) == Some((r.value.0, r.value.1, Rest()))
    {
      hide ReadVarint, ReadBody, DecodedTs;
      var e, _ := DecodeVarint();
      if e.None? { return None; }
      var n, _ := DecodeVarint();
      if n.None? { return None; }
      var prefix := ReadFull(n.value);
      if prefix.None? { return None; }
      var body := NextBody(Bound(DecodedTs(e.value, last), prefix.value));
      if body.None? { return None; }
      r := Some((e.value, body.value));
    }

    method NextBody(bound: Bound) returns (r: Option<Range>)
      requires Valid()
      modifies this
      ensures Valid()
      ensures r.None? <==> ReadBody(bound, old(Rest())).None?
      ensures r.Some? ==> ReadBody(bound, old(Rest())) == Some((r.value, Rest()))
    {
      hide ReadVarint, Varint;
      var mode := ReadByte();
      if mode.None? { return None; }
      if mode.value == SKIP {
        r := Some(Range(bound, SKIP, []));
      } else if mode.value == FINGERPRINT {
        var p := ReadFull(16);
        if p.None? { return None; }
        r := Some(Range(bound, FINGERPRINT, p.value));
      } else if mode.value == IDLIST {
        var n, _ := DecodeVarint();
        if n.None? { return None; }
        var ids := ReadFull(ListSize(n.value));
        if ids.None? { return None; }
        var head := EncodeVarint(n.value);
        r := Some(Range(bound, IDLIST, head + ids.value));
      } else {
        return None;
      }
    }
  }

  /** FromBytes. */
  method FromBytes(data: Bytes) returns (r: Option<Message>)
    ensures r == Decode(data)
  {
    hide ReadRange;
    if |data| < 1 || data[0] != VERSION { return None; }
    var buf := new Reader(data[1..]);
    var last: U64 := 0;
    var ranges: seq<Range> := [];
    while buf.Rest() != []
      invariant buf.Valid()
      invariant ReadRanges(data[1..], 0) == Prepend(ranges, ReadRanges(buf.Rest(), last))
      decreases |buf.Rest()|
    {
      ghost var before := buf.Rest();
      var next := buf.NextRange(last);
      if next.None? { return None; }
      ghost var after := ReadRanges(buf.Rest(), if next.value.0 == 0 then last else next.value.1.bound.ts);
      assert ReadRanges(before, last) == Prepend([next.value.1], after);
      PrependTwice(ranges, next.value.1, after);
      ranges := ranges + [next.value.1];
      last := if next.value.0 == 0 then last else next.value.1.bound.ts;
    }
    r := Some(Message(VERSION, ranges));
  }

  // ------------------------------------------------------- what is accepted

  /** The bytes of a range to infinity in each mode, after the version byte. */
  lemma WireBytes(mode: int, payload: Bytes)
    requires (mode == 0 && payload == []) || (mode == 1 && |payload| == 16) || mode == 2
    ensures Encode(Message(0x61, [Range(Infinity, mode, payload)])) == Some([0x61, 0, 0, mode] + payload)
  {
    hide Varint, RangesBytes;
    VarintSmall(0);
    OneRange(Range(Infinity, mode, payload), 0);
    assert RangeBytes(Range(Infinity, mode, payload), 0) == [0, 0, mode] + payload;
    assert [0x61] + ([0, 0, mode] + payload) == [0x61, 0, 0, mode] + payload;
  }

  /** The bytes of finite bounds: one more than the difference to the last timestamp, the prefix's length, the prefix. */
  lemma WireOffsets()
    ensures Encode(Message(0x61, [Range(Bound(5, [0xAB]), 0, []), Range(Bound(7, []), 0, [])])) == Some([0x61, 6, 1, 0xAB, 0, 3, 0, 0])
  {
    hide Varint, RangesBytes;
    var r, s := Range(Bound(5, [0xAB]), 0, []), Range(Bound(7, []), 0, []);
    TwoRanges(r, s);
    VarintSmall(0);
    VarintSmall(1);
    VarintSmall(3);
    VarintSmall(6);
    assert RangeBytes(r, 0) == [6, 1, 0xAB, 0] && RangeBytes(s, 5) == [3, 0, 0];
    assert [0x61] + ([6, 1, 0xAB, 0] + [3, 0, 0]) == [0x61, 6, 1, 0xAB, 0, 3, 0, 0];
  }

  lemma OneRange(r: Range, last: U64)
    ensures RangesBytes([r], last) == RangeBytes(r, last)
  {
    hide RangeBytes;
    assert [r][1..] == [];
  }

  lemma TwoRanges(r: Range, s: Range)
    ensures RangesBytes([r, s], 0) == RangeBytes(r, 0) + RangeBytes(s, NextTs(r.bound.ts, 0))
  {
    hide RangeBytes;
    assert [r, s][1..] == [s];
    OneRange(s, NextTs(r.bound.ts, 0));
  }

  /** A range as a reader makes it: a list's count and as many id bytes as its size on a 64-bit word. */
  ghost predicate Acceptable(r: Range)
  {
    || (r.mode == 0 && r.payload == [])
    || (r.mode == 1 && |r.payload| == 16)
    || (r.mode == 2 && exists n: U64, ids: Bytes :: |ids| == ListSize(n) && r.payload == Varint(n) + ids)
  }

  lemma {:induction false} ReadAcceptable(bs: Bytes, last: U64)
    requires ReadRanges(bs, last).Some?
    ensures forall i :: 0 <= i < |ReadRanges(bs, last).value| ==> Acceptable(ReadRanges(bs, last).value[i])
    decreases |bs|
  {
    if bs != [] {
      var (e, range, rest) := ReadRange(bs, last).value;
      OneAcceptable(bs, last);
      ReadAcceptable(rest, if e == 0 then last else range.bound.ts);
    }
  }

  lemma OneAcceptable(bs: Bytes, last: U64)
    requires ReadRange(bs, last).Some?
    ensures Acceptable(ReadRange(bs, last).value.1)
  {
    hide ReadVarint, Varint, ListSize;
    var b := ReadBound(bs).value;
    var body := b.2;
    if body[0] == 2 {
      var n := ReadVarint(0, body[1..]).value;
      assert |n.1[..ListSize(n.0)]| == ListSize(n.0);
    }
  }

  /** Only version 0x61 is accepted, and only ranges of the three modes with whole payloads. */
  lemma DecodedIsWhole(data: Bytes)
    requires Decode(data).Some?
    ensures data != [] && data[0] == 0x61 && Decode(data).value.version == 0x61
    ensures forall i :: 0 <= i < |Decode(data).value.ranges| ==> Acceptable(Decode(data).value.ranges[i])
    ensures Encode(Decode(data).value).Some?
  {
    hide ReadRanges, RangesBytes, ListSize, Varint;
    ReadAcceptable(data[1..], 0);
  }

  /** A mode byte above 2 is refused, whatever follows. */
  lemma UnknownModeRefused(bs: Bytes, last: U64)
    requires ReadBound(bs).Some? && ReadBound(bs).value.2 != [] && ReadBound(bs).value.2[0] > 2
    ensures ReadRanges(bs, last).None?
  {
    hide ReadBound;
  }

  // -------------------------------------------------------------- round trip

  /** A range as a sender builds it: its mode's payload shape, lengths that fit. */
  ghost predicate WellFormed(r: Range)
  {
    && |r.bound.prefix| < TWO_64
    && (|| (r.mode == SKIP && r.payload == [])
        || (r.mode == FINGERPRINT && |r.payload| == 16)
        || (r.mode == IDLIST && IsIdList(r.payload)))
  }

  /** A count and that many ids. */
  ghost predicate IsIdList(payload: Bytes)
  {
    exists n: U64, ids: Bytes :: CountAndIds(payload, n, ids)
  }

  ghost predicate CountAndIds(payload: Bytes, n: U64, ids: Bytes)
  {
    n * 32 < TWO_64 && |ids| == 32 * n && payload == Varint(n) + ids
  }

  ghost predicate WellFormedMessage(m: Message)
  {
    m.version == VERSION && forall i :: 0 <= i < |m.ranges| ==> WellFormed(m.ranges[i])
  }

  /** The one finite timestamp whose offset is written as the 0 of infinity: one below the last. */
  predicate Collides(ts: U64, last: U64) { ts != INFINITE && last == ts + 1 }

  ghost predicate NoCollision(rs: seq<Range>, last: U64)
  {
    rs == [] || (!Collides(rs[0].bound.ts, last) && NoCollision(rs[1..], NextTs(rs[0].bound.ts, last)))
  }

  lemma TsRoundTrip(ts: U64, last: U64)
    requires last < INFINITE
    ensures DecodedTs(EncodedTs(ts, last), last) == (if Collides(ts, last) then INFINITE else ts)
    ensures EncodedTs(ts, last) == 0 <==> ts == INFINITE || Collides(ts, last)
  {
  }

  lemma BodyRoundTrip(r: Range, bound: Bound, rest: Bytes)
    requires WellFormed(r)
    ensures ReadBody(bound, Body(r) + rest) == Some((Range(bound, r.mode, r.payload), rest))
  {
    hide Varint, ReadVarint, CountAndIds;
    var bs := Body(r) + rest;
    if r.mode == SKIP {
      assert bs[1..] == rest;
    } else if r.mode == FINGERPRINT {
      assert bs[1..] == r.payload + rest;
      assert (r.payload + rest)[..16] == r.payload && (r.payload + rest)[16..] == rest;
    } else {
      var n: U64, ids: Bytes :| CountAndIds(r.payload, n, ids);
      ListRoundTrip(bound, r.payload, n, ids, rest);
      assert bs == [IDLIST] + (r.payload + rest);
    }
  }

  lemma ListRoundTrip(bound: Bound, payload: Bytes, n: U64, ids: Bytes, rest: Bytes)
    requires CountAndIds(payload, n, ids)
    ensures ReadBody(bound, [IDLIST] + (payload + rest)) == Some((Range(bound, IDLIST, payload), rest))
  {
    hide Varint, ReadVarint;
    var bs := [IDLIST] + (payload + rest);
    assert bs[1..] == Varint(n) + (ids + rest);
    VarintRoundTrip(n, ids + rest);
    assert (ids + rest)[..32 * n] == ids && (ids + rest)[32 * n..] == rest;
  }

  lemma Regroup(a: Bytes, b: Bytes, c: Bytes, d: Bytes, e: Bytes)
    ensures a + (b + (c + d)) + e == a + (b + (c + (d + e)))
  {
    assert c + d + e == c + (d + e);
    assert b + (c + d) + e == b + (c + d + e);
    assert a + (b + (c + d)) + e == a + (b + (c + d) + e);
  }

  /** One range comes back as sent, except that a colliding bound is heard as infinite. */
  lemma RangeRoundTrip(r: Range, last: U64, rest: Bytes)
    requires WellFormed(r) && last < INFINITE
    ensures var heard := if Collides(r.bound.ts, last) then INFINITE else r.bound.ts;
      ReadRange(RangeBytes(r, last) + rest, last)
      == Some((EncodedTs(r.bound.ts, last), Range(Bound(heard, r.bound.prefix), r.mode, r.payload), rest))
  {
    hide Varint, ReadBound, ReadBody, Body, RangeBytes;
    var e, prefix := EncodedTs(r.bound.ts, last), r.bound.prefix;
    RangeBytesThen(r, last, rest);
    BoundRoundTrip(e, prefix, Body(r) + rest);
    TsRoundTrip(r.bound.ts, last);
    BodyRoundTrip(r, Bound(DecodedTs(e, last), prefix), rest);
  }

  lemma RangeBytesThen(r: Range, last: U64, rest: Bytes)
    requires |r.bound.prefix| < TWO_64
    ensures RangeBytes(r, last) + rest
         == Varint(EncodedTs(r.bound.ts, last)) + (Varint(|r.bound.prefix|) + (r.bound.prefix + (Body(r) + rest)))
  {
    hide Varint, Body, EncodedTs;
    assert Wrap64(|r.bound.prefix|) == |r.bound.prefix|;
    Regroup(Varint(EncodedTs(r.bound.ts, last)), Varint(|r.bound.prefix|), r.bound.prefix, Body(r), rest);
  }

  lemma BoundRoundTrip(e: U64, prefix: Bytes, rest: Bytes)
    requires |prefix| < TWO_64
    ensures ReadBound(Varint(e) + (Varint(|prefix|) + (prefix + rest))) == Some((e, prefix, rest))
  {
    hide Varint, ReadVarint;
    var tail := prefix + rest;
    VarintRoundTrip(e, Varint(|prefix|) + tail);
    VarintRoundTrip(|prefix|, tail);
    assert tail[..|prefix|] == prefix && tail[|prefix|..] == rest;
  }

  lemma {:induction false} RangesRoundTrip(rs: seq<Range>, last: U64)
    requires last < INFINITE && forall i :: 0 <= i < |rs| ==> WellFormed(rs[i])
    ensures ReadRanges(RangesBytes(rs, last), last) == Some(rs) <==> NoCollision(rs, last)
  {
    hide RangeBytes, ReadRange, EncodedTs, WellFormed, Prepend;
    if rs != [] {
      var r, next := rs[0], NextTs(rs[0].bound.ts, last);
      var rest := RangesBytes(rs[1..], next);
      RangeRoundTrip(r, last, rest);
      TsRoundTrip(r.bound.ts, last);
      var heard := ReadRange(RangeBytes(r, last) + rest, last).value.1;
      var tail := ReadRanges(rest, if EncodedTs(r.bound.ts, last) == 0 then last else heard.bound.ts);
      PrependGives(heard, tail, rs);
      if !Collides(r.bound.ts, last) { RangesRoundTrip(rs[1..], next); }
    }
  }

  lemma PrependGives<T>(x: T, tail: Option<seq<T>>, xs: seq<T>)
    requires xs != []
    ensures Prepend([x], tail) == Some(xs) <==> xs[0] == x && tail == Some(xs[1..])
  {
    if xs[0] == x && tail == Some(xs[1..]) { assert [x] + tail.value == xs; }
    if Prepend([x], tail) == Some(xs) { assert xs[1..] == tail.value; }
  }

  /** A well-formed message survives the wire exactly when no bound falls one second short of the last. */
  lemma WireRoundTrip(m: Message)
    requires WellFormedMessage(m)
    ensures Encode(m).Some?
    ensures Decode(Encode(m).value) == Some(m) <==> NoCollision(m.ranges, 0)
  {
    hide RangesBytes, ReadRanges, NoCollision;
    var bs := Encode(m).value;
    assert bs[1..] == RangesBytes(m.ranges, 0);
    RangesRoundTrip(m.ranges, 0);
  }

  /** In particular when the finite timestamps never decrease. */
  ghost predicate TimesAscend(rs: seq<Range>, last: U64)
  {
    rs == [] || ((rs[0].bound.ts == INFINITE || last <= rs[0].bound.ts)
                 && TimesAscend(rs[1..], NextTs(rs[0].bound.ts, last)))
  }

  lemma {:induction false} AscendingSurvives(rs: seq<Range>, last: U64)
    requires TimesAscend(rs, last)
    ensures NoCollision(rs, last)
  {
    if rs != [] { AscendingSurvives(rs[1..], NextTs(rs[0].bound.ts, last)); }
  }

  // ---------------------------------------------------------------- id lists

  function IdBytes(items: seq<Item>): (bs: Bytes)
    ensures |bs| == 32 * |items|
  {
    if items == [] then [] else items[0].id + IdBytes(items[1..])
  }

  function IdListBytes(items: seq<Item>): Bytes { Varint(Wrap64(|items|)) + IdBytes(items) }

  function Ids(items: seq<Item>): (ids: seq<Id>)
    ensures |ids| == |items| && forall i :: 0 <= i < |items| ==> ids[i] == items[i].id
  {
    seq(|items|, i requires 0 <= i < |items| => items[i].id)
  }

  /** n ids of 32 bytes; the bytes after them are left unread. */
  function TakeIds(n: nat, bs: Bytes): (r: Option<seq<Id>>)
  {
    if n == 0 then Some([])
    else if |bs| < 32 then None
    else
      Prepend([bs[..32]], TakeIds(n - 1, bs[32..]))
  }

  function ListedIds(payload: Bytes): (r: Option<seq<Id>>)
  {
    var n := ReadVarint(0, payload);
    if n.None? then None else TakeIds(n.value.0, n.value.1)
  }

  lemma {:induction false} IdBytesAppend(items: seq<Item>, x: Item)
    ensures IdBytes(items + [x]) == IdBytes(items) + x.id
  {
    if items == [] {
      assert (items + [x])[1..] == [];
    } else {
      assert (items + [x])[1..] == items[1..] + [x];
      IdBytesAppend(items[1..], x);
    }
  }

  /** encodeIdList. */
  method EncodeIdList(items: seq<Item>) returns (buf: Bytes)
    requires |items| < TWO_64
    ensures buf == IdListBytes(items)
  {
    hide Varint;
    var head := EncodeVarint(|items|);
    buf := head;
    for i := 0 to |items|
      invariant buf == head + IdBytes(items[..i])
    {
      assert items[..i + 1] == items[..i] + [items[i]];
      IdBytesAppend(items[..i], items[i]);
      buf := buf + items[i].id;
    }
    assert items[..|items|] == items;
  }

  /** decodeIdList. */
  method DecodeIdList(payload: Bytes) returns (r: Option<seq<Id>>)
    ensures r == ListedIds(payload)
  {
    hide ReadVarint;
    var buf := new Reader(payload);
    var count, _ := buf.DecodeVarint();
    if count.None? { return None; }
    ghost var body := buf.Rest();
    var ids: seq<Id> := [];
    for i := 0 to count.value
      invariant buf.Valid()
      invariant TakeIds(count.value, body) == Prepend(ids, TakeIds(count.value - i, buf.Rest()))
    {
      var id := buf.ReadFull(32);
      if id.None? { return None; }
      PrependTwice(ids, id.value, TakeIds(count.value - i - 1, buf.Rest()));
      ids := ids + [id.value];
    }
    assert TakeIds(0, buf.Rest()) == Some([]);
    r := Some(ids);
  }

  lemma {:induction false} TakeIdsBack(items: seq<Item>)
    ensures TakeIds(|items|, IdBytes(items)) == Some(Ids(items))
  {
    if items != [] {
      TakeIdsBack(items[1..]);
      assert IdBytes(items)[..32] == items[0].id && IdBytes(items)[32..] == IdBytes(items[1..]);
      assert Ids(items) == [items[0].id] + Ids(items[1..]);
    } else {
      assert Ids(items) == [];
    }
  }

  /** An id list is read back as the ids it was made of. */
  lemma IdListRoundTrip(items: seq<Item>)
    requires |items| * 32 < TWO_64
    ensures ListedIds(IdListBytes(items)) == Some(Ids(items))
    ensures IsIdList(IdListBytes(items))
  {
    hide Varint, ReadVarint, IdBytes, TakeIds;
    VarintRoundTrip(|items|, IdBytes(items));
    TakeIdsBack(items);
    assert CountAndIds(IdListBytes(items), |items|, IdBytes(items));
  }
}
