/**
  * The size a response takes on the wire (nip77/reconcile.go:206-253): a
  * running count kept by commit, and the encoder it must agree with.
  */
module Frame {
  import opened Words
  import opened Items
  import opened Varints
  import opened Codec

  /** rangeLen: the encoded size of r after the timestamp last. */
  function RangeLen(r: Range, last: U64): (n: nat)
  {
    |Varint(EncodedTs(r.bound.ts, last))| + |Varint(Wrap64(|r.bound.prefix|))| + |r.bound.prefix| + 1
    + (if r.mode == FINGERPRINT then 16 else if r.mode == IDLIST then |r.payload| else 0)
  }

  /** What ToBytes writes for these ranges, version byte included. */
  function EncodedLen(rs: seq<Range>): (n: nat) { 1 + |RangesBytes(rs, 0)| }

  ghost predicate AllWritable(rs: seq<Range>) { forall i :: 0 <= i < |rs| ==> Writable(rs[i]) }

  lemma EncodedLenIsEncode(m: Message)
    ensures AllWritable(m.ranges) <==> Encode(m).Some?
    ensures AllWritable(m.ranges) ==> |Encode(m).value| == EncodedLen(m.ranges)
  {
  }

  lemma RangeLenIsEncoded(r: Range, last: U64)
    requires Writable(r)
    ensures RangeLen(r, last) == |RangeBytes(r, last)|
  {
    hide Varint, EncodedTs, Wrap64;
  }

  lemma EncodedLenAppend(rs: seq<Range>, r: Range)
    ensures EncodedLen(rs + [r]) == EncodedLen(rs) + |RangeBytes(r, LastTs(rs, 0))|
  {
    hide RangesBytes, RangeBytes;
    RangesBytesAppend(rs, r, 0);
  }

  /** What a prefix of so many bytes may take over one of 32: its own bytes, and a longer length. */
  function Excess(width: nat): nat { if width <= 32 then 0 else width - 23 }

  /** A bound of at most 32 prefix bytes takes at most 44 with its mode byte, a longer one its excess more, and infinity 3. */
  lemma RangeAtMost(r: Range, last: U64, width: nat)
    requires Writable(r) && |r.bound.prefix| <= width
    ensures |RangeBytes(r, last)| <= 44 + Excess(width) + (if r.mode == FINGERPRINT then 16 else if r.mode == IDLIST then |r.payload| else 0)
    ensures r.mode == FINGERPRINT && r.bound == Infinity ==> |RangeBytes(r, last)| == 19
  {
    RangeLenIsEncoded(r, last);
    VarintAtMostTen(EncodedTs(r.bound.ts, last));
    VarintAtMostTen(Wrap64(|r.bound.prefix|));
    if |r.bound.prefix| <= 32 { VarintSmall(|r.bound.prefix|); }
    if r.bound == Infinity { VarintSmall(0); }
    hide Varint, EncodedTs, RangeBytes;
  }

  /** exceeded: stop 200 bytes short, so that the closing ranges fit. */
  predicate Exceeded(limit: nat, n: nat) { limit > 0 && n > limit - 200 }

  /** What the list of committed ranges encodes to, kept as a running size. */
  class Tracker {
    var size: nat
    const limit: nat
    var lastTs: U64
    ghost var written: seq<Range>

    ghost predicate Valid()
      reads this
    {
      size == EncodedLen(written) && lastTs == LastTs(written, 0)
    }

    constructor (limit: nat)
      ensures Valid() && written == [] && this.limit == limit
    {
      size, lastTs, written := 1, 0, [];
      this.limit := limit;
    }

    /** measure: what the encoder would add for rs. */
    method Measure(rs: seq<Range>) returns (n: nat)
      requires Valid() && AllWritable(rs)
      ensures EncodedLen(written + rs) == size + n
    {
      var last := lastTs;
      n := 0;
      assert written + rs[..0] == written;
      for i := 0 to |rs|
        invariant last == LastTs(written + rs[..i], 0)
        invariant EncodedLen(written + rs[..i]) == size + n
      {
        hide EncodedLen, RangeLen, RangeBytes, LastTs;
        assert written + rs[..i + 1] == (written + rs[..i]) + [rs[i]];
        EncodedLenAppend(written + rs[..i], rs[i]);
        LastTsAppend(written + rs[..i], rs[i], 0);
        RangeLenIsEncoded(rs[i], last);
        n := n + RangeLen(rs[i], last);
        if rs[i].bound.ts != INFINITE { last := rs[i].bound.ts; }
      }
      assert written + rs[..|rs|] == written + rs;
    }

    /** commit. */
    method Commit(rs: seq<Range>)
      requires Valid() && AllWritable(rs)
      modifies this
      ensures Valid() && written == old(written) + rs
    {
      hide EncodedLen, LastTs;
      var n := Measure(rs);
      var last := lastTs;
      assert written + rs[..0] == written;
      for i := 0 to |rs|
        invariant last == LastTs(written + rs[..i], 0)
        invariant Valid() && written == old(written) && lastTs == old(lastTs) && size == old(size)
      {
        assert written + rs[..i + 1] == (written + rs[..i]) + [rs[i]];
        LastTsAppend(written + rs[..i], rs[i], 0);
        if rs[i].bound.ts != INFINITE { last := rs[i].bound.ts; }
      }
      assert written + rs[..|rs|] == written + rs;
      size, lastTs, written := size + n, last, written + rs;
    }
  }
}
