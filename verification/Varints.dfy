/**
  * NIP-77 variable length integers: base 128, most significant digit first,
  * the high bit set on every byte but the last (nip77/negentropy.go and
  * nip77/encoding.go).
  */
module Varints {
  import opened Words

  /** The leading digits of x, each marked as continued. */
  function Continued(x: U64): (bs: Bytes)
    ensures forall i :: 0 <= i < |bs| ==> bs[i] >= 128
    ensures x > 0 ==> |bs| > 0 && bs[0] > 128
    ensures x == 0 ==> bs == []
  {
    if x == 0 then [] else Continued(x / 128) + [x % 128 + 128]
  }

  function Varint(x: U64): (bs: Bytes)
    ensures |bs| > 0
  {
    Continued(x / 128) + [x % 128]
  }

  /**
    * What a reader makes of the bytes ahead, acc being the digits read so far:
    * the value and the bytes after it, or None when the input ends first. The
    * shift drops the digits above 64 bits.
    */
  function ReadVarint(acc: U64, bs: Bytes): (r: Option<(U64, Bytes)>)
    ensures r.Some? ==> |r.value.1| < |bs|
    ensures r.Some? ==> r.value.1 == bs[|bs| - |r.value.1|..]
    decreases bs
  {
    if bs == [] then None
    else
      var acc' := Shifted(acc, bs[0]);
      if bs[0] < 128 then Some((acc', bs[1..])) else ReadVarint(acc', bs[1..])
  }

  /** One more digit on a 64-bit word: the high digits fall off. */
  function Shifted(acc: U64, b: Byte): (r: U64)
    ensures acc <= 0xFFFF_FFFF_FFFF_FFFF / 128 ==> r == acc * 128 + b % 128
  {
    Wrap64(acc * 128) + b % 128
  }

  /** The last digit of a word, marked or not, puts it back together. */
  lemma LastDigit(x: U64)
    ensures Shifted(x / 128, x % 128) == x && Shifted(x / 128, x % 128 + 128) == x
  {
  }

  lemma ReadMarked(acc: U64, b: Byte, rest: Bytes)
    ensures b < 128 ==> ReadVarint(acc, [b] + rest) == Some((Shifted(acc, b), rest))
    ensures b >= 128 ==> ReadVarint(acc, [b] + rest) == ReadVarint(Shifted(acc, b), rest)
  {
    hide Shifted;
    assert ([b] + rest)[1..] == rest;
  }

  lemma {:induction false} ReadContinued(x: U64, rest: Bytes)
    ensures ReadVarint(0, Continued(x) + rest) == ReadVarint(x, rest)
  {
    hide Shifted;
    hide ReadVarint;
    if x == 0 {
      assert Continued(x) + rest == rest;
    } else {
      var tail := [x % 128 + 128] + rest;
      assert Continued(x) + rest == Continued(x / 128) + tail;
      ReadContinued(x / 128, tail);
      ReadMarked(x / 128, x % 128 + 128, rest);
      LastDigit(x);
    }
  }

  /** Every word survives encoding, whatever bytes follow it. */
  lemma VarintRoundTrip(x: U64, rest: Bytes)
    ensures ReadVarint(0, Varint(x) + rest) == Some((x, rest))
  {
    hide Shifted;
    hide ReadVarint;
    assert Varint(x) + rest == Continued(x / 128) + ([x % 128] + rest);
    ReadContinued(x / 128, [x % 128] + rest);
    ReadMarked(x / 128, x % 128, rest);
    LastDigit(x);
  }

  /** The number of base-128 digits. */
  function Digits(x: U64): (n: nat)
    ensures n >= 1
  {
    if x < 128 then 1 else 1 + Digits(x / 128)
  }

  lemma {:induction false} ContinuedLength(x: U64)
    ensures x > 0 ==> |Continued(x)| == Digits(x)
  {
    if x >= 128 { ContinuedLength(x / 128); }
  }

  lemma VarintLength(x: U64)
    ensures |Varint(x)| == Digits(x)
  {
    ContinuedLength(x / 128);
  }

  lemma {:induction false} DigitsMonotone(x: U64, y: U64)
    requires x <= y
    ensures Digits(x) <= Digits(y)
  {
    if x >= 128 { DigitsMonotone(x / 128, y / 128); }
  }

  ghost function Pow128(n: nat): nat { if n == 0 then 1 else 128 * Pow128(n - 1) }

  lemma {:induction false} DigitsBound(x: U64, n: nat)
    requires 1 <= n && x < Pow128(n)
    ensures Digits(x) <= n
  {
    if x >= 128 { 
      assert Pow128(n) == 128 * Pow128(n - 1);
      DigitsBound(x / 128, n - 1);
    }
  }

  /** Every word fits the ten byte buffer of encodeVarint. */
  lemma VarintAtMostTen(x: U64)
    ensures |Varint(x)| <= 10
  {
    VarintLength(x);
    assert Pow128(10) > TWO_64 by {
      assert Pow128(5) == 0x8_0000_0000;
      assert Pow128(9) == 0x8000_0000_0000_0000;
    }
    DigitsBound(x, 10);
  }

  lemma VarintSmall(x: U64)
    requires x < 128
    ensures Varint(x) == [x]
  {
  }

  /** No encoding starts with a zero digit except that of zero itself: as few digits as possible. */
  lemma VarintShortest(x: U64, bs: Bytes, rest: Bytes)
    requires x < TWO_64 && ReadVarint(0, bs) == Some((x, rest))
    ensures |bs| - |rest| >= |Varint(x)|
  {
    VarintLength(x);
    ReadShortest(0, bs, x, rest);
  }

  lemma {:induction false} ReadShortest(acc: U64, bs: Bytes, x: U64, rest: Bytes)
    requires ReadVarint(acc, bs) == Some((x, rest))
    ensures |bs| - |rest| >= Digits(x) - (if acc == 0 then 0 else Digits(acc))
    decreases bs
  {
    var acc' := Shifted(acc, bs[0]);
    ShiftDigits(acc, bs[0]);
    if bs[0] >= 128 {
      ReadShortest(acc', bs[1..], x, rest);
    }
  }

  lemma ShiftDigits(acc: U64, b: Byte)
    ensures Digits(Shifted(acc, b)) <= 1 + (if acc == 0 then 0 else Digits(acc))
  {
    var y := Shifted(acc, b);
    if y >= 128 {
      assert y / 128 <= acc;
      DigitsMonotone(y / 128, acc);
    }
  }

  /** The digits with the high bit set on all but the last. */
  function Marked(ds: Bytes): (bs: Bytes)
    ensures |bs| == |ds|
  {
    if |ds| <= 1 then ds else [if ds[0] < 128 then ds[0] + 128 else ds[0]] + Marked(ds[1..])
  }

  /** ds holds the low digits of x, and rest what is left of x above them. */
  ghost predicate Filling(x: U64, rest: U64, ds: Bytes)
  {
    if ds == [] then rest == x else Varint(x) == Continued(rest) + Marked(ds)
  }

  lemma FillStep(x: U64, rest: U64, ds: Bytes)
    requires rest > 0 && Filling(x, rest, ds)
    ensures Filling(x, rest / 128, [rest % 128] + ds)
  {
    var d := rest % 128;
    if ds != [] {
      assert ([d] + ds)[1..] == ds;
      assert Continued(rest / 128) + ([d + 128] + Marked(ds)) == Continued(rest) + Marked(ds);
    }
  }

  /** encodeVarint: the digits are written backwards into a ten byte buffer, then marked. */
  method EncodeVarint(x: U64) returns (out: Bytes)
    ensures out == Varint(x)
  {
    if x == 0 { return [0]; }
    var buf := new Byte[10](_ => 0);
    var rest, idx := x, 9;
    VarintAtMostTen(x);
    VarintLength(x);
    while rest != 0
      invariant -1 <= idx <= 9 && 0 <= rest <= x
      invariant rest > 0 ==> idx + 1 >= Digits(rest)
      invariant rest == x || idx < 9
      invariant Filling(x, rest, buf[idx + 1..])
    {
      FillStep(x, rest, buf[idx + 1..]);
      ghost var was := buf[idx + 1..];
      buf[idx] := rest % 128;
      assert buf[idx..] == [rest % 128] + was;
      rest := rest / 128;
      idx := idx - 1;
    }
    out := MarkDigits(buf[idx + 1..]);
  }

  /** The second loop of encodeVarint. */
  method MarkDigits(ds: Bytes) returns (out: Bytes)
    ensures out == Marked(ds)
  {
    hide Marked;
    out := [];
    assert ds[0..] == ds;
    for i := 0 to |ds|
      invariant Marked(ds) == out + Marked(ds[i..])
    {
      MarkNext(ds, i);
      var d := ds[i];
      out := out + [if i < |ds| - 1 && d < 128 then d + 128 else d];
    }
    MarkNone(ds);
  }

  lemma MarkNext(ds: Bytes, i: nat)
    requires i < |ds|
    ensures Marked(ds[i..]) == [if i < |ds| - 1 && ds[i] < 128 then ds[i] + 128 else ds[i]] + Marked(ds[i + 1..])
  {
    assert ds[i..][1..] == ds[i + 1..];
  }

  lemma MarkNone(ds: Bytes)
    ensures Marked(ds[|ds|..]) == []
  {
  }

  /** Most significant digit first, the high bit on all but the last byte. */
  lemma VarintBytes()
    ensures Varint(0) == [0] && Varint(127) == [0x7F] && Varint(128) == [0x81, 0x00] && Varint(300) == [0x82, 0x2C]
  {
    VarintSmall(0);
    VarintSmall(127);
    VarintTwo(128);
    VarintTwo(300);
    hide Varint;
  }

  lemma VarintTwo(x: U64)
    requires 128 <= x < 16384
    ensures Varint(x) == [x / 128 + 128, x % 128]
  {
    assert Continued(0) == [] && x / 128 / 128 == 0 && x / 128 % 128 == x / 128;
    assert Continued(x / 128) == [] + [x / 128 + 128];
  }
}
