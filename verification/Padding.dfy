/**
  * NIP-44 v2 padding (nip44/encryption.go:247-306): a length prefix, the plaintext,
  * and zeros up to one of a few lengths. The power of two is computed on integers.
  */
module Padding {
  import opened Words

  const MIN_PLAINTEXT: int := 1
  const MAX_PLAINTEXT: int := 0xFFFF_FFFF
  const EXTENDED: int := 65536

  // ---------------------------------------------------------------- lengths

  /** The least power of two above n. */
  function NextPower(n: nat): (p: nat)
    ensures n < p
  {
    if n == 0 then 1 else 2 * NextPower(n / 2)
  }

  ghost predicate PowerOfTwo(p: nat) { p == 1 || (p > 1 && p % 2 == 0 && PowerOfTwo(p / 2)) }

  lemma {:induction false} NextPowerBounds(n: nat)
    requires n > 0
    ensures n < NextPower(n) <= 2 * n && PowerOfTwo(NextPower(n))
  {
    if n == 1 {
      assert NextPower(0) == 1;
    } else {
      NextPowerBounds(n / 2);
    }
  }

  /** Between n and its next power, the next power is the same. */
  lemma {:induction false} NextPowerPlateau(m: nat, n: nat)
    requires m <= n < NextPower(m)
    ensures NextPower(n) == NextPower(m)
  {
    if m > 0 { NextPowerPlateau(m / 2, n / 2); }
  }

  lemma {:induction false} PowersDivide(p: nat, m: nat) returns (k: nat)
    requires PowerOfTwo(p) && PowerOfTwo(m) && m <= p
    ensures p == m * k
  {
    if m == 1 {
      k := p;
    } else {
      k := PowersDivide(p / 2, m / 2);
      var h := m / 2;
      assert p == 2 * (h * k) && m == 2 * h;
    }
  }

  lemma Powers()
    ensures PowerOfTwo(32) && PowerOfTwo(256)
  {
    assert PowerOfTwo(2) && PowerOfTwo(4) && PowerOfTwo(8) && PowerOfTwo(16) && PowerOfTwo(32);
    assert PowerOfTwo(64) && PowerOfTwo(128);
  }

  function Chunk(l: int): (c: nat)
    requires l > 32
    ensures c >= 32
  {
    var p := NextPower(l - 1);
    if p <= 256 then 32 else p / 8
  }

  /** calcPaddedLen. */
  function PaddedLen(l: int): int
  {
    if l <= 32 then 32 else Chunk(l) * ((l - 1) / Chunk(l) + 1)
  }

  /** The unit a length is rounded up to. */
  function Unit(l: int): (c: nat)
    ensures c >= 32
  {
    if l <= 32 then 32 else Chunk(l)
  }

  lemma MulOrder(c: int, a: int, b: int)
    requires c > 0
    ensures a <= b <==> c * a <= c * b
    ensures c * (a + 1) == c * a + c
  {
    assert c * b - c * a == c * (b - a);
  }

  lemma Division(n: int, c: int)
    requires c > 0
    ensures c * (n / c) <= n < c * (n / c) + c
  {
  }

  /** A unit divides the next power of two, and 32 divides a unit. */
  lemma UnitDivides(l: int) returns (h: nat, k: nat)
    requires l > 32
    ensures Chunk(l) == 32 * h && NextPower(l - 1) == Chunk(l) * k
  {
    hide NextPower, PowerOfTwo;
    var p := NextPower(l - 1);
    NextPowerBounds(l - 1);
    Powers();
    if p > 256 {
      h := PowersDivide(p, 256);
      k := 8;
    } else {
      h := 1;
      k := PowersDivide(p, 32);
    }
  }

  /** The result is the least multiple of the unit that holds l, and a multiple of 32. */
  lemma PaddedLenLeast(l: int)
    ensures PaddedLen(l) >= l && PaddedLen(l) >= 32 && PaddedLen(l) % 32 == 0
    ensures exists k: nat :: PaddedLen(l) == Unit(l) * k
    ensures l >= 1 ==> PaddedLen(l) - l < Unit(l)
  {
    hide Chunk;
    if l > 32 {
      var c := Chunk(l);
      var k := (l - 1) / c;
      Division(l - 1, c);
      MulOrder(c, k, k);
      MulOrder(c, -1, k);
      assert PaddedLen(l) == Unit(l) * (k + 1);
      var h, j := UnitDivides(l);
      Of32(c, h, k + 1);
    } else {
      assert PaddedLen(l) == Unit(l) * 1;
    }
  }

  lemma Of32(c: int, h: int, k: int)
    requires c == 32 * h
    ensures (c * k) % 32 == 0
  {
    assert c * k == 32 * (h * k);
  }

  /** The unit: 32 up to 256, then an eighth of the least power of two that holds l. */
  lemma UnitIs(l: int)
    ensures l <= 256 ==> Unit(l) == 32
    ensures l > 256 ==> PowerOfTwo(8 * Unit(l)) && 4 * Unit(l) < l <= 8 * Unit(l)
  {
    hide NextPower, PowerOfTwo;
    if l > 32 {
      var p := NextPower(l - 1);
      NextPowerBounds(l - 1);
      Powers();
      if l <= 256 { NextPowerMonotone(l - 1, 255); NextPower255(); }
      if p > 256 {
        var k := PowersDivide(p, 256);
        assert 8 * (p / 8) == p;
      }
    }
  }

  lemma {:induction false} NextPowerMonotone(m: nat, n: nat)
    requires m <= n
    ensures NextPower(m) <= NextPower(n)
  {
    if m > 0 { NextPowerMonotone(m / 2, n / 2); }
  }

  lemma NextPower255() ensures NextPower(255) == 256 { }

  /** The padded length does not pass the next power of two. */
  lemma WithinPower(l: int)
    requires l > 32
    ensures PaddedLen(l) <= NextPower(l - 1)
  {
    hide Chunk, NextPower;
    var c := Chunk(l);
    var h, k := UnitDivides(l);
    var q := (l - 1) / c;
    Division(l - 1, c);
    MulOrder(c, k, q);
    MulOrder(c, q + 1, k);
  }

  lemma PaddedLenMonotone(a: int, b: int)
    requires a <= b
    ensures PaddedLen(a) <= PaddedLen(b)
  {
    hide NextPower, Chunk;
    PaddedLenLeast(b);
    if a > 32 {
      if NextPower(a - 1) == NextPower(b - 1) {
        SameChunk(a, b);
        SameUnit(a, b, Chunk(a));
      } else {
        OtherUnit(a, b);
      }
    }
  }

  lemma SameChunk(a: int, b: int)
    requires a > 32 && b > 32 && NextPower(a - 1) == NextPower(b - 1)
    ensures Chunk(a) == Chunk(b)
  {
  }

  lemma OtherUnit(a: int, b: int)
    requires 32 < a <= b && NextPower(a - 1) != NextPower(b - 1)
    ensures PaddedLen(a) <= b - 1
  {
    hide PaddedLen, NextPower;
    WithinPower(a);
    if b - 1 < NextPower(a - 1) { NextPowerPlateau(a - 1, b - 1); }
  }

  lemma SameUnit(a: int, b: int, c: nat)
    requires 0 < a <= b && c > 0
    ensures c * ((a - 1) / c + 1) <= c * ((b - 1) / c + 1)
  {
    var x, y := (a - 1) / c, (b - 1) / c;
    Division(a - 1, c);
    Division(b - 1, c);
    MulOrder(c, y, y);
    MulOrder(c, y + 1, x);
    MulOrder(c, x + 1, y + 1);
  }

  /** A padded length needs no more padding. */
  lemma PaddedLenIdempotent(l: int)
    ensures PaddedLen(PaddedLen(l)) == PaddedLen(l)
  {
    hide NextPower, Chunk;
    if l > 32 {
      var p, c := PaddedLen(l), Chunk(l);
      PaddedLenLeast(l);
      WithinPower(l);
      NextPowerPlateau(l - 1, p - 1);
      SameChunk(l, p);
      Aligned(p, c, (l - 1) / c + 1);
    }
  }

  lemma Aligned(p: int, c: nat, m: int)
    requires c > 0 && p > 0 && p == c * m
    ensures c * ((p - 1) / c + 1) == p
  {
    var q := (p - 1) / c;
    Division(p - 1, c);
    MulOrder(c, q, m);
    MulOrder(c, m, q);
    MulOrder(c, q + 1, m);
    MulOrder(c, m, q + 1);
  }

  // ---------------------------------------------------------------- framing

  /** binary.BigEndian of 16 and 32 bits; larger numbers are truncated. */
  function U16(n: nat): Bytes { [n / 256 % 256, n % 256] }

  function U32(n: nat): Bytes { [n / 256 / 256 / 256 % 256, n / 256 / 256 % 256, n / 256 % 256, n % 256] }

  function Read16(b: Bytes): nat
    requires |b| >= 2
  {
    256 * (b[0] as int) + b[1]
  }

  function Read32(b: Bytes): nat
    requires |b| >= 4
  {
    256 * (256 * Read16(b) + b[2]) + b[3]
  }

  lemma ReadBack16(n: nat)
    requires n < 0x1_0000
    ensures Read16(U16(n)) == n
  {
  }

  lemma ReadBack32(n: nat)
    ensures Read32(U32(n)) == n % 0x1_0000_0000
  {
    var a, b, c := n / 256, n / 256 / 256, n / 256 / 256 / 256;
    assert n == 0x1_0000_0000 * (c / 256) + Read32(U32(n));
    Remainder(n, c / 256, Read32(U32(n)));
  }

  lemma Remainder(n: nat, d: nat, r: nat)
    requires n == 0x1_0000_0000 * d + r && r < 0x1_0000_0000
    ensures n % 0x1_0000_0000 == r
  {
  }

  lemma WriteBack16(b: Bytes)
    requires |b| == 2
    ensures U16(Read16(b)) == b && Read16(b) < EXTENDED
  {
  }

  lemma WriteBack32(b: Bytes)
    requires |b| == 4
    ensures U32(Read32(b)) == b && Read32(b) <= MAX_PLAINTEXT
  {
    var v := Read32(b);
    assert v / 256 == 256 * Read16(b) + b[2] && v % 256 == b[3];
    assert v / 256 / 256 == Read16(b) && v / 256 % 256 == b[2];
    assert v / 256 / 256 / 256 == b[0];
  }

  function Prefix(n: nat): (p: Bytes)
    ensures |p| == if n < EXTENDED then 2 else 6
  {
    if n < EXTENDED then U16(n) else [0, 0] + U32(n)
  }

  function Zeros(n: nat): (z: Bytes)
    ensures |z| == n && forall i :: 0 <= i < n ==> z[i] == 0
  {
    seq(n, _ => 0)
  }

  /** pad. */
  function Padded(x: Bytes): Bytes
  {
    PaddedLenLeast(|x|);
    Prefix(|x|) + x + Zeros(PaddedLen(|x|) - |x|)
  }

  /** unpad. */
  function Unpadded(p: Bytes): (r: Option<Bytes>)
  {
    if |p| < 2 then None
    else
      var short := Read16(p);
      if short == 0 && |p| < 6 then None
      else
        var (n, k) := if short != 0 then (short, 2) else (Read32(p[2..]), 6);
        if short == 0 && n < EXTENDED then None
        else if |p| != k + PaddedLen(n) then None
        else PaddedLenLeast(n); Some(p[k..k + n])
  }

  /** The prefix as the code writes it. */
  method PutLength(r: array<Byte>, n: nat, k: nat)
    requires k == (if n < EXTENDED then 2 else 6) && r.Length >= k && forall j :: 0 <= j < r.Length ==> r[j] == 0
    modifies r
    ensures r[..k] == Prefix(n) && forall j :: k <= j < r.Length ==> r[j] == 0
  {
    if k == 2 {
      r[0], r[1] := n / 256 % 256, n % 256;
    } else {
      r[2], r[3], r[4], r[5] := n / 256 / 256 / 256 % 256, n / 256 / 256 % 256, n / 256 % 256, n % 256;
    }
  }

  /** copy(r[k:], x). */
  method CopyAt(r: array<Byte>, k: nat, x: Bytes)
    requires k + |x| <= r.Length
    modifies r
    ensures r[..] == old(r[..k]) + x + old(r[k + |x|..])
  {
    for i := 0 to |x|
      invariant forall j :: 0 <= j < r.Length ==> r[j] == if k <= j < k + i then x[j - k] else old(r[j])
    {
      r[k + i] := x[i];
    }
  }

  /** pad, in its buffer. */
  method Pad(x: Bytes) returns (r: array<Byte>)
    ensures fresh(r) && r[..] == Padded(x)
  {
    hide PaddedLen, Prefix;
    PaddedLenLeast(|x|);
    var n, k := |x|, 2;
    if n >= EXTENDED { k := 6; }
    r := new Byte[k + PaddedLen(n)](_ => 0);
    PutLength(r, n, k);
    ghost var framed := r[..];
    CopyAt(r, k, x);
    assert framed[k + n..] == Zeros(PaddedLen(n) - n);
  }

  /** Reading a prefix, then the rest. */
  lemma PrefixRead(x: Bytes)
    requires MIN_PLAINTEXT <= |x|
    ensures var p := Padded(x);
      if |x| < EXTENDED then |p| >= 2 && Read16(p) == |x|
      else |p| >= 6 && Read16(p) == 0 && Read32(p[2..]) == |x| % 0x1_0000_0000
  {
    hide PaddedLen;
    var n, p := |x|, Padded(x);
    PaddedLenLeast(n);
    if n < EXTENDED {
      ReadBack16(n);
      assert p[0] == Prefix(n)[0] && p[1] == Prefix(n)[1];
    } else {
      ReadBack32(n);
      assert p[2..][..4] == U32(n);
      assert Read32(p[2..]) == Read32(p[2..][..4]);
    }
  }

  lemma EmptyRefused(x: Bytes)
    requires |x| == 0
    ensures Unpadded(Padded(x)).None?
  {
    hide PaddedLen;
    PaddedLenLeast(0);
    var p := Padded(x);
    assert p[2..] == Zeros(PaddedLen(0));
    assert Read32(p[2..]) == 0;
  }

  /** One byte is framed as 0, 1, itself and 31 zeros; from 65536 on the length is behind two zeros, in four bytes, high ones first. */
  lemma PaddedBytes(x: Byte, y: Bytes)
    requires |y| == 65536
    ensures Padded([x]) == [0, 1, x] + Zeros(31)
    ensures |Padded(y)| == 6 + 65536 && Padded(y)[..6] == [0, 0, 0, 1, 0, 0] && Padded(y)[6..] == y
  {
    hide PaddedLen, Prefix, U32;
    LongPadded();
    ShortPadded();
    PrefixBytes();
    assert Zeros(0) == [];
    assert Padded([x]) == [0, 1] + [x] + Zeros(31);
  }

  lemma PrefixBytes()
    ensures Prefix(1) == [0, 1] && Prefix(65536) == [0, 0, 0, 1, 0, 0]
  {
  }

  lemma ShortPadded() ensures PaddedLen(1) == 32 { }

  lemma LongPadded()
    ensures PaddedLen(65536) == 65536
  {
    hide PaddedLen, PowerOfTwo, Unit;
    PaddedLenLeast(65536);
    UnitIs(65536);
    Powers();
    Doubled(256);
    Doubled(512);
    Doubled(1024);
    Doubled(2048);
    Doubled(4096);
    Doubled(8192);
    Doubled(16384);
    Doubled(32768);
    var k := PowersDivide(8 * Unit(65536), 65536);
    assert k == 1 && Unit(65536) == 8192;
  }

  lemma Doubled(p: nat)
    requires PowerOfTwo(p)
    ensures PowerOfTwo(2 * p)
  {
  }

  /** unpad undoes pad exactly on the lengths checkPlaintextLen admits. */
  lemma UnpadPad(x: Bytes)
    ensures Unpadded(Padded(x)) == Some(x) <==> MIN_PLAINTEXT <= |x| <= MAX_PLAINTEXT
  {
    hide PaddedLen, Prefix, Read16, Read32;
    var n, p := |x|, Padded(x);
    var k := |Prefix(n)|;
    PaddedLenLeast(n);
    if n == 0 {
      EmptyRefused(x);
    } else {
      PrefixRead(x);
      assert p[k..k + n] == x;
    }
  }

  /** p is x behind its prefix, and more. */
  predicate Frames(p: Bytes, x: Bytes)
  {
    |Prefix(|x|)| + |x| <= |p| && p[..|Prefix(|x|)| + |x|] == Prefix(|x|) + x
  }

  /** What unpad accepts begins with the prefix pad writes. */
  lemma PrefixOf(p: Bytes)
    requires Unpadded(p).Some?
    ensures var x := Unpadded(p).value;
      MIN_PLAINTEXT <= |x| <= MAX_PLAINTEXT && |p| == |Prefix(|x|)| + PaddedLen(|x|) && Frames(p, x)
  {
    hide PaddedLen;
    if Read16(p) != 0 {
      WriteBack16(p[..2]);
      assert Read16(p[..2]) == Read16(p);
      PaddedLenLeast(Read16(p));
      var x := Unpadded(p).value;
      assert |x| == Read16(p) && p[..2 + |x|] == p[..2] + x;
    } else {
      WriteBack32(p[2..][..4]);
      assert Read32(p[2..][..4]) == Read32(p[2..]);
      PaddedLenLeast(Read32(p[2..]));
      assert p[..6] == [0, 0] + p[2..][..4];
      var x := Unpadded(p).value;
      assert |x| == Read32(p[2..]) && p[..6 + |x|] == p[..6] + x;
    }
  }

  /** What unpad accepts is what pad makes, but for the bytes it does not look at. */
  lemma PadUnpad(p: Bytes)
    requires Unpadded(p).Some?
    ensures var x := Unpadded(p).value;
      var k := |Prefix(|x|)|;
      && MIN_PLAINTEXT <= |x| <= MAX_PLAINTEXT && |p| == |Padded(x)| && Frames(p, x)
      && (p == Padded(x) <==> forall i :: k + |x| <= i < |p| ==> p[i] == 0)
  {
    hide PaddedLen, Unpadded, Prefix;
    PrefixOf(p);
    var x := Unpadded(p).value;
    var n, k := |x|, |Prefix(|x|)|;
    var z := Zeros(PaddedLen(n) - n);
    assert Padded(x) == Prefix(n) + x + z;
    PaddedLenLeast(n);
    assert p == p[..k + n] + p[k + n..];
    if forall i :: k + n <= i < |p| ==> p[i] == 0 { assert p[k + n..] == z; }
    assert Padded(x)[k + n..] == z && |Padded(x)| == |p|;
  }
}
