/**
  * Range fingerprints (nip77/negentropy.go:110-151): the ids summed as
  * little-endian numbers modulo 2^256, then the count, hashed and cut to 16
  * bytes. SHA-256 is the parameter hash.
  */
module Fingerprint {
  import opened Words
  import opened Items
  import opened Varints

  type Digest = s: Bytes | |s| == 32 witness seq(32, _ => 0)
  type Hash = Bytes -> Digest

  const WIDTH: nat := 32

  /** Little-endian value of a byte string. */
  ghost function Little(bs: Bytes): nat
  {
    if bs == [] then 0 else bs[0] + 256 * Little(bs[1..])
  }

  /** The n low bytes of v, least significant first. */
  function LittleBytes(v: nat, n: nat): (bs: Bytes)
    ensures |bs| == n
    decreases n, v
  {
    if n == 0 then [] else [v % 256] + LittleBytes(v / 256, n - 1)
  }

  lemma {:induction false} LittleAppend(bs: Bytes, d: Byte)
    ensures Little(bs + [d]) == Little(bs) + d * Pow256(|bs|)
  {
    if bs != [] {
      assert (bs + [d])[1..] == bs[1..] + [d];
      LittleAppend(bs[1..], d);
      assert d * (256 * Pow256(|bs| - 1)) == 256 * (d * Pow256(|bs| - 1));
    } else {
      assert (bs + [d])[1..] == [];
    }
  }

  lemma {:induction false} LittleBound(bs: Bytes)
    ensures Little(bs) < Pow256(|bs|)
  {
    if bs != [] { LittleBound(bs[1..]); }
  }

  /** A byte string is determined by its length and its value. */
  lemma {:induction false} LittleInverse(bs: Bytes)
    ensures LittleBytes(Little(bs), |bs|) == bs
  {
    if bs != [] {
      assert Little(bs) % 256 == bs[0] && Little(bs) / 256 == Little(bs[1..]);
      LittleInverse(bs[1..]);
      assert bs == [bs[0]] + bs[1..];
    }
  }

  /** Multiples of 256^n do not reach the n low bytes. */
  lemma {:induction false} LowBytes(v: nat, k: nat, n: nat)
    ensures LittleBytes(v + k * Pow256(n), n) == LittleBytes(v, n)
    decreases n
  {
    if n > 0 {
      var p := Pow256(n - 1);
      assert k * (256 * p) == 256 * (k * p);
      LowBytes(v / 256, k, n - 1);
    }
  }

  /** What the n low bytes leave out is a multiple of 256^n. */
  lemma {:induction false} HighPart(v: nat, n: nat) returns (k: nat)
    ensures v == Little(LittleBytes(v, n)) + k * Pow256(n)
    decreases n
  {
    if n == 0 {
      k := v;
    } else {
      k := HighPart(v / 256, n - 1);
      assert LittleBytes(v, n)[1..] == LittleBytes(v / 256, n - 1);
      var p := Pow256(n - 1);
      assert k * (256 * p) == 256 * (k * p);
    }
  }

  /** The n low bytes are the value modulo 256^n. */
  lemma LittleBytesMod(v: nat, n: nat)
    ensures Little(LittleBytes(v, n)) == v % Pow256(n)
  {
    var k := HighPart(v, n);
    LittleBound(LittleBytes(v, n));
    ModUnique(v, Pow256(n), k, Little(LittleBytes(v, n)));
  }

  lemma ModUnique(v: nat, m: nat, q: nat, r: nat)
    requires m > 0 && r < m && v == r + q * m
    ensures v % m == r
  {
    assert m * (v / m - q) == r - v % m;
    MulAtLeast(m, v / m - q);
  }

  lemma MulAtLeast(m: int, d: int)
    requires m > 0
    ensures d >= 1 ==> m * d >= m
    ensures d <= -1 ==> m * d <= -m
  {
  }

  /** The sum of two little-endian numbers in the width of the first: addition modulo 256^|x|. */
  ghost function Plus(x: Bytes, y: Bytes): Bytes
  {
    LittleBytes(Little(x) + Little(y), |x|)
  }

  /** addMod256: a becomes a + b modulo 2^256, byte by byte in place. */
  method AddMod256(a: array<Byte>, b: Id)
    requires a.Length == 32
    modifies a
    ensures a[..] == Plus(old(a[..]), b)
  {
    ghost var was := a[..];
    var carry: int := 0;
    for i := 0 to 32
      invariant 0 <= carry <= 1 && Added(a[..], was, b, i, carry)
    {
      ghost var s := a[..];
      AddStep(s, was, b, i, carry);
      var val: int := a[i] + b[i] + carry;
      var low: Byte := val % 256;
      a[i] := low;
      assert a[..] == s[i := low];
      carry := val / 256;
    }
    AddedAll(a[..], was, b, carry);
  }

  /** After i steps: the low i bytes and the carry hold the sum of the low i bytes, the rest is untouched. */
  ghost predicate Added(s: Bytes, x: Bytes, y: Bytes, i: nat, carry: nat)
  {
    && i <= |s| == |x| == |y|
    && Little(s[..i]) + carry * Pow256(i) == Little(x[..i]) + Little(y[..i])
    && s[i..] == x[i..]
  }

  lemma AddStep(s: Bytes, x: Bytes, y: Bytes, i: nat, carry: nat)
    requires i < |s| && Added(s, x, y, i, carry) && carry <= 1
    ensures var v := s[i] + y[i] + carry; Added(s[i := v % 256], x, y, i + 1, v / 256)
  {
    var v := s[i] + y[i] + carry;
    assert s[i] == s[i..][0] == x[i..][0] == x[i];
    var s' := s[i := v % 256];
    assert s'[..i + 1] == s[..i] + [v % 256] && s'[i + 1..] == s[i..][1..] && x[i + 1..] == x[i..][1..];
    assert x[..i + 1] == x[..i] + [x[i]] && y[..i + 1] == y[..i] + [y[i]];
    LittleAppend(s[..i], v % 256);
    LittleAppend(x[..i], x[i]);
    LittleAppend(y[..i], y[i]);
    CarryStep(v % 256, v / 256, x[i], y[i], carry, Pow256(i));
  }

  lemma CarryStep(r: nat, q: nat, c: nat, d: nat, carry: nat, p: nat)
    requires r + 256 * q == c + d + carry
    ensures r * p + q * (256 * p) == c * p + d * p + carry * p
  {
    assert q * (256 * p) == (256 * q) * p;
    assert (r + 256 * q) * p == r * p + (256 * q) * p;
    assert (c + d + carry) * p == c * p + d * p + carry * p;
  }

  lemma AddedAll(s: Bytes, x: Bytes, y: Bytes, carry: nat)
    requires Added(s, x, y, |s|, carry)
    ensures s == Plus(x, y)
  {
    assert s[..|s|] == s && x[..|s|] == x && y[..|s|] == y;
    LowBytes(Little(s), carry, |s|);
    LittleInverse(s);
  }

  /** What AddMod256 leaves in its buffer is the sum modulo 2^256. */
  lemma PlusIsMod(x: Bytes, y: Bytes)
    ensures Little(Plus(x, y)) == (Little(x) + Little(y)) % Pow256(|x|)
  {
    LittleBytesMod(Little(x) + Little(y), |x|);
  }

  /** The sum of the ids of items. */
  ghost function IdSum(items: seq<Item>): nat
  {
    if items == [] then 0 else Little(items[0].id) + IdSum(items[1..])
  }

  ghost function Print(hash: Hash, items: seq<Item>): (fp: Bytes)
    ensures |fp| == 16
  {
    hash(LittleBytes(IdSum(items), WIDTH) + Varint(Wrap64(|items|)))[..16]
  }

  /** The sum is additive over concatenated slices. */
  lemma {:induction false} IdSumConcat(s: seq<Item>, t: seq<Item>)
    ensures IdSum(s + t) == IdSum(s) + IdSum(t)
  {
    if s == [] {
      assert s + t == t;
    } else {
      assert (s + t)[1..] == s[1..] + t;
      IdSumConcat(s[1..], t);
    }
  }

  /** ... and so does not depend on the order of the items. */
  lemma {:induction false} IdSumPermuted(s: seq<Item>, t: seq<Item>)
    requires multiset(s) == multiset(t)
    ensures IdSum(s) == IdSum(t) && |s| == |t|
    decreases |s|
  {
    assert |multiset(s)| == |s| && |multiset(t)| == |t|;
    if s != [] {
      assert s[0] in multiset(t);
      var i :| 0 <= i < |t| && t[i] == s[0];
      assert s == [s[0]] + s[1..];
      WithoutOne(t, i);
      IdSumPermuted(s[1..], t[..i] + t[i + 1..]);
    }
  }

  lemma WithoutOne(t: seq<Item>, i: nat)
    requires i < |t|
    ensures multiset(t[..i] + t[i + 1..]) == multiset(t) - multiset{t[i]}
    ensures IdSum(t) == Little(t[i].id) + IdSum(t[..i] + t[i + 1..])
  {
    hide Little, IdSum;
    var a, x, b := t[..i], t[i], t[i + 1..];
    assert t == a + ([x] + b);
    ItemsMiddle(a, x, b);
    SumMiddle(a, x, b);
  }

  lemma ItemsMiddle(a: seq<Item>, x: Item, b: seq<Item>)
    ensures multiset(a + ([x] + b)) == multiset(a + b) + multiset{x}
  {
  }

  lemma SumMiddle(a: seq<Item>, x: Item, b: seq<Item>)
    ensures IdSum(a + ([x] + b)) == Little(x.id) + IdSum(a + b)
  {
    hide Little;
    IdSumConcat(a, [x] + b);
    IdSumConcat(a, b);
    assert ([x] + b)[1..] == b;
  }

  lemma PrintPermuted(hash: Hash, s: seq<Item>, t: seq<Item>)
    requires multiset(s) == multiset(t)
    ensures Print(hash, s) == Print(hash, t)
  {
    IdSumPermuted(s, t);
  }

  /** What a fingerprint is: the first 16 bytes of the hash of the sum of the ids modulo 2^256, little-endian, and the count. */
  ghost predicate IsFingerprint(hash: Hash, items: seq<Item>, fp: Bytes)
    requires |items| < TWO_64
  {
    exists sum: Bytes ::
      && |sum| == 32 && Little(sum) == IdSum(items) % Pow256(32)
      && fp == hash(sum + Varint(|items|))[..16]
  }

  /** computeFingerprint. */
  method ComputeFingerprint(hash: Hash, items: seq<Item>) returns (fp: Bytes)
    requires |items| < TWO_64
    ensures IsFingerprint(hash, items, fp) && fp == Print(hash, items)
  {
    hide Plus, LittleBytes, IdSum;
    var sum := new Byte[32](_ => 0);
    NothingSummed(items, sum[..]);
    for i := 0 to |items|
      invariant sum[..] == LittleBytes(IdSum(items[..i]), WIDTH)
    {
      AddMod256(sum, items[i].id);
      AddReduced(items, i, WIDTH);
    }
    assert items[..|items|] == items;
    var count := EncodeVarint(|items|);
    fp := hash(sum[..] + count)[..16];
    LittleBytesMod(IdSum(items), WIDTH);
  }

  /** Print is the fingerprint, and there is no other. */
  lemma PrintIs(hash: Hash, items: seq<Item>, fp: Bytes)
    requires |items| < TWO_64
    ensures IsFingerprint(hash, items, fp) <==> fp == Print(hash, items)
  {
    hide IdSum, Varint, LittleBytes, Little;
    var own := LittleBytes(IdSum(items), 32);
    LittleBytesMod(IdSum(items), 32);
    forall sum: Bytes | |sum| == 32 && Little(sum) == IdSum(items) % Pow256(32) ensures sum == own { SameLittle(sum, own); }
  }

  lemma SameLittle(a: Bytes, b: Bytes)
    requires |a| == |b| && Little(a) == Little(b)
    ensures a == b
  {
    hide Little, LittleBytes;
    LittleInverse(a);
    LittleInverse(b);
  }

  lemma NothingSummed(items: seq<Item>, zeros: Bytes)
    requires |zeros| == WIDTH && forall i :: 0 <= i < WIDTH ==> zeros[i] == 0
    ensures zeros == LittleBytes(IdSum(items[..0]), WIDTH)
  {
    LittleZeros(zeros, WIDTH);
    assert items[..0] == [];
  }

  lemma {:induction false} LittleZeros(bs: Bytes, n: nat)
    requires |bs| == n && forall i :: 0 <= i < n ==> bs[i] == 0
    ensures bs == LittleBytes(0, n)
    decreases n
  {
    if n > 0 {
      LittleZeros(bs[1..], n - 1);
      assert bs == [bs[0]] + bs[1..];
    }
  }

  /** Adding an id to the reduced sum of the items before it gives the reduced sum including it. */
  lemma AddReduced(items: seq<Item>, i: nat, n: nat)
    requires i < |items|
    ensures Plus(LittleBytes(IdSum(items[..i]), n), items[i].id) == LittleBytes(IdSum(items[..i + 1]), n)
  {
    assert items[..i + 1] == items[..i] + [items[i]];
    IdSumConcat(items[..i], [items[i]]);
    assert [items[i]][1..] == [];
    PlusReduced(IdSum(items[..i]), items[i].id, n);
  }

  lemma PlusReduced(s: nat, y: Bytes, n: nat)
    ensures Plus(LittleBytes(s, n), y) == LittleBytes(s + Little(y), n)
  {
    var k := HighPart(s, n);
    LowBytes(Little(LittleBytes(s, n)) + Little(y), k, n);
  }
}
