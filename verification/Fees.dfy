/** Order money (nipCO/fees.go): fees on 64-bit words, and the bills a payment mints. */
module Fees {
  import opened Words

  // ------------------------------------------------------------------ words

  /** math/bits on 64-bit words. */
  function Mul64(x: U64, y: U64): (r: (U64, U64))
    ensures r.0 * 0x1_0000_0000_0000_0000 + r.1 == x * y
  {
    ProductBound(x, y);
    (x * y / 0x1_0000_0000_0000_0000, x * y % 0x1_0000_0000_0000_0000)
  }

  lemma ProductBound(x: U64, y: U64)
    ensures 0 <= x * y < 0x1_0000_0000_0000_0000 * 0x1_0000_0000_0000_0000
  {
    ProductBelow(x, y, 0x1_0000_0000_0000_0000);
  }

  lemma ProductBelow(x: nat, y: nat, t: nat)
    requires x < t && y < t
    ensures x * y < t * t
  {
    assert x * y <= x * t;
    assert x * t < t * t;
  }

  lemma QuotientBelow(hi: nat, lo: nat, y: nat, t: nat)
    requires hi < y && lo < t
    ensures var n := hi * t + lo; n / y < t && y * (n / y) <= n < y * (n / y) + y
  {
    var n := hi * t + lo;
    var q := n / y;
    Quotient(n, y);
    LargerFactor(hi + 1, y, t);
    LessFactor(y, q, t);
  }

  lemma Quotient(n: nat, y: nat)
    requires y > 0
    ensures y * (n / y) <= n < y * (n / y) + y
  {
  }

  lemma LargerFactor(a: nat, b: nat, t: nat)
    requires a <= b && a > 0
    ensures (a - 1) * t + t <= b * t
  {
    assert b * t - a * t == (b - a) * t;
  }

  lemma LessFactor(y: nat, q: nat, t: nat)
    requires y * q < y * t
    ensures q < t
  {
    assert y * t - y * q == y * (t - q);
  }

  /** The quotient by y; the code panics when hi >= y. */
  function Div64(hi: U64, lo: U64, y: U64): (q: U64)
    requires hi < y
    ensures y * q <= hi * 0x1_0000_0000_0000_0000 + lo < y * q + y
  {
    QuotientFits(hi, lo, y);
    (hi * 0x1_0000_0000_0000_0000 + lo) / y
  }

  lemma QuotientFits(hi: U64, lo: U64, y: U64)
    requires hi < y
    ensures var n := hi * 0x1_0000_0000_0000_0000 + lo;
      0 <= n / y < 0x1_0000_0000_0000_0000 && y * (n / y) <= n < y * (n / y) + y
  {
    QuotientBelow(hi, lo, y, 0x1_0000_0000_0000_0000);
  }

  function Add64(x: U64, y: U64): (r: (U64, nat))
    ensures r.1 * 0x1_0000_0000_0000_0000 + r.0 == x + y && r.1 <= 1
  {
    if x + y < 0x1_0000_0000_0000_0000 then (x + y, 0) else (x + y - 0x1_0000_0000_0000_0000, 1)
  }

  // ------------------------------------------------------------------- fees

  const LIGHTNING := "lightning"
  const ONCHAIN := "onchain"

  datatype Terms = Terms(feeBase: U64, feePpm: U64)

  datatype Fee = BadRequest | TooLarge | Fee(fee: U64, pay: U64)

  /** OrderFee. */
  function OrderFee(kind: string, k: Terms, amount: U64): (r: Fee)
  {
    if kind != LIGHTNING && kind != ONCHAIN then BadRequest
    else if kind == ONCHAIN && amount % 1000 != 0 then BadRequest
    else
      var (hi, lo) := Mul64(k.feePpm, amount);
      if hi >= 1_000_000 then TooLarge
      else
        var prop := Div64(hi, lo, 1_000_000);
        var (fee, carry) := Add64(k.feeBase, prop);
        if carry != 0 then TooLarge
        else
          var (pay, carry') := Add64(amount, fee);
          if carry' != 0 then TooLarge
          else if kind == ONCHAIN && pay % 1000 != 0 then
            var up := 1000 - pay % 1000;
            var (pay', carry'') := Add64(pay, up);
            if carry'' != 0 then TooLarge else Fee(Wrap64(fee + up), pay')
          else Fee(fee, pay)
  }

  /** The fee on unbounded integers. */
  function ExactFee(k: Terms, amount: U64): nat { k.feeBase + Share(k.feePpm, amount) }

  function Share(ppm: U64, amount: U64): nat { ppm * amount / 1_000_000 }

  /** A payment on chain is a whole number of base units. */
  predicate Payable(kind: string, pay: nat) { kind == ONCHAIN ==> pay % 1000 == 0 }

  /** What the buyer should pay: the least payable amount that covers the exact fee. */
  function ExactPay(kind: string, k: Terms, amount: U64): nat
  {
    var pay := amount + ExactFee(k, amount);
    if kind == ONCHAIN && pay % 1000 != 0 then pay + 1000 - pay % 1000 else pay
  }

  lemma ExactPayIsLeast(kind: string, k: Terms, amount: U64, pay: nat)
    ensures Payable(kind, ExactPay(kind, k, amount)) && ExactPay(kind, k, amount) >= amount + ExactFee(k, amount)
    ensures Payable(kind, pay) && pay >= amount + ExactFee(k, amount) ==> pay >= ExactPay(kind, k, amount)
  {
    hide ExactFee;
    var exact := amount + ExactFee(k, amount);
    if kind == ONCHAIN && exact % 1000 != 0 { NextThousand(exact, pay); }
  }

  lemma NextThousand(n: nat, m: nat)
    requires n % 1000 != 0
    ensures (n + 1000 - n % 1000) % 1000 == 0
    ensures m >= n && m % 1000 == 0 ==> m >= n + 1000 - n % 1000
  {
  }

  /** The words compute the share, or show it does not fit one. */
  lemma ShareOnWords(ppm: U64, amount: U64)
    ensures var (hi, lo) := Mul64(ppm, amount);
      && (hi >= 1_000_000 <==> Share(ppm, amount) >= 0x1_0000_0000_0000_0000)
      && (hi < 1_000_000 ==> Div64(hi, lo, 1_000_000) == Share(ppm, amount))
  {
    hide Mul64;
    var (hi, lo) := Mul64(ppm, amount);
    var n := ppm * amount;
    assert n == hi * 0x1_0000_0000_0000_0000 + lo;
    assert 1_000_000 * Share(ppm, amount) <= n < 1_000_000 * Share(ppm, amount) + 1_000_000;
  }

  /**
    * The fee is exact: refused as too large exactly when what should be paid does not
    * fit 64 bits, and otherwise what should be paid, less the amount.
    */
  lemma OrderFeeExact(kind: string, k: Terms, amount: U64)
    ensures var r, exact := OrderFee(kind, k, amount), amount + k.feeBase + k.feePpm * amount / 1_000_000;
      var pay := if kind == "onchain" then (exact + 999) / 1000 * 1000 else exact;
      if kind !in {"lightning", "onchain"} || (kind == "onchain" && amount % 1000 != 0) then r == BadRequest
      else if pay >= 0x1_0000_0000_0000_0000 then r == TooLarge
      else r.Fee? && r.pay == pay && r.fee == pay - amount
    ensures var r := OrderFee(kind, k, amount);
      r.Fee? ==> r.pay == ExactPay(kind, k, amount) && r.fee == ExactPay(kind, k, amount) - amount
  {
    hide Mul64, Div64, Share;
    ShareOnWords(k.feePpm, amount);
    ShareIs(k.feePpm, amount);
    RoundedUp(amount + ExactFee(k, amount));
  }

  lemma ShareIs(ppm: U64, amount: U64) ensures Share(ppm, amount) == ppm * amount / 1_000_000 { }

  lemma RoundedUp(n: nat)
    ensures (n + 999) / 1000 * 1000 == if n % 1000 != 0 then n + 1000 - n % 1000 else n
  {
  }

  // ------------------------------------------------------------------ bills

  function Total(bills: seq<U64>): nat { if bills == [] then 0 else Total(bills[..|bills| - 1]) + bills[|bills| - 1] }

  /** Bills of max, then the rest. */
  predicate Split(bills: seq<U64>, max: U64)
  {
    && bills != [] && 0 < bills[|bills| - 1] && (max > 0 ==> bills[|bills| - 1] <= max)
    && (forall i :: 0 <= i < |bills| - 1 ==> bills[i] == max && max > 0)
    && (max == 0 ==> |bills| == 1)
  }

  lemma TotalNone() ensures Total([]) == 0 { }

  lemma TotalAppend(bills: seq<U64>, x: U64)
    ensures Total(bills + [x]) == Total(bills) + x
  {
    assert (bills + [x])[..|bills|] == bills;
  }

  /** MintSplit. */
  method MintSplit(received: U64, fee: U64, max: U64) returns (out: seq<U64>)
    ensures received <= fee ==> out == []
    ensures received > fee ==> Split(out, max) && Total(out) == received - fee
  {
    hide Total;
    TotalNone();
    if received <= fee { return []; }
    var rest: U64 := received - fee;
    if max == 0 {
      out := [rest];
      TotalAppend([], rest);
      assert [] + [rest] == out;
      return;
    }
    out := [];
    while rest > max
      invariant 0 < rest <= received - fee
      invariant forall i :: 0 <= i < |out| ==> out[i] == max
      invariant Total(out) + rest == received - fee
      decreases rest
    {
      TotalAppend(out, max);
      out := out + [max];
      rest := rest - max;
    }
    TotalAppend(out, rest);
    out := out + [rest];
  }

  lemma {:induction false} TotalOfSame(bills: seq<U64>, max: U64)
    requires forall i :: 0 <= i < |bills| ==> bills[i] == max
    ensures Total(bills) == |bills| * max
  {
    if bills != [] {
      var n := |bills| - 1;
      TotalOfSame(bills[..n], max);
      assert (n + 1) * max == n * max + max;
    }
  }

  /** There is one such split of each sum: the fewest bills within the bound. */
  lemma SplitIsOne(a: seq<U64>, b: seq<U64>, max: U64)
    requires Split(a, max) && Split(b, max) && Total(a) == Total(b)
    ensures a == b
  {
    var m, n := |a| - 1, |b| - 1;
    TotalOfSame(a[..m], max);
    TotalOfSame(b[..n], max);
    if max > 0 { SameCount(m, n, a[m], b[n], max); }
    assert a == a[..m] + [a[m]] && b == b[..n] + [b[n]];
    assert a[..m] == b[..n];
  }

  lemma SameCount(m: nat, n: nat, x: int, y: int, max: int)
    requires max > 0 && 0 < x <= max && 0 < y <= max && m * max + x == n * max + y
    ensures m == n && x == y
  {
    assert (m - n) * max == y - x;
    Scaled(m - n, max);
  }

  lemma Scaled(d: int, max: int)
    requires max > 0
    ensures -max < d * max < max ==> d == 0
  {
    if d >= 1 { assert d * max >= max; }
    if d <= -1 { assert d * max <= -max; }
  }

  /** An order paid in full mints bills that come to the ordered amount, and none when nothing is ordered. */
  method MintOrder(kind: string, k: Terms, amount: U64, max: U64) returns (r: Fee, bills: seq<U64>)
    ensures r == OrderFee(kind, k, amount)
    ensures r.Fee? ==> Total(bills) == amount && (amount > 0 ==> Split(bills, max)) && (amount == 0 ==> bills == [])
  {
    hide OrderFee, ExactPay;
    r := OrderFee(kind, k, amount);
    bills := [];
    OrderFeeExact(kind, k, amount);
    ExactPayIsLeast(kind, k, amount, 0);
    if r.Fee? { bills := MintSplit(r.pay, r.fee, max); }
  }
}
