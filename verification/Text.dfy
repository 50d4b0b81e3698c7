/** Strings as Go compares and formats them. */
module Text {
  import opened Words

  /** Go's < on strings. */
  predicate Less(a: string, b: string)
  {
    b != [] && (a == [] || a[0] < b[0] || (a[0] == b[0] && Less(a[1..], b[1..])))
  }

  lemma {:induction false} LessTotal(a: string, b: string)
    ensures Less(a, b) || Less(b, a) || a == b
    ensures !(Less(a, b) && Less(b, a))
    ensures Less(a, b) ==> a != b
  {
    if a != [] && b != [] {
      LessTotal(a[1..], b[1..]);
      assert a == [a[0]] + a[1..] && b == [b[0]] + b[1..];
    }
  }

  lemma {:induction false} LessTransitive(a: string, b: string, c: string)
    requires Less(a, b) && Less(b, c)
    ensures Less(a, c)
  {
    if a != [] && a[0] == b[0] == c[0] { LessTransitive(a[1..], b[1..], c[1..]); }
  }

  predicate HexDigit(c: char) { '0' <= c <= '9' || 'a' <= c <= 'f' }

  /** lowerHex: lower-case hex of n characters, any even length when n is 0. */
  predicate LowerHex(s: string, n: nat)
  {
    && s != [] && (n > 0 ==> |s| == n) && (n == 0 ==> |s| % 2 == 0)
    && forall i :: 0 <= i < |s| ==> HexDigit(s[i])
  }

  // ---------------------------------------------------------------- decimals

  /** strconv.FormatUint in base 10. */
  function Decimal(n: nat): (s: string)
    ensures s != []
  {
    if n < 10 then [DigitChar(n)] else Decimal(n / 10) + [DigitChar(n % 10)]
  }

  function DigitChar(d: nat): (c: char)
    requires d < 10
    ensures '0' <= c <= '9' && c as int == d + 48
  {
    (d + 48) as char
  }

  function DigitValue(c: char): (d: nat)
    requires '0' <= c <= '9'
    ensures d < 10 && c as int == d + 48
  {
    c as int - 48
  }

  predicate AllDigits(s: string) { forall i :: 0 <= i < |s| ==> '0' <= s[i] <= '9' }

  /** The number a string of digits denotes. */
  function Value(s: string): (n: nat)
    requires AllDigits(s)
  {
    if s == [] then 0 else Value(s[..|s| - 1]) * 10 + DigitValue(s[|s| - 1])
  }

  lemma {:induction false} DecimalDigits(n: nat)
    ensures AllDigits(Decimal(n)) && Value(Decimal(n)) == n
    ensures n > 0 ==> Decimal(n)[0] != '0'
    ensures |Decimal(n)| > 1 ==> Decimal(n)[0] != '0'
  {
    if n >= 10 {
      DecimalDigits(n / 10);
      assert Decimal(n)[..|Decimal(n)| - 1] == Decimal(n / 10);
    } else {
      assert Decimal(n)[..0] == [];
    }
  }

  /** parseUint: an unsigned decimal with no sign and no leading zeros, at most 2^64 - 1. */
  function ParseUint(s: string): (r: Option<U64>)
  {
    if s == [] || (|s| > 1 && s[0] == '0') || !AllDigits(s) then None
    else if Value(s) > MAX_U64 then None
    else Some(Value(s))
  }

  /** parseInt: parseUint, at most 2^62. */
  function ParseInt(s: string): (r: Option<int>)
  {
    var n := ParseUint(s);
    if n.None? || n.value > 0x4000_0000_0000_0000 then None else Some(n.value)
  }

  /** What FormatUint prints is read back, and only as what it printed. */
  lemma DecimalRoundTrip(n: nat)
    ensures ParseUint(Decimal(n)) == if n <= MAX_U64 then Some(n) else None
    ensures ParseInt(Decimal(n)) == if n <= 0x4000_0000_0000_0000 then Some(n) else None
  {
    DecimalDigits(n);
  }

  /** Canonical: the only string read as n is the one printed for n. */
  lemma DecimalCanonical(s: string)
    requires ParseUint(s).Some?
    ensures s == Decimal(ParseUint(s).value)
  {
    ValuePrints(s);
  }

  lemma DecimalStep(m: nat, d: nat)
    requires 0 < m && d < 10
    ensures Decimal(m * 10 + d) == Decimal(m) + [DigitChar(d)]
  {
    assert (m * 10 + d) / 10 == m && (m * 10 + d) % 10 == d;
  }

  lemma {:induction false} ValuePrints(s: string)
    requires s != [] && AllDigits(s) && (|s| > 1 ==> s[0] != '0')
    ensures s == Decimal(Value(s))
    ensures |s| > 1 ==> Value(s) >= 10
  {
    hide Decimal;
    var n := |s| - 1;
    assert s == s[..n] + [s[n]];
    if n > 0 {
      ValuePrints(s[..n]);
      if n == 1 {
        assert s[..1][..0] == [] && Value(s[..1]) == DigitValue(s[0]);
      }
      DecimalStep(Value(s[..n]), DigitValue(s[n]));
    } else {
      assert s[..0] == [];
      DecimalDigit(DigitValue(s[0]));
    }
  }

  lemma DecimalDigit(d: nat)
    requires d < 10
    ensures Decimal(d) == [DigitChar(d)]
  {
  }

  /** The digit loop of parseUint, and the range check of strconv.ParseUint. */
  method ParseUintLoop(s: string) returns (r: Option<U64>)
    ensures r == ParseUint(s)
  {
    if s == [] || (|s| > 1 && s[0] == '0') { return None; }
    for i := 0 to |s|
      invariant AllDigits(s[..i])
    {
      if s[i] < '0' || s[i] > '9' { return None; }
      assert s[..i + 1] == s[..i] + [s[i]];
    }
    assert s[..|s|] == s;
    if Value(s) > MAX_U64 { return None; }
    r := Some(Value(s));
  }

  /** Less is the order of the first difference, a prefix coming first. */
  lemma {:induction false} LessIsLexical(p: string, x: char, u: string, y: char, v: string)
    requires x != y
    ensures Less(p + [x] + u, p + [y] + v) <==> x < y
    ensures Less(p, p + [x] + u) && !Less(p, p)
  {
    if p != [] {
      LessIsLexical(p[1..], x, u, y, v);
      assert (p + [x] + u)[1..] == p[1..] + [x] + u && (p + [y] + v)[1..] == p[1..] + [y] + v;
    }
  }

  /** Base ten. */
  lemma DecimalExample()
    ensures Decimal(1024) == "1024" && ParseUint("1024") == Some(1024) && ParseUint("0") == Some(0)
    ensures ParseUint("") == None && ParseUint("01") == None && ParseUint("+1") == None && ParseUint("1a") == None
  {
    assert Decimal(1) == "1" && Decimal(10) == "10" && Decimal(102) == "102";
    DecimalRoundTrip(1024);
    DecimalRoundTrip(0);
    assert "+1"[0] == '+' && "1a"[1] == 'a';
  }

  /** Lower-case hex: nothing but these sixteen characters, of the length asked or any even one. */
  lemma LowerHexMeans(s: string, n: nat)
    ensures LowerHex(s, n) <==> s != "" && (if n > 0 then |s| == n else |s| % 2 == 0) && forall c :: c in s ==> c in "0123456789abcdef"
  {
    forall c: char ensures HexDigit(c) <==> c in "0123456789abcdef" { HexDigits(c); }
    if forall c :: c in s ==> c in "0123456789abcdef" {
      forall i | 0 <= i < |s| ensures HexDigit(s[i]) { assert s[i] in s; }
    }
  }

  lemma HexDigits(c: char)
    ensures HexDigit(c) <==> c in "0123456789abcdef"
  {
    var d := "0123456789abcdef";
    if HexDigit(c) {
      var i := if c <= '9' then c as int - 48 else c as int - 87;
      assert d[i] == c;
    }
  }
}
