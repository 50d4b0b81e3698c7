/**
  * The pocket's printer and parser undo each other (nipCP/entry.go:220-450), on
  * exactly the entries whose times the parser admits and whose calls carry no
  * stray identity; and the parser does not depend on the order of tags.
  */
module PocketRoundTrip {
  import opened Words
  import opened Text
  import opened PocketEntry
  import opened PocketRumor

  // ---------------------------------------------------------- lists of tags

  /** Reading a list is reading its parts one after the other. */
  lemma {:induction false} ReadJoins(d: Draft, a: seq<Tag>, b: seq<Tag>, n: nat)
    requires n <= |b|
    ensures ReadTags(d, a + b, |a| + n) == (var r := ReadTags(d, a, |a|); if r.None? then None else ReadTags(r.value, b, n))
  {
    hide ReadTag;
    if n > 0 { ReadJoins(d, a, b, n - 1); } else { ReadSame(d, a, a + b, |a|); }
  }

  lemma {:induction false} ReadSame(d: Draft, a: seq<Tag>, b: seq<Tag>, n: nat)
    requires n <= |a| && n <= |b| && a[..n] == b[..n]
    ensures ReadTags(d, a, n) == ReadTags(d, b, n)
  {
    hide ReadTag;
    if n > 0 {
      assert a[n - 1] == a[..n][n - 1] && b[n - 1] == b[..n][n - 1];
      assert a[..n - 1] == a[..n][..n - 1] && b[..n - 1] == b[..n][..n - 1];
      ReadSame(d, a, b, n - 1);
    }
  }

  // --------------------------------------------------------- field by field

  /** Two entries have the same field of this name; StateKey stands for what no tag fills. */
  predicate Agree(p: Entry, q: Entry, k: Key)
  {
    match k
    case WKey => p.w == q.w
    case RevKey => p.rev == q.rev
    case CashKey => p.cash == q.cash
    case AmountKey => p.amount == q.amount
    case ChainKey => p.chain == q.chain
    case IdentityKey => p.identity == q.identity
    case StateKey => p.state == q.state && p.checkedAt == q.checkedAt && p.rumorId == q.rumorId
                     && p.rumorCreatedAt == q.rumorCreatedAt && p.wrapId == q.wrapId && p.rawState == q.rawState
    case MintKey => p.mint == q.mint
    case ExpiresAtKey => p.expiresAt == q.expiresAt
    case SourceKey => p.source == q.source
    case RequestIdKey => p.requestId == q.requestId
    case DeadlineKey => p.deadline == q.deadline
    case TargetKey => p.target == q.target
    case DeviceKey => p.device == q.device
    case SecretKey => p.secrets == q.secrets
    case OrderKeyKey => p.orderKey == q.orderKey
    case NotifyKey => p.notify == q.notify
    case AddressKey => p.address == q.address
    case QuoteKey => p.quote == q.quote
    case ReceiptKey => p.receipt == q.receipt
    case WrapKeyKey => p.wrapKey == q.wrapKey
    case OtherKey => true
  }

  lemma AgreeEverywhere(p: Entry, q: Entry)
    requires forall k :: Agree(p, q, k)
    ensures p == q
  {
    hide Agree;
    AgreeFront(p, q);
    AgreeMiddle(p, q);
    AgreeBack(p, q);
  }

  lemma AgreeFront(p: Entry, q: Entry)
    requires forall k :: Agree(p, q, k)
    ensures p.w == q.w && p.rev == q.rev && p.cash == q.cash && p.amount == q.amount && p.chain == q.chain
    ensures p.identity == q.identity && p.state == q.state && p.checkedAt == q.checkedAt && p.rumorId == q.rumorId
    ensures p.rumorCreatedAt == q.rumorCreatedAt && p.wrapId == q.wrapId && p.rawState == q.rawState
    ensures p.mint == q.mint && p.expiresAt == q.expiresAt && p.source == q.source
  {
    assert Agree(p, q, WKey) && Agree(p, q, RevKey) && Agree(p, q, CashKey) && Agree(p, q, AmountKey);
    assert Agree(p, q, ChainKey) && Agree(p, q, IdentityKey) && Agree(p, q, StateKey);
    assert Agree(p, q, MintKey) && Agree(p, q, ExpiresAtKey) && Agree(p, q, SourceKey);
  }

  lemma AgreeMiddle(p: Entry, q: Entry)
    requires forall k :: Agree(p, q, k)
    ensures p.requestId == q.requestId && p.deadline == q.deadline && p.target == q.target && p.device == q.device
    ensures p.secrets == q.secrets
  {
    assert Agree(p, q, RequestIdKey) && Agree(p, q, DeadlineKey) && Agree(p, q, TargetKey) && Agree(p, q, DeviceKey);
    assert Agree(p, q, SecretKey);
  }

  lemma AgreeBack(p: Entry, q: Entry)
    requires forall k :: Agree(p, q, k)
    ensures p.orderKey == q.orderKey && p.notify == q.notify && p.address == q.address
    ensures p.quote == q.quote && p.receipt == q.receipt && p.wrapKey == q.wrapKey
  {
    assert Agree(p, q, OrderKeyKey) && Agree(p, q, NotifyKey) && Agree(p, q, AddressKey);
    assert Agree(p, q, QuoteKey) && Agree(p, q, ReceiptKey) && Agree(p, q, WrapKeyKey);
  }

  lemma AgreeTransitive(p: Entry, q: Entry, r: Entry, k: Key)
    requires Agree(p, q, k) && Agree(q, r, k)
    ensures Agree(p, r, k)
  {
  }

  /** Reading one tag fills its own field and no other. */
  lemma FillOnly(e: Entry, k: Key, t: Tag, j: Key)
    requires |t| >= 2 && j != k && Fill(e, k, t).Some?
    ensures Agree(Fill(e, k, t).value, e, j)
  {
    hide Fill, Agree;
    if Index(k) < 11 { FillOnlyFront(e, k, t, j); } else { FillOnlyBack(e, k, t, j); }
  }

  lemma FillOnlyFront(e: Entry, k: Key, t: Tag, j: Key)
    requires |t| >= 2 && j != k && Fill(e, k, t).Some? && Index(k) < 11
    ensures Agree(Fill(e, k, t).value, e, j)
  {
    hide ParseUint, ParseInt;
  }

  lemma FillOnlyBack(e: Entry, k: Key, t: Tag, j: Key)
    requires |t| >= 2 && j != k && Fill(e, k, t).Some? && Index(k) >= 11
    ensures Agree(Fill(e, k, t).value, e, j)
  {
    hide ParseUint, ParseInt;
  }

  // ------------------------------------------------------------- round trip

  /** The parser admits e's times, and e's identity is one that is printed or none. */
  predicate Printable(e: Entry) { TimesAdmitted(e) && (e.identity.kind == "" ==> e.identity == NO_IDENTITY) }

  predicate TimesAdmitted(e: Entry)
  {
    e.checkedAt <= MAX_TIME && e.deadline <= MAX_TIME && (e.expiresAt.Some? ==> e.expiresAt.value <= MAX_TIME)
  }

  /** A single tag printed for k is read back. */
  lemma FillPrinted(p: Entry, e: Entry, k: Key, id: string, at: int)
    requires Valid(e) && TimesAdmitted(e) && k !in {SecretKey, StateKey} && Part(e, k) != []
    requires Agree(p, Blank(id, at), k)
    ensures |Part(e, k)| == 1 && |Part(e, k)[0]| >= 2 && Part(e, k)[0][0] == Label(k)
    ensures Fill(p, k, Part(e, k)[0]).Some? && Agree(Fill(p, k, Part(e, k)[0]).value, e, k)
  {
    hide Label, Valid, Part, Fill, Agree;
    if k in {RevKey, AmountKey, ExpiresAtKey, DeadlineKey} {
      FillNumber(p, e, k);
    } else {
      FillText(p, e, k, id, at);
    }
  }

  lemma FillNumber(p: Entry, e: Entry, k: Key)
    requires Valid(e) && TimesAdmitted(e) && k in {RevKey, AmountKey, ExpiresAtKey, DeadlineKey} && Part(e, k) != []
    ensures |Part(e, k)| == 1 && |Part(e, k)[0]| >= 2 && Part(e, k)[0][0] == Label(k)
    ensures Fill(p, k, Part(e, k)[0]).Some? && Agree(Fill(p, k, Part(e, k)[0]).value, e, k)
  {
    hide Label, Decimal, ParseUint, ParseInt, LowerHex, ValidSecrets, Known, Final, ValidRequestId, ValidIdentity;
    DecimalRoundTrip(e.rev);
    DecimalRoundTrip(e.amount);
    if e.expiresAt.Some? { DecimalRoundTrip(e.expiresAt.value); }
    if k == DeadlineKey { DecimalRoundTrip(e.deadline); }
  }

  lemma FillText(p: Entry, e: Entry, k: Key, id: string, at: int)
    requires Valid(e) && k !in {SecretKey, StateKey, RevKey, AmountKey, ExpiresAtKey, DeadlineKey} && Part(e, k) != []
    requires Agree(p, Blank(id, at), k)
    ensures |Part(e, k)| == 1 && |Part(e, k)[0]| >= 2 && Part(e, k)[0][0] == Label(k)
    ensures Fill(p, k, Part(e, k)[0]).Some? && Agree(Fill(p, k, Part(e, k)[0]).value, e, k)
  {
    hide Label, Decimal, ParseUint, ParseInt, LowerHex, ValidSecrets, Known, Final, ValidRequestId;
  }

  /** What is not printed is blank. */
  lemma AbsentIsBlank(e: Entry, k: Key, id: string, at: int)
    requires Valid(e) && Printable(e) && k != StateKey && Part(e, k) == []
    ensures Agree(e, Blank(id, at), k)
  {
    hide Label, LowerHex, ValidSecrets, Known, Final, ValidRequestId;
    if k == SecretKey { SecretCount(e.secrets, |e.secrets|); }
  }

  lemma {:induction false} SecretCount(ss: seq<Secret>, n: nat)
    requires n <= |ss|
    ensures |SecretTags(ss, n)| == n
  {
    if n > 0 { SecretCount(ss, n - 1); }
  }

  lemma ReadSecret(d: Draft, s: Secret)
    requires SecretKey !in d.seen
    ensures ReadTag(d, SecretTag(s)) == Some(d.(entry := d.entry.(secrets := d.entry.secrets + [s])))
  {
    hide KeyOf, Label;
    KeyOfLabel(SecretKey);
  }

  /** Secrets are read back in order. */
  lemma {:induction false} ReadSecrets(d: Draft, ss: seq<Secret>, n: nat)
    requires n <= |ss| && SecretKey !in d.seen
    ensures var ts := SecretTags(ss, n);
      ReadTags(d, ts, |ts|) == Some(d.(entry := d.entry.(secrets := d.entry.secrets + ss[..n])))
  {
    hide ReadTag, SecretTag;
    if n == 0 {
      assert d.entry.secrets + ss[..0] == d.entry.secrets;
    } else {
      var ts := SecretTags(ss, n - 1);
      SecretCount(ss, n - 1);
      ReadSecrets(d, ss, n - 1);
      ReadSame(d, ts, SecretTags(ss, n), n - 1);
      ReadSecret(ReadTags(d, ts, n - 1).value, ss[n - 1]);
      assert d.entry.secrets + ss[..n] == (d.entry.secrets + ss[..n - 1]) + [ss[n - 1]];
    }
  }

  /** What is to be in the field k once the first n names are read. */
  ghost function Due(e: Entry, k: Key, n: nat, id: string, at: int): Entry
  {
    if Index(k) < n && k != StateKey then e else Blank(id, at)
  }

  ghost predicate Filled(p: Entry, e: Entry, n: nat, id: string, at: int)
  {
    forall k :: Agree(p, Due(e, k, n, id, at), k)
  }

  /** What has been read once the first n names have. */
  ghost predicate Progress(d: Draft, e: Entry, n: nat, id: string, at: int)
  {
    && Filled(d.entry, e, n, id, at)
    && (forall k :: k in d.seen ==> Index(k) < n && k != SecretKey)
    && (forall k :: k in {RevKey, AmountKey, ChainKey} && Index(k) < n ==> k in d.seen)
    && d.stateTag == if n > 6 then Part(e, StateKey)[0] else []
  }

  lemma ReadOne(d: Draft, t: Tag)
    ensures ReadTags(d, [t], 1) == ReadTag(d, t)
  {
    assert ReadTags(d, [t], 0) == Some(d);
  }

  /** The rest of the fields stay as they are. */
  lemma ProgressFields(p: Entry, p': Entry, e: Entry, n: nat, id: string, at: int)
    requires n < 21 && Filled(p, e, n, id, at)
    requires forall j :: j != KeyAt(n) ==> Agree(p', p, j)
    requires Agree(p', if KeyAt(n) == StateKey then Blank(id, at) else e, KeyAt(n))
    ensures Filled(p', e, n + 1, id, at)
  {
    hide Agree, KeyAt, Index, Blank;
    var m := n + 1;
    forall k ensures Agree(p', Due(e, k, m, id, at), k) {
      if k != KeyAt(n) {
        if Index(k) == n { OneIndex(k, KeyAt(n)); }
        assert Due(e, k, m, id, at) == Due(e, k, n, id, at);
        AgreeTransitive(p', p, Due(e, k, n, id, at), k);
      }
    }
  }

  lemma ProgressSeen(d: Draft, seen: set<Key>, n: nat)
    requires n < 21 && (forall k :: k in d.seen ==> Index(k) < n && k != SecretKey)
    requires forall k :: k in {RevKey, AmountKey, ChainKey} && Index(k) < n ==> k in d.seen
    requires KeyAt(n) != SecretKey && seen == d.seen + {KeyAt(n)}
    ensures forall k :: k in seen ==> Index(k) < n + 1 && k != SecretKey
    ensures forall k :: k in {RevKey, AmountKey, ChainKey} && Index(k) < n + 1 ==> k in seen
  {
    hide KeyAt, Index;
    forall k | k in {RevKey, AmountKey, ChainKey} && Index(k) < n + 1 ensures k in seen {
      if Index(k) == n { OneIndex(k, KeyAt(n)); }
    }
  }

  lemma AgreeSelf(p: Entry, k: Key)
    ensures Agree(p, p, k)
  {
  }

  /** One more name. */
  lemma ReadPart(d: Draft, e: Entry, n: nat, id: string, at: int)
    requires Valid(e) && Printable(e) && n < 21 && Progress(d, e, n, id, at)
    ensures var part := Part(e, KeyAt(n));
      var r := ReadTags(d, part, |part|);
      r.Some? && Progress(r.value, e, n + 1, id, at)
  {
    hide Valid, Printable, Agree, ReadTags, KeyAt, Blank, Progress, Part;
    var k := KeyAt(n);
    if k == SecretKey {
      assert n == 14;
      ReadSecretPart(d, e, id, at);
    } else if k == StateKey {
      assert n == 6;
      ReadStatePart(d, e, id, at);
    } else if Part(e, k) == [] {
      ReadAbsentPart(d, e, n, id, at);
    } else {
      ReadSinglePart(d, e, n, id, at);
    }
  }

  lemma NotYet(d: Draft, e: Entry, n: nat, id: string, at: int)
    requires n < 21 && Progress(d, e, n, id, at)
    ensures Agree(d.entry, Blank(id, at), KeyAt(n)) && KeyAt(n) !in d.seen && SecretKey !in d.seen
  {
    hide Agree, Blank, KeyAt;
    assert Due(e, KeyAt(n), n, id, at) == Blank(id, at);
  }

  lemma StateIsSixth(n: nat)
    requires n < 21
    ensures KeyAt(n) == StateKey <==> n == 6
    ensures KeyAt(n) == SecretKey <==> n == 14
  {
    hide KeyAt;
    if n == 6 { OneIndex(KeyAt(n), StateKey); }
    if n == 14 { OneIndex(KeyAt(n), SecretKey); }
  }

  lemma ReadAbsentPart(d: Draft, e: Entry, n: nat, id: string, at: int)
    requires Valid(e) && Printable(e) && n < 21 && Progress(d, e, n, id, at)
    requires KeyAt(n) !in {SecretKey, StateKey} && Part(e, KeyAt(n)) == []
    ensures ReadTags(d, [], 0) == Some(d) && Progress(d, e, n + 1, id, at)
  {
    hide Valid, Printable, Agree, Part, Blank, KeyAt, Index, Due;
    var k := KeyAt(n);
    NotYet(d, e, n, id, at);
    AbsentIsBlank(e, k, id, at);
    AgreeBoth(d.entry, e, Blank(id, at), k);
    forall j ensures Agree(d.entry, d.entry, j) { AgreeSelf(d.entry, j); }
    ProgressFields(d.entry, d.entry, e, n, id, at);
    StateIsSixth(n);
    forall j | j in {RevKey, AmountKey, ChainKey} && Index(j) < n + 1 ensures j in d.seen {
      AlwaysPrinted(e);
      if Index(j) == n { OneIndex(j, k); }
    }
  }

  lemma AlwaysPrinted(e: Entry)
    ensures Part(e, RevKey) != [] && Part(e, AmountKey) != [] && Part(e, ChainKey) != []
  {
  }

  lemma AgreeBoth(p: Entry, q: Entry, r: Entry, k: Key)
    requires Agree(p, r, k) && Agree(q, r, k)
    ensures Agree(p, q, k)
  {
  }

  lemma ReadSinglePart(d: Draft, e: Entry, n: nat, id: string, at: int)
    requires Valid(e) && Printable(e) && n < 21 && Progress(d, e, n, id, at)
    requires KeyAt(n) !in {SecretKey, StateKey} && Part(e, KeyAt(n)) != []
    ensures var part := Part(e, KeyAt(n));
      var r := ReadTags(d, part, |part|);
      r.Some? && Progress(r.value, e, n + 1, id, at)
  {
    hide Valid, Agree, Part, KeyOf, Label, Fill, Blank, KeyAt, Index, Due, ReadTags;
    var k := KeyAt(n);
    NotYet(d, e, n, id, at);
    FillPrinted(d.entry, e, k, id, at);
    var t := Part(e, k)[0];
    assert Part(e, k) == [t];
    ReadOne(d, t);
    KeyOfLabel(k);
    var p := Fill(d.entry, k, t).value;
    forall j | j != k ensures Agree(p, d.entry, j) { FillOnly(d.entry, k, t, j); }
    ProgressFields(d.entry, p, e, n, id, at);
    ProgressSeen(d, d.seen + {k}, n);
    StateIsSixth(n);
  }

  lemma ReadStatePart(d: Draft, e: Entry, id: string, at: int)
    requires Progress(d, e, 6, id, at)
    ensures var r := ReadTags(d, Part(e, StateKey), |Part(e, StateKey)|); r.Some? && Progress(r.value, e, 7, id, at)
  {
    hide Agree, KeyOf, Label, Decimal, Blank, KeyAt, Index, Due, ReadTags;
    StateIsSixth(6);
    NotYet(d, e, 6, id, at);
    KeyOfLabel(StateKey);
    ReadOne(d, Part(e, StateKey)[0]);
    forall j ensures Agree(d.entry, d.entry, j) { AgreeSelf(d.entry, j); }
    ProgressFields(d.entry, d.entry, e, 6, id, at);
    ProgressSeen(d, d.seen + {StateKey}, 6);
  }

  lemma ReadSecretPart(d: Draft, e: Entry, id: string, at: int)
    requires Progress(d, e, 14, id, at)
    ensures var part := Part(e, SecretKey);
      var r := ReadTags(d, part, |part|); r.Some? && Progress(r.value, e, 15, id, at)
  {
    hide ReadTags, SecretTags, Decimal, Label, KeyAt, Index, Due, Agree;
    StateIsSixth(14);
    NotYet(d, e, 14, id, at);
    ReadSecrets(d, e.secrets, |e.secrets|);
    SecretsFilled(d.entry, e, id, at);
    var p := d.entry.(secrets := e.secrets);
    assert d.entry.secrets + e.secrets[..|e.secrets|] == e.secrets;
    ProgressFields(d.entry, p, e, 14, id, at);
    forall j | j in {RevKey, AmountKey, ChainKey} && Index(j) < 15 ensures j in d.seen {
      if Index(j) == 14 { OneIndex(j, KeyAt(14)); }
    }
  }

  lemma SecretsFilled(p: Entry, e: Entry, id: string, at: int)
    requires Agree(p, Blank(id, at), SecretKey)
    ensures p.secrets == []
    ensures forall j :: j != SecretKey ==> Agree(p.(secrets := e.secrets), p, j)
    ensures Agree(p.(secrets := e.secrets), e, SecretKey)
  {
  }

  /** All the names. */
  lemma {:induction false} ReadPrinted(e: Entry, n: nat, id: string, at: int)
    requires Valid(e) && Printable(e) && n <= 21
    ensures var r := ReadTags(Draft(Blank(id, at), {}, []), Printed(e, n), |Printed(e, n)|);
      r.Some? && Progress(r.value, e, n, id, at)
  {
    hide Valid, Printable, ReadTags, KeyAt, Part, Progress;
    var d := Draft(Blank(id, at), {}, []);
    if n == 0 {
      NothingRead(e, id, at);
    } else {
      ReadPrinted(e, n - 1, id, at);
      var r := ReadTags(d, Printed(e, n - 1), |Printed(e, n - 1)|).value;
      ReadPart(r, e, n - 1, id, at);
      ReadJoins(d, Printed(e, n - 1), Part(e, KeyAt(n - 1)), |Part(e, KeyAt(n - 1))|);
    }
  }

  lemma NothingRead(e: Entry, id: string, at: int)
    ensures ReadTags(Draft(Blank(id, at), {}, []), [], 0) == Some(Draft(Blank(id, at), {}, []))
    ensures Progress(Draft(Blank(id, at), {}, []), e, 0, id, at)
  {
  }

  /** An entry as it is read back. */
  function Reread(e: Entry, id: string, at: int): Entry
  {
    e.(rumorId := id, rumorCreatedAt := at, wrapId := "", rawState := "")
  }

  lemma ProgressEnds(d: Draft, e: Entry, id: string, at: int)
    requires Progress(d, e, 21, id, at)
    ensures d.entry == Reread(e, id, at).(state := "", checkedAt := 0)
  {
    hide Agree, Index, Part;
    var q := Reread(e, id, at).(state := "", checkedAt := 0);
    forall k ensures Agree(d.entry, q, k) {
      assert Agree(d.entry, Due(e, k, 21, id, at), k);
      DueAtEnd(e, k, id, at);
      AgreeTransitive(d.entry, Due(e, k, 21, id, at), q, k);
    }
    AgreeEverywhere(d.entry, q);
  }

  lemma DueAtEnd(e: Entry, k: Key, id: string, at: int)
    ensures Agree(Due(e, k, 21, id, at), Reread(e, id, at).(state := "", checkedAt := 0), k)
  {
  }

  /** A printable entry's tags say what the entry says. */
  lemma ReadBack(e: Entry, id: string, at: int)
    requires Valid(e) && Printable(e) && e.wrapKey != ""
    ensures ReadEntry(id, at, Printed(e, 21)) == Some(Reread(e, id, at))
  {
    hide ReadTags, Printed, Agree, Decimal, ParseInt, ParseUint, ValidCall, ValidBill, ValidSecrets, LowerHex, Label;
    ReadPrinted(e, 21, id, at);
    var d := ReadTags(Draft(Blank(id, at), {}, []), Printed(e, 21), |Printed(e, 21)|).value;
    ProgressEnds(d, e, id, at);
    DecimalRoundTrip(e.checkedAt);
    RereadValid(e, id, at);
    assert LowerHex(e.w, 0) ==> e.w != "" by { HexNotEmpty(e.w); }
    var done := d.entry.(state := d.stateTag[1], checkedAt := ParseInt(d.stateTag[2]).value);
    assert done == Reread(e, id, at);
  }

  lemma HexNotEmpty(s: string)
    ensures LowerHex(s, 0) ==> s != ""
  {
  }

  lemma RereadValid(e: Entry, id: string, at: int)
    ensures Valid(Reread(e, id, at)) == Valid(e)
  {
    hide LowerHex, ValidSecrets, Known, Final, ValidRequestId, ValidIdentity;
  }

  // ------------------------------------------------------------ what is accepted

  /** Kept by every tag read. */
  predicate Admits(d: Draft, id: string, at: int)
  {
    && Agree(d.entry, Blank(id, at), StateKey) && d.entry.deadline <= MAX_TIME
    && (d.entry.expiresAt.Some? ==> d.entry.expiresAt.value <= MAX_TIME)
  }

  lemma FillAdmits(e: Entry, k: Key, t: Tag)
    requires |t| >= 2 && Fill(e, k, t).Some?
    ensures var p := Fill(e, k, t).value;
      && (p.deadline == e.deadline || p.deadline <= MAX_TIME)
      && (p.expiresAt == e.expiresAt || (p.expiresAt.Some? && p.expiresAt.value <= MAX_TIME))
  {
    hide ParseUint;
  }

  lemma {:induction false} ReadAdmits(d: Draft, tags: seq<Tag>, n: nat, id: string, at: int)
    requires n <= |tags| && Admits(d, id, at) && ReadTags(d, tags, n).Some?
    ensures Admits(ReadTags(d, tags, n).value, id, at)
  {
    hide Fill, KeyOf, Agree;
    if n > 0 {
      ReadAdmits(d, tags, n - 1, id, at);
      var r, t := ReadTags(d, tags, n - 1).value, tags[n - 1];
      if t != [] && KeyOf(t[0]) != OtherKey {
        var k := KeyOf(t[0]);
        FillAdmits(r.entry, k, t);
        FillKeepsState(r.entry, k, t);
        AgreeTransitive(Fill(r.entry, k, t).value, r.entry, Blank(id, at), StateKey);
      }
    }
  }

  lemma FillKeepsState(e: Entry, k: Key, t: Tag)
    requires |t| >= 2 && Fill(e, k, t).Some?
    ensures Agree(Fill(e, k, t).value, e, StateKey)
  {
    hide ParseUint, ParseInt, Agree;
    AgreeSelf(e, StateKey);
    if k != StateKey { FillOnly(e, k, t, StateKey); }
  }

  /** Everything accepted: a recognised entry validates, an unrecognised one shows its raw state; times are bounded. */
  lemma AcceptedIsValid(id: string, at: int, tags: seq<Tag>)
    requires ReadEntry(id, at, tags).Some?
    ensures var e := ReadEntry(id, at, tags).value;
      && TimesAdmitted(e) && LowerHex(e.w, 0) && e.rev != 0 && e.rumorId == id && e.rumorCreatedAt == at && e.wrapId == ""
      && (if e.Recognised() then Valid(e) && e.wrapKey != "" && e.rawState == "" else e.state == "" && !Known(e.rawState))
  {
    hide ReadTags, Valid, Known, LowerHex, ParseUint;
    var start := Draft(Blank(id, at), {}, []);
    ReadAdmits(start, tags, |tags|, id, at);
    var d := ReadTags(start, tags, |tags|).value;
    assert !Known("") by { BlankUnknown(); }
  }

  lemma BlankUnknown()
    ensures !Known("")
  {
  }

  // ------------------------------------------------------------- the round trip

  lemma {:induction false} PrintedSame(e: Entry, f: Entry, n: nat)
    requires n <= 21 && forall k :: Part(e, k) == Part(f, k)
    ensures Printed(e, n) == Printed(f, n)
  {
    hide Part;
    if n > 0 { PrintedSame(e, f, n - 1); }
  }

  lemma StrayNotPrinted(e: Entry)
    requires e.identity.kind == ""
    ensures Printed(e, 21) == Printed(e.(identity := NO_IDENTITY), 21)
    ensures Valid(e) ==> Valid(e.(identity := NO_IDENTITY))
  {
    hide Printed, LowerHex, ValidSecrets, Known, Final, ValidRequestId, Label, Decimal, SecretTags;
    var f := e.(identity := NO_IDENTITY);
    forall k ensures Part(e, k) == Part(f, k) { }
    PrintedSame(e, f, 21);
  }

  /**
    * ParseRumor restores every field of what Rumor prints exactly when e's times
    * are at most 2^62 and an e without an identity has no stray identity fields.
    */
  lemma RoundTrip(hash: Event -> Option<string>, e: Entry, user: string, now: int)
    requires -0x8000_0000_0000_0000 <= now < 0x8000_0000_0000_0000
    requires Rumor(hash, e, user, now).Some?
    ensures var ev := Rumor(hash, e, user, now).value;
      Parsed(hash, ev) == Some(Reread(e, ev.id, now)) <==> Printable(e)
  {
    hide ReadTags, Printed, Valid, ReadEntry;
    var ev := Rumor(hash, e, user, now).value;
    assert Body(ev) == ev.(id := "");
    assert Signed64(ev.createdAt) == now;
    var got := ReadEntry(ev.id, now, Printed(e, 21));
    assert Parsed(hash, ev) == got;
    if Printable(e) {
      ReadBack(e, ev.id, now);
    } else if TimesAdmitted(e) {
      var f := e.(identity := NO_IDENTITY);
      StrayNotPrinted(e);
      ReadBack(f, ev.id, now);
      assert Reread(f, ev.id, now).identity != Reread(e, ev.id, now).identity;
    } else if got.Some? {
      AcceptedIsValid(ev.id, now, Printed(e, 21));
    }
  }

  /** What was accepted prints whenever an id can be computed, and reads back as itself exactly when it carries no stray identity. */
  lemma AcceptedReprints(hash: Event -> Option<string>, ev: Event, now: int)
    requires -0x8000_0000_0000_0000 <= now < 0x8000_0000_0000_0000
    requires Parsed(hash, ev).Some? && Parsed(hash, ev).value.Recognised()
    requires hash(Body(Unnamed(Parsed(hash, ev).value, ev.pubkey, now))).Some?
    ensures var e := Parsed(hash, ev).value;
      var again := Rumor(hash, e, ev.pubkey, now);
      && again.Some?
      && (Parsed(hash, again.value) == Some(Reread(e, again.value.id, now)) <==> (e.identity.kind == "" ==> e.identity == NO_IDENTITY))
  {
    hide ReadTags, Printed, Valid, ReadEntry, Known, Reread;
    var e := Parsed(hash, ev).value;
    AcceptedIsValid(hash(Body(ev)).value, Signed64(ev.createdAt), ev.tags);
    RoundTrip(hash, e, ev.pubkey, now);
  }

  function Zeros(n: nat): string { seq(n, _ => '0') }

  /** A call that validates, keeps a stray identity value, and so does not read back. */
  function StrayCall(): Entry
  {
    Blank("", 0).(w := Zeros(32), requestId := Zeros(32), rev := 1, amount := 1, chain := "c", state := PENDING, checkedAt := 1,
                  deadline := 1, target := Zeros(64), device := Zeros(2), wrapKey := Zeros(64), identity := Identity("", "x", ""))
  }

  lemma StrayCallLost(hash: Event -> Option<string>, user: string, now: int)
    requires -0x8000_0000_0000_0000 <= now < 0x8000_0000_0000_0000
    requires hash(Body(Unnamed(StrayCall(), user, now))).Some?
    ensures var ev := Rumor(hash, StrayCall(), user, now);
      ev.Some? && Parsed(hash, ev.value) != Some(Reread(StrayCall(), ev.value.id, now))
  {
    hide Printed, Parsed, Unnamed, Reread;
    StrayCallValid();
    RoundTrip(hash, StrayCall(), user, now);
  }

  lemma StrayCallValid()
    ensures Valid(StrayCall()) && StrayCall().wrapKey != "" && !Printable(StrayCall())
    ensures Valid(LateCall()) && LateCall().wrapKey != "" && !Printable(LateCall())
  {
    ZerosHex(32);
    ZerosHex(64);
    ZerosHex(2);
    hide LowerHex, Zeros;
  }

  /** A call checked one second past 2^62, which validates and is not read back. */
  function LateCall(): Entry { StrayCall().(identity := NO_IDENTITY, checkedAt := MAX_TIME + 1) }

  lemma LateCallLost(hash: Event -> Option<string>, user: string, now: int)
    requires -0x8000_0000_0000_0000 <= now < 0x8000_0000_0000_0000
    requires hash(Body(Unnamed(LateCall(), user, now))).Some?
    ensures var ev := Rumor(hash, LateCall(), user, now);
      ev.Some? && Parsed(hash, ev.value) != Some(Reread(LateCall(), ev.value.id, now))
  {
    hide Printed, Parsed, Unnamed, Reread;
    StrayCallValid();
    RoundTrip(hash, LateCall(), user, now);
  }

  lemma ZerosHex(n: nat)
    requires n > 0 && n % 2 == 0
    ensures LowerHex(Zeros(n), n) && LowerHex(Zeros(n), 0) && |Zeros(n)| == n && Zeros(n) != ""
  {
  }

  // ---------------------------------------------------------------- on paper

  /** The tags of an entry, as they stand on paper: what every entry has first. */
  lemma FrontOnPaper(e: Entry)
    ensures Printed(e, 5) ==
      [["w", e.w], ["rev", Decimal(e.rev)]] + (if e.cash == "" then [] else [["cash", e.cash]])
      + [["amount", Decimal(e.amount)], ["chain", e.chain]]
  {
    hide Decimal, Printed;
    NothingPrinted(e);
    PrintedNext(e, WKey);
    PrintedNext(e, RevKey);
    PrintedNext(e, CashKey);
    PrintedNext(e, AmountKey);
    PrintedNext(e, ChainKey);
  }

  /** Then who can claim it, its state and when that was checked, and what a bill may have. */
  lemma BillOnPaper(e: Entry)
    ensures Printed(e, 7) == Printed(e, 5)
      + (if e.identity.kind == "" then []
         else if e.identity.kind == "cash" then [["identity", "cash"]]
         else if e.identity.kind == "connection_key" then [["identity", "connection_key", e.identity.value, e.identity.ia]]
         else [["identity", e.identity.kind, e.identity.value]])
      + [["state", e.state, Num(e.checkedAt)]]
    ensures Printed(e, 10) == Printed(e, 7)
      + (if e.mint == "" then [] else [["mint", e.mint]])
      + (if e.expiresAt.None? then [] else [["expires_at", Num(e.expiresAt.value)]])
      + (if e.source == "" then [] else [["source", e.source]])
  {
    hide Printed, Num;
    PrintedNext(e, IdentityKey);
    PrintedNext(e, StateKey);
    PrintedNext(e, MintKey);
    PrintedNext(e, ExpiresAtKey);
    PrintedNext(e, SourceKey);
  }

  /** Then what a call has, and the secrets in order. */
  lemma CallOnPaper(e: Entry)
    ensures Printed(e, 14) == Printed(e, 10)
      + (if e.requestId == "" then []
         else [["request_id", e.requestId], ["deadline", Num(e.deadline)], ["target", e.target], ["device", e.device]])
    ensures |Printed(e, 15)| == |Printed(e, 14)| + |e.secrets| && Printed(e, 15)[..|Printed(e, 14)|] == Printed(e, 14)
    ensures forall i :: 0 <= i < |e.secrets| ==>
      Printed(e, 15)[|Printed(e, 14)| + i]
      == if e.secrets[i].role == "" then ["secret", e.secrets[i].secret] else ["secret", e.secrets[i].secret, e.secrets[i].role]
  {
    hide Printed, Num, SecretTags, Part;
    RequestOnPaper(e);
    PrintedNext(e, SecretKey);
    SecretsOnPaper(e.secrets, |e.secrets|);
    SecretPart(e);
  }

  lemma SecretPart(e: Entry) ensures Part(e, SecretKey) == SecretTags(e.secrets, |e.secrets|) { }

  lemma RequestOnPaper(e: Entry)
    ensures Printed(e, 14) == Printed(e, 10)
      + (if e.requestId == "" then []
         else [["request_id", e.requestId], ["deadline", Num(e.deadline)], ["target", e.target], ["device", e.device]])
  {
    hide Printed, Num;
    PrintedNext(e, RequestIdKey);
    PrintedNext(e, DeadlineKey);
    PrintedNext(e, TargetKey);
    PrintedNext(e, DeviceKey);
  }

  lemma {:induction false} SecretsOnPaper(ss: seq<Secret>, n: nat)
    requires n <= |ss|
    ensures |SecretTags(ss, n)| == n
    ensures forall i :: 0 <= i < n ==>
      SecretTags(ss, n)[i] == if ss[i].role == "" then ["secret", ss[i].secret] else ["secret", ss[i].secret, ss[i].role]
  {
    if n > 0 { SecretsOnPaper(ss, n - 1); }
  }

  /** Then an order's and a withdrawal's own. */
  lemma PayoutOnPaper(e: Entry)
    ensures Printed(e, 18) == Printed(e, 15)
      + (if e.orderKey == "" then [] else [["order_key", e.orderKey]]) + (if e.notify == "" then [] else [["notify", e.notify]])
      + (if e.address == "" then [] else [["address", e.address]])
  {
    hide Printed;
    PrintedNext(e, OrderKeyKey);
    PrintedNext(e, NotifyKey);
    PrintedNext(e, AddressKey);
  }

  /** And the wrap key last. */
  lemma BackOnPaper(e: Entry)
    ensures Printed(e, 21) == Printed(e, 18)
      + (if e.quote == "" then [] else [["quote", e.quote]])
      + (if e.receipt == "" then [] else [["receipt", e.receipt]]) + [["wrap_key", e.wrapKey]]
  {
    hide Printed;
    PrintedNext(e, QuoteKey);
    PrintedNext(e, ReceiptKey);
    PrintedNext(e, WrapKeyKey);
  }

  // ------------------------------------------------------------- strictness

  /** The event of what is accepted: a kind 9525 rumor, unsigned, whose id is its hash or left out. */
  lemma AcceptedEvent(hash: Event -> Option<string>, ev: Event)
    requires Parsed(hash, ev).Some?
    ensures ev.kind == 9525 && ev.sig == "" && hash(Body(ev)).Some?
    ensures ev.id == "" || ev.id == hash(Body(ev)).value
    ensures Parsed(hash, ev).value.rumorId == hash(Body(ev)).value
    ensures ev.createdAt < 0x8000_0000_0000_0000 ==> Parsed(hash, ev).value.rumorCreatedAt == ev.createdAt
    ensures Parsed(hash, ev.(id := "")) == Parsed(hash, ev)
  {
    hide ReadEntry, Valid;
    AcceptedIsValid(hash(Body(ev)).value, Signed64(ev.createdAt), ev.tags);
    assert Body(ev.(id := "")) == Body(ev);
  }

  /** The event that is printed: an unsigned kind 9525 rumor of the user's, without content, its id its hash. */
  lemma PrintedEvent(hash: Event -> Option<string>, e: Entry, user: string, now: int)
    requires Rumor(hash, e, user, now).Some?
    ensures var ev := Rumor(hash, e, user, now).value;
      && ev.kind == 9525 && ev.sig == "" && ev.content == "" && ev.pubkey == user && ev.tags == Printed(e, 21)
      && Some(ev.id) == hash(Body(ev)) && (0 <= now < 0x1_0000_0000_0000_0000 ==> ev.createdAt == now)
    ensures Valid(e) && e.wrapKey != ""
  {
    hide Printed, Valid;
    var ev := Rumor(hash, e, user, now).value;
    assert Body(ev) == Body(Unnamed(e, user, now));
  }

  /** Another id, another kind or a signature, and an accepted event is refused. */
  lemma ChangedRefused(hash: Event -> Option<string>, ev: Event, id: string, kind: int, sig: string)
    requires Parsed(hash, ev).Some?
    ensures id != "" && id != hash(Body(ev)).value ==> Parsed(hash, ev.(id := id)).None?
    ensures kind != 9525 ==> Parsed(hash, ev.(kind := kind)).None?
    ensures sig != "" ==> Parsed(hash, ev.(sig := sig)).None?
  {
    hide ReadEntry;
    assert Body(ev.(id := id)) == Body(ev);
  }

  /** Whatever an accepted entry's tags say, it says: reading any single tag of them again changes nothing. */
  lemma AcceptedSays(id: string, at: int, tags: seq<Tag>, i: nat)
    requires ReadEntry(id, at, tags).Some? && i < |tags| && tags[i] != [] && KeyOf(tags[i][0]) !in {SecretKey, OtherKey}
    ensures |tags[i]| >= 2
    ensures var e := ReadEntry(id, at, tags).value; Fill(e, KeyOf(tags[i][0]), tags[i]) == Some(e)
  {
    hide KeyOf, Fill, ReadTags, Valid, Known, ParseInt, LowerHex;
    var d := Draft(Blank(id, at), {}, []);
    ReadSays(d, tags, i, |tags|);
    var p, e, k := ReadTags(d, tags, |tags|).value.entry, ReadEntry(id, at, tags).value, KeyOf(tags[i][0]);
    FinishSays(p, e, k, tags[i]);
  }

  lemma FinishSays(p: Entry, e: Entry, k: Key, t: Tag)
    requires |t| >= 2 && Fill(p, k, t) == Some(p) && k != SecretKey
    requires e == p.(rawState := e.rawState) || e == p.(state := e.state, checkedAt := e.checkedAt)
    ensures Fill(e, k, t) == Some(e)
  {
    hide ParseUint, ParseInt;
  }

  lemma {:induction false} ReadSays(d: Draft, tags: seq<Tag>, i: nat, n: nat)
    requires i < n <= |tags| && ReadTags(d, tags, n).Some? && tags[i] != [] && KeyOf(tags[i][0]) !in {SecretKey, OtherKey}
    ensures |tags[i]| >= 2 && Fill(ReadTags(d, tags, n).value.entry, KeyOf(tags[i][0]), tags[i]) == Some(ReadTags(d, tags, n).value.entry)
    decreases n
  {
    hide KeyOf, Fill;
    var k := KeyOf(tags[i][0]);
    var r, t := ReadTags(d, tags, n - 1).value, tags[n - 1];
    if i == n - 1 {
      FillTwice(r.entry, k, t);
    } else {
      ReadSays(d, tags, i, n - 1);
      if t != [] && KeyOf(t[0]) != OtherKey {
        SeenStays(d, tags, i, n - 1);
        var j := KeyOf(t[0]);
        assert j != k;
        FillKeepsSaying(r.entry, j, t, k, tags[i]);
      }
    }
  }

  lemma FillTwice(e: Entry, k: Key, t: Tag)
    requires |t| >= 2 && k != SecretKey && Fill(e, k, t).Some?
    ensures Fill(Fill(e, k, t).value, k, t) == Fill(e, k, t)
  {
    hide ParseUint, ParseInt;
  }

  /** Filling another field does not unsay this one. */
  lemma FillKeepsSaying(e: Entry, j: Key, s: Tag, k: Key, t: Tag)
    requires |s| >= 2 && |t| >= 2 && j != k && Fill(e, j, s).Some? && Fill(e, k, t) == Some(e)
    ensures Fill(Fill(e, j, s).value, k, t) == Some(Fill(e, j, s).value)
  {
    hide Fill, Agree;
    var x := Fill(e, j, s).value;
    FillOnly(e, j, s, k);
    FillDepends(x, e, k, t);
    var y := Fill(x, k, t).value;
    forall i ensures Agree(y, x, i) {
      if i == k {
        AgreeTransitive(y, e, x, k) by { AgreeFlip(x, e, k); }
      } else {
        FillOnly(x, k, t, i);
      }
    }
    AgreeEverywhere(y, x);
  }

  lemma {:induction false} RefusedStays(d: Draft, tags: seq<Tag>, n: nat, m: nat)
    requires n <= m <= |tags| && ReadTags(d, tags, n).None?
    ensures ReadTags(d, tags, m).None?
    decreases m
  {
    hide ReadTag;
    if n < m { RefusedStays(d, tags, n, m - 1); }
  }

  lemma {:induction false} SeenStays(d: Draft, tags: seq<Tag>, i: nat, n: nat)
    requires i < n <= |tags| && ReadTags(d, tags, n).Some? && tags[i] != [] && KeyOf(tags[i][0]) !in {SecretKey, OtherKey}
    ensures KeyOf(tags[i][0]) in ReadTags(d, tags, n).value.seen
    decreases n
  {
    hide KeyOf, Fill;
    if i < n - 1 { SeenStays(d, tags, i, n - 1); }
  }

  /** Two tags of one single name are refused, wherever they stand. */
  lemma TwiceRefused(id: string, at: int, tags: seq<Tag>, i: nat, j: nat)
    requires i < j < |tags| && tags[i] != [] && tags[j] != []
    requires KeyOf(tags[i][0]) == KeyOf(tags[j][0]) && KeyOf(tags[i][0]) !in {SecretKey, OtherKey}
    ensures ReadEntry(id, at, tags).None?
  {
    hide KeyOf, Fill, Finish;
    var d := Draft(Blank(id, at), {}, []);
    if ReadTags(d, tags, j).Some? { SeenStays(d, tags, i, j); }
    assert ReadTags(d, tags, j + 1).None?;
    RefusedStays(d, tags, j + 1, |tags|);
  }

  // ----------------------------------------------------------- order of tags

  /** Filling k looks at nothing but k. */
  lemma FillDepends(e: Entry, f: Entry, k: Key, t: Tag)
    requires |t| >= 2 && Agree(e, f, k)
    ensures Fill(e, k, t).Some? == Fill(f, k, t).Some?
    ensures Fill(e, k, t).Some? ==> Agree(Fill(e, k, t).value, Fill(f, k, t).value, k)
  {
    hide ParseUint, ParseInt;
  }

  lemma FillsCommute(e: Entry, j: Key, s: Tag, k: Key, t: Tag)
    requires |s| >= 2 && |t| >= 2 && j != k && Fill(e, j, s).Some? && Fill(e, k, t).Some?
    ensures var x, y := Fill(e, j, s).value, Fill(e, k, t).value;
      Fill(x, k, t).Some? && Fill(x, k, t) == Fill(y, j, s)
  {
    hide Fill, Agree;
    var x, y := Fill(e, j, s).value, Fill(e, k, t).value;
    FillOnly(e, j, s, k);
    FillOnly(e, k, t, j);
    FillDepends(x, e, k, t);
    FillDepends(y, e, j, s);
    var xy, yx := Fill(x, k, t).value, Fill(y, j, s).value;
    forall i ensures Agree(xy, yx, i) {
      if i == k {
        FillOnly(y, j, s, k);
        AgreeBoth(xy, yx, y, k);
      } else if i == j {
        FillOnly(x, k, t, j);
        AgreeBoth(yx, xy, x, j);
        AgreeFlip(yx, xy, j);
      } else {
        FillOnly(x, k, t, i);
        FillOnly(e, j, s, i);
        FillOnly(y, j, s, i);
        FillOnly(e, k, t, i);
        AgreeTransitive(xy, x, e, i);
        AgreeTransitive(yx, y, e, i);
        AgreeBoth(xy, yx, e, i);
      }
    }
    AgreeEverywhere(xy, yx);
  }

  lemma AgreeFlip(p: Entry, q: Entry, k: Key)
    requires Agree(p, q, k)
    ensures Agree(q, p, k)
  {
  }

  function Then(r: Option<Draft>, t: Tag): Option<Draft> { if r.None? then None else ReadTag(r.value, t) }

  predicate IsSecret(t: Tag) { t != [] && KeyOf(t[0]) == SecretKey }

  predicate Ignored(t: Tag) { t == [] || KeyOf(t[0]) == OtherKey }

  /** Two tags are read in either order, unless both are secrets. */
  lemma TagsCommute(d: Draft, s: Tag, t: Tag)
    requires !(IsSecret(s) && IsSecret(t))
    ensures Then(ReadTag(d, s), t) == Then(ReadTag(d, t), s)
  {
    hide Fill, KeyOf;
    if !Ignored(s) && !Ignored(t) && |s| >= 2 && |t| >= 2 {
      var j, k := KeyOf(s[0]), KeyOf(t[0]);
      if j != k {
        FillOtherwise(d.entry, j, s, k, t);
        if Fill(d.entry, j, s).Some? && Fill(d.entry, k, t).Some? { FillsCommute(d.entry, j, s, k, t); }
        assert d.seen + {j} + {k} == d.seen + {k} + {j};
      }
    }
  }

  /** Whether a tag is refused does not depend on another's being read. */
  lemma FillOtherwise(e: Entry, j: Key, s: Tag, k: Key, t: Tag)
    requires |s| >= 2 && |t| >= 2 && j != k
    ensures Fill(e, j, s).Some? ==> Fill(Fill(e, j, s).value, k, t).Some? == Fill(e, k, t).Some?
    ensures Fill(e, k, t).Some? ==> Fill(Fill(e, k, t).value, j, s).Some? == Fill(e, j, s).Some?
  {
    hide Fill, Agree;
    if Fill(e, j, s).Some? { FillOnly(e, j, s, k); FillDepends(Fill(e, j, s).value, e, k, t); }
    if Fill(e, k, t).Some? { FillOnly(e, k, t, j); FillDepends(Fill(e, k, t).value, e, j, s); }
  }

  lemma ReadTwo(d: Draft, s: Tag, t: Tag)
    ensures ReadTags(d, [s, t], 2) == Then(ReadTag(d, s), t)
  {
    hide ReadTag;
    assert ReadTags(d, [s, t], 0) == Some(d);
    assert ReadTags(d, [s, t], 1) == ReadTag(d, s);
  }

  /** What a list of tags leaves of a draft. */
  function Read(d: Draft, tags: seq<Tag>): Option<Draft> { ReadTags(d, tags, |tags|) }

  /** Two neighbours may change places, unless both are secrets. */
  lemma Swap(d: Draft, a: seq<Tag>, s: Tag, t: Tag, b: seq<Tag>)
    requires !(IsSecret(s) && IsSecret(t))
    ensures Read(d, a + [s, t] + b) == Read(d, a + [t, s] + b)
  {
    hide ReadTags, ReadTag, IsSecret;
    ReadJoins(d, a + [s, t], b, |b|);
    ReadJoins(d, a + [t, s], b, |b|);
    ReadJoins(d, a, [s, t], 2);
    ReadJoins(d, a, [t, s], 2);
    var r := ReadTags(d, a, |a|);
    if r.Some? {
      ReadTwo(r.value, s, t);
      ReadTwo(r.value, t, s);
      TagsCommute(r.value, s, t);
    }
  }

  /** The secrets among tags, in order. */
  function Secrets(tags: seq<Tag>): seq<Tag>
  {
    if tags == [] then []
    else
      var n := |tags| - 1;
      Secrets(tags[..n]) + (if IsSecret(tags[n]) then [tags[n]] else [])
  }

  lemma {:induction false} SecretsJoin(a: seq<Tag>, b: seq<Tag>)
    ensures Secrets(a + b) == Secrets(a) + Secrets(b)
  {
    hide IsSecret;
    if b == [] {
      assert a + b == a;
    } else {
      var n := |b| - 1;
      assert (a + b)[..|a + b| - 1] == a + b[..n];
      SecretsJoin(a, b[..n]);
    }
  }

  lemma SecretsOne(t: Tag)
    ensures Secrets([t]) == if IsSecret(t) then [t] else []
  {
    hide IsSecret;
    assert [t][..0] == [];
  }

  /** A tag may move behind others, unless it would pass a secret and is one. */
  lemma {:induction false} MoveBehind(d: Draft, u: seq<Tag>, x: Tag, v: seq<Tag>)
    requires IsSecret(x) ==> Secrets(v) == []
    ensures Read(d, u + [x] + v) == Read(d, u + v + [x])
    decreases |v|
  {
    hide IsSecret, ReadTags, Secrets;
    if v == [] {
      assert u + [x] + v == u + v + [x];
    } else {
      var y, rest := v[0], v[1..];
      assert v == [y] + rest;
      SecretsJoin([y], rest);
      SecretsOne(y);
      assert u + [x] + v == u + [x, y] + rest;
      Swap(d, u, x, y, rest);
      assert u + [y, x] + rest == (u + [y]) + [x] + rest;
      MoveBehind(d, u + [y], x, rest);
      assert (u + [y]) + rest + [x] == u + v + [x];
    }
  }

  /** Where x stands in b with no secret behind it, should x be one. */
  lemma {:induction false} FindTag(b: seq<Tag>, x: Tag) returns (j: nat)
    requires x in b && (IsSecret(x) ==> Secrets(b) != [] && Secrets(b)[|Secrets(b)| - 1] == x)
    ensures j < |b| && b[j] == x && (IsSecret(x) ==> Secrets(b[j + 1..]) == [])
    decreases |b|
  {
    hide IsSecret, Secrets;
    var n := |b| - 1;
    if b[n] == x {
      j := n;
      assert b[n + 1..] == [];
      SecretsNone();
    } else {
      assert b == b[..n] + [b[n]];
      LastSecret(b[..n], b[n]);
      j := FindTag(b[..n], x);
      assert b[j + 1..] == b[..n][j + 1..] + [b[n]];
      LastSecret(b[..n][j + 1..], b[n]);
    }
  }

  lemma {:induction false} Reordered(d: Draft, a: seq<Tag>, b: seq<Tag>)
    requires multiset(a) == multiset(b) && Secrets(a) == Secrets(b)
    ensures Read(d, a) == Read(d, b)
    decreases |a|
  {
    hide IsSecret, Read, Secrets;
    assert |multiset(a)| == |a| && |multiset(b)| == |b|;
    if a != [] {
      var n := |a| - 1;
      var x, front := a[n], a[..n];
      assert a == front + [x];
      LastSecret(front, x);
      assert x in multiset(b);
      var j := FindTag(b, x);
      var u, v := b[..j], b[j + 1..];
      assert b == u + [x] + v;
      MoveBehind(d, u, x, v);
      TakenOut(front, u, x, v);
      Reordered(d, front, u + v);
      ReadOneMore(d, front, u + v, x);
    }
  }

  lemma ReadOneMore(d: Draft, a: seq<Tag>, b: seq<Tag>, x: Tag)
    requires Read(d, a) == Read(d, b)
    ensures Read(d, a + [x]) == Read(d, b + [x])
  {
    hide ReadTags;
    ReadJoins(d, a, [x], 1);
    ReadJoins(d, b, [x], 1);
  }

  lemma SecretsNone() ensures Secrets([]) == [] { }

  lemma LastSecret(front: seq<Tag>, x: Tag)
    ensures Secrets(front + [x]) == Secrets(front) + (if IsSecret(x) then [x] else [])
  {
    hide IsSecret, Secrets;
    SecretsJoin(front, [x]);
    SecretsOne(x);
  }

  /** Taking the same tag out of both leaves the same tags, and the same secrets. */
  lemma TakenOut(front: seq<Tag>, u: seq<Tag>, x: Tag, v: seq<Tag>)
    requires multiset(front + [x]) == multiset(u + [x] + v) && Secrets(front + [x]) == Secrets(u + [x] + v)
    requires IsSecret(x) ==> Secrets(v) == []
    ensures multiset(front) == multiset(u + v) && Secrets(front) == Secrets(u + v)
  {
    hide IsSecret, Secrets;
    assert multiset(front) == multiset(front + [x]) - multiset{x};
    assert multiset(u + v) == multiset(u + [x] + v) - multiset{x};
    SecretsLeft(front, u, x, v);
  }

  lemma SecretsLeft(front: seq<Tag>, u: seq<Tag>, x: Tag, v: seq<Tag>)
    requires Secrets(front + [x]) == Secrets(u + [x] + v) && (IsSecret(x) ==> Secrets(v) == [])
    ensures Secrets(front) == Secrets(u + v)
  {
    hide IsSecret, Secrets;
    LastSecret(front, x);
    LastSecret(u, x);
    SecretsJoin(u + [x], v);
    SecretsJoin(u, v);
    var p, q := Secrets(front), Secrets(u);
    assert p + [] == p && q + [] == q && (q + [x]) + [] == q + [x];
    SameFront(p, q, x);
  }

  lemma SameFront(p: seq<Tag>, q: seq<Tag>, x: Tag)
    ensures p + [x] == q + [x] ==> p == q
  {
    assert (p + [x])[..|p|] == p && (q + [x])[..|q|] == q && |p + [x]| == |p| + 1 && |q + [x]| == |q| + 1;
  }

  /** The order of tags does not matter, but for that of the secrets among themselves. */
  lemma OrderDoesNotMatter(id: string, at: int, a: seq<Tag>, b: seq<Tag>)
    requires multiset(a) == multiset(b) && Secrets(a) == Secrets(b)
    ensures ReadEntry(id, at, a) == ReadEntry(id, at, b)
  {
    hide ReadTags, Finish, Secrets;
    Reordered(Draft(Blank(id, at), {}, []), a, b);
  }

  /** Tags of other names, and empty ones, are ignored. */
  lemma UnknownIgnored(id: string, at: int, a: seq<Tag>, t: Tag, b: seq<Tag>)
    requires Ignored(t)
    ensures ReadEntry(id, at, a + [t] + b) == ReadEntry(id, at, a + b)
  {
    hide ReadTags, Finish, Fill;
    var d := Draft(Blank(id, at), {}, []);
    ReadJoins(d, a + [t], b, |b|);
    ReadJoins(d, a, [t], 1);
    ReadJoins(d, a, b, |b|);
    var r := ReadTags(d, a, |a|);
    if r.Some? { ReadOne(r.value, t); }
  }

  // ----------------------------------------------------------------- the code

  method AppendSecrets(tags: seq<Tag>, ss: seq<Secret>) returns (out: seq<Tag>)
    ensures out == tags + SecretTags(ss, |ss|)
  {
    hide Label;
    out := tags;
    for i := 0 to |ss|
      invariant out == tags + SecretTags(ss, i)
    {
      if ss[i].role == "" {
        out := out + [[Label(SecretKey), ss[i].secret]];
      } else {
        out := out + [[Label(SecretKey), ss[i].secret, ss[i].role]];
      }
    }
  }

  lemma PrintedNext(e: Entry, k: Key)
    requires k != OtherKey
    ensures Printed(e, Index(k) + 1) == Printed(e, Index(k)) + Part(e, k)
  {
    hide Part, KeyAt, Index;
    OneIndex(KeyAt(Index(k)), k);
  }

  /** A tag printed only when it has a value. */
  method AppendOptional(e: Entry, tags: seq<Tag>, k: Key, v: string) returns (out: seq<Tag>)
    requires k != OtherKey && tags == Printed(e, Index(k)) && Part(e, k) == Optional(k, v)
    ensures out == Printed(e, Index(k) + 1)
  {
    hide Label, Part, Printed;
    PrintedNext(e, k);
    out := tags;
    if v != "" { out := out + [[Label(k), v]]; }
  }

  /** A bill's tags. */
  method PrintBill(e: Entry) returns (tags: seq<Tag>)
    ensures tags == Printed(e, 10)
  {
    hide Label, Decimal, Printed, Optional;
    tags := PrintFront(e);
    if e.identity.kind != "" { tags := tags + [IdentityTag(e.identity)]; }
    tags := tags + [[Label(StateKey), e.state, Num(e.checkedAt)]];
    assert tags == Printed(e, 7) by { PrintedNext(e, IdentityKey); PrintedNext(e, StateKey); }
    tags := AppendOptional(e, tags, MintKey, e.mint);
    PrintedNext(e, ExpiresAtKey);
    if e.expiresAt.Some? { tags := tags + [[Label(ExpiresAtKey), Num(e.expiresAt.value)]]; }
    tags := AppendOptional(e, tags, SourceKey, e.source);
  }

  method PrintFront(e: Entry) returns (tags: seq<Tag>)
    ensures tags == Printed(e, 5)
  {
    hide Label, Decimal, Printed, Optional;
    NothingPrinted(e);
    tags := [[Label(WKey), e.w], [Label(RevKey), Decimal(e.rev)]];
    assert tags == Printed(e, 2) by { PrintedNext(e, WKey); PrintedNext(e, RevKey); }
    tags := AppendOptional(e, tags, CashKey, e.cash);
    tags := tags + [[Label(AmountKey), Decimal(e.amount)], [Label(ChainKey), e.chain]];
    PrintedNext(e, AmountKey);
    PrintedNext(e, ChainKey);
  }

  lemma NothingPrinted(e: Entry)
    ensures Printed(e, 0) == []
  {
  }

  /** A call's tags and the secrets. */
  method PrintCall(e: Entry, bill: seq<Tag>) returns (tags: seq<Tag>)
    requires bill == Printed(e, 10)
    ensures tags == Printed(e, 15)
  {
    hide Label, Decimal, Printed, SecretTags, Optional;
    tags := bill;
    if e.IsCall() {
      tags := tags + [[Label(RequestIdKey), e.requestId], [Label(DeadlineKey), Num(e.deadline)],
                      [Label(TargetKey), e.target], [Label(DeviceKey), e.device]];
    }
    assert tags == Printed(e, 14) by {
      PrintedNext(e, RequestIdKey);
      PrintedNext(e, DeadlineKey);
      PrintedNext(e, TargetKey);
      PrintedNext(e, DeviceKey);
    }
    tags := AppendSecrets(tags, e.secrets);
    PrintedNext(e, SecretKey);
  }

  /** An order's or a withdrawal's tags, and the wrap key. */
  method PrintRest(e: Entry, call: seq<Tag>) returns (tags: seq<Tag>)
    requires call == Printed(e, 15)
    ensures tags == Printed(e, 21)
  {
    hide Label, Decimal, Printed, Optional;
    tags := PrintPayout(e, call);
    tags := AppendOptional(e, tags, QuoteKey, e.quote);
    tags := AppendOptional(e, tags, ReceiptKey, e.receipt);
    PrintedNext(e, WrapKeyKey);
    tags := tags + [[Label(WrapKeyKey), e.wrapKey]];
  }

  method PrintPayout(e: Entry, call: seq<Tag>) returns (tags: seq<Tag>)
    requires call == Printed(e, 15)
    ensures tags == Printed(e, 18)
  {
    hide Label, Decimal, Printed, Optional;
    tags := AppendOptional(e, call, OrderKeyKey, e.orderKey);
    tags := AppendOptional(e, tags, NotifyKey, e.notify);
    tags := AppendOptional(e, tags, AddressKey, e.address);
  }

  /** Rumor. */
  method PrintRumor(hash: Event -> Option<string>, e: Entry, user: string, now: int) returns (r: Option<Event>)
    ensures r == Rumor(hash, e, user, now)
  {
    hide Valid, Printed;
    if !Valid(e) { return None; }
    if e.wrapKey == "" { return None; }
    var tags := PrintBill(e);
    tags := PrintCall(e, tags);
    tags := PrintRest(e, tags);
    var ev := Event("", user, Wrap64(now), KIND_POCKET_ENTRY, tags, "", "");
    var id := hash(Body(ev));
    if id.None? { return None; }
    r := Some(ev.(id := id.value));
  }

  /** ParseRumor. */
  method ParseRumor(hash: Event -> Option<string>, ev: Event) returns (r: Option<Entry>)
    ensures r == Parsed(hash, ev)
    ensures r.Some? ==> ev.kind == 9525 && ev.sig == "" && Some(r.value.rumorId) == hash(Body(ev)) && ev.id in {"", r.value.rumorId}
  {
    hide ReadTag, Finish;
    if Parsed(hash, ev).Some? { AcceptedEvent(hash, ev); }
    if ev.kind != KIND_POCKET_ENTRY { return None; }
    if ev.sig != "" { return None; }
    var id := hash(Body(ev));
    if id.None? { return None; }
    if ev.id != "" && ev.id != id.value { return None; }
    var e := Blank(id.value, Signed64(ev.createdAt));
    ghost var start := Draft(e, {}, []);
    var seen: set<Key> := {};
    var stateTag: Tag := [];
    for i := 0 to |ev.tags|
      invariant ReadTags(start, ev.tags, i) == Some(Draft(e, seen, stateTag))
    {
      SecretNeverSeen(start, ev.tags, i);
      var d := TakeTag(e, seen, stateTag, ev.tags[i]);
      if d.None? { RefusedStays(start, ev.tags, i + 1, |ev.tags|); return None; }
      e, seen, stateTag := d.value.entry, d.value.seen, d.value.stateTag;
    }
    r := Finish(Draft(e, seen, stateTag));
  }

  /** One turn of ParseRumor's loop. */
  method TakeTag(e: Entry, seen: set<Key>, stateTag: Tag, t: Tag) returns (d: Option<Draft>)
    requires SecretKey !in seen
    ensures d == ReadTag(Draft(e, seen, stateTag), t)
  {
    hide Fill, KeyOf;
    if t == [] { return Some(Draft(e, seen, stateTag)); }
    var k := KeyOf(t[0]);
    if k == OtherKey { return Some(Draft(e, seen, stateTag)); }
    var seen' := seen;
    if k == SecretKey {
      if |t| < 2 { return None; }
    } else {
      if k in seen || |t| < 2 { return None; }
      seen' := seen + {k};
    }
    var filled := Fill(e, k, t);
    if filled.None? { return None; }
    d := Some(Draft(filled.value, seen', if k == StateKey then t else stateTag));
  }

  lemma {:induction false} SecretNeverSeen(d: Draft, tags: seq<Tag>, n: nat)
    requires n <= |tags| && SecretKey !in d.seen && ReadTags(d, tags, n).Some?
    ensures SecretKey !in ReadTags(d, tags, n).value.seen
  {
    hide Fill, KeyOf;
    if n > 0 { SecretNeverSeen(d, tags, n - 1); }
  }
}
