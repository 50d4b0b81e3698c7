/**
  * Pocket entries as rumors (nipCP/entry.go:220-450): the printer, the strict
  * parser, and how they undo each other. An event's id is a SHA-256 over it, here
  * the parameter `hash`, which may fail.
  */
module PocketRumor {
  import opened Words
  import opened Text
  import opened PocketEntry

  type Tag = seq<string>

  const KIND_POCKET_ENTRY := 9525

  datatype Event = Event(id: string, pubkey: string, createdAt: U64, kind: int, tags: seq<Tag>, content: string, sig: string)

  /** What an id is computed over. */
  function Body(ev: Event): Event { ev.(id := "", sig := "") }

  const MAX_TIME: int := 0x4000_0000_0000_0000

  // ------------------------------------------------------------------ tags

  /** Tag names, in the order they are printed. */
  datatype Key = WKey | RevKey | CashKey | AmountKey | ChainKey | IdentityKey | StateKey | MintKey | ExpiresAtKey
    | SourceKey | RequestIdKey | DeadlineKey | TargetKey | DeviceKey | SecretKey | OrderKeyKey | NotifyKey
    | AddressKey | QuoteKey | ReceiptKey | WrapKeyKey | OtherKey

  const KEYS := [WKey, RevKey, CashKey, AmountKey, ChainKey, IdentityKey, StateKey, MintKey, ExpiresAtKey,
                 SourceKey, RequestIdKey, DeadlineKey, TargetKey, DeviceKey, SecretKey, OrderKeyKey, NotifyKey,
                 AddressKey, QuoteKey, ReceiptKey, WrapKeyKey]

  function Index(k: Key): (i: nat)
    ensures k != OtherKey <==> i < 21
  {
    match k
    case WKey => 0 case RevKey => 1 case CashKey => 2 case AmountKey => 3 case ChainKey => 4 case IdentityKey => 5
    case StateKey => 6 case MintKey => 7 case ExpiresAtKey => 8 case SourceKey => 9 case RequestIdKey => 10
    case DeadlineKey => 11 case TargetKey => 12 case DeviceKey => 13 case SecretKey => 14 case OrderKeyKey => 15
    case NotifyKey => 16 case AddressKey => 17 case QuoteKey => 18 case ReceiptKey => 19 case WrapKeyKey => 20
    case OtherKey => 21
  }

  function KeyAt(i: nat): (k: Key)
    requires i < 21
    ensures Index(k) == i
  {
    KEYS[i]
  }

  lemma OneIndex(j: Key, k: Key)
    requires Index(j) == Index(k)
    ensures j == k
  {
  }

  function Label(k: Key): string
  {
    match k
    case WKey => "w" case RevKey => "rev" case CashKey => "cash" case AmountKey => "amount" case ChainKey => "chain"
    case IdentityKey => "identity" case StateKey => "state" case MintKey => "mint" case ExpiresAtKey => "expires_at"
    case SourceKey => "source" case RequestIdKey => "request_id" case DeadlineKey => "deadline"
    case TargetKey => "target" case DeviceKey => "device" case SecretKey => "secret" case OrderKeyKey => "order_key"
    case NotifyKey => "notify" case AddressKey => "address" case QuoteKey => "quote" case ReceiptKey => "receipt"
    case WrapKeyKey => "wrap_key" case OtherKey => ""
  }

  function KeyOf(s: string): Key
  {
    if s == "w" then WKey else if s == "rev" then RevKey else if s == "cash" then CashKey
    else if s == "amount" then AmountKey else if s == "chain" then ChainKey else if s == "identity" then IdentityKey
    else if s == "state" then StateKey else if s == "mint" then MintKey else if s == "expires_at" then ExpiresAtKey
    else if s == "source" then SourceKey else if s == "request_id" then RequestIdKey else if s == "deadline" then DeadlineKey
    else if s == "target" then TargetKey else if s == "device" then DeviceKey else if s == "secret" then SecretKey
    else if s == "order_key" then OrderKeyKey else if s == "notify" then NotifyKey else if s == "address" then AddressKey
    else if s == "quote" then QuoteKey else if s == "receipt" then ReceiptKey else if s == "wrap_key" then WrapKeyKey
    else OtherKey
  }

  lemma KeyOfLabel(k: Key)
    ensures KeyOf(Label(k)) == k
  {
    hide KeyOf, Label;
    if Index(k) < 7 { EarlyLabels(k); }
    else if Index(k) < 12 { MiddleLabels(k); }
    else if Index(k) < 16 { LaterLabels(k); }
    else if Index(k) < 19 { LateLabels(k); }
    else { LastLabels(k); }
  }

  lemma EarlyLabels(k: Key)
    requires Index(k) < 7
    ensures KeyOf(Label(k)) == k
  {
  }

  lemma MiddleLabels(k: Key)
    requires 7 <= Index(k) < 12
    ensures KeyOf(Label(k)) == k
  {
  }

  lemma LaterLabels(k: Key)
    requires 12 <= Index(k) < 16
    ensures KeyOf(Label(k)) == k
  {
  }

  lemma LateLabels(k: Key)
    requires 16 <= Index(k) < 19
    ensures KeyOf(Label(k)) == k
  {
  }

  lemma LastLabels(k: Key)
    requires 19 <= Index(k)
    ensures KeyOf(Label(k)) == k
  {
  }

  // --------------------------------------------------------------- printing

  /** strconv.FormatInt in base 10. */
  function Num(n: int): string { if n < 0 then "-" + Decimal(-n) else Decimal(n) }

  function Optional(k: Key, v: string): seq<Tag> { if v == "" then [] else [[Label(k), v]] }

  function IdentityTag(id: Identity): Tag
  {
    if id.kind == CASH then [Label(IdentityKey), CASH]
    else if id.kind == CONNECTION_KEY then [Label(IdentityKey), id.kind, id.value, id.ia]
    else [Label(IdentityKey), id.kind, id.value]
  }

  function SecretTag(s: Secret): Tag
  {
    if s.role == "" then [Label(SecretKey), s.secret] else [Label(SecretKey), s.secret, s.role]
  }

  function SecretTags(ss: seq<Secret>, n: nat): seq<Tag>
    requires n <= |ss|
  {
    if n == 0 then [] else SecretTags(ss, n - 1) + [SecretTag(ss[n - 1])]
  }

  /** The tags an entry has under one name. */
  function Part(e: Entry, k: Key): seq<Tag>
  {
    match k
    case WKey => [[Label(k), e.w]]
    case RevKey => [[Label(k), Decimal(e.rev)]]
    case CashKey => Optional(k, e.cash)
    case AmountKey => [[Label(k), Decimal(e.amount)]]
    case ChainKey => [[Label(k), e.chain]]
    case IdentityKey => if e.identity.kind == "" then [] else [IdentityTag(e.identity)]
    case StateKey => [[Label(k), e.state, Num(e.checkedAt)]]
    case MintKey => Optional(k, e.mint)
    case ExpiresAtKey => if e.expiresAt.None? then [] else [[Label(k), Num(e.expiresAt.value)]]
    case SourceKey => Optional(k, e.source)
    case RequestIdKey => if e.IsCall() then [[Label(k), e.requestId]] else []
    case DeadlineKey => if e.IsCall() then [[Label(k), Num(e.deadline)]] else []
    case TargetKey => if e.IsCall() then [[Label(k), e.target]] else []
    case DeviceKey => if e.IsCall() then [[Label(k), e.device]] else []
    case SecretKey => SecretTags(e.secrets, |e.secrets|)
    case OrderKeyKey => Optional(k, e.orderKey)
    case NotifyKey => Optional(k, e.notify)
    case AddressKey => Optional(k, e.address)
    case QuoteKey => Optional(k, e.quote)
    case ReceiptKey => Optional(k, e.receipt)
    case WrapKeyKey => [[Label(k), e.wrapKey]]
    case OtherKey => []
  }

  /** The tags under the first n names. */
  function Printed(e: Entry, n: nat): seq<Tag>
    requires n <= 21
  {
    if n == 0 then [] else Printed(e, n - 1) + Part(e, KeyAt(n - 1))
  }

  /** The rumor before its id is set. */
  function Unnamed(e: Entry, user: string, now: int): Event
  {
    Event("", user, Wrap64(now), KIND_POCKET_ENTRY, Printed(e, 21), "", "")
  }

  /** Rumor; None when the entry is refused or its id cannot be computed. */
  function Rumor(hash: Event -> Option<string>, e: Entry, user: string, now: int): Option<Event>
  {
    if !Valid(e) || e.wrapKey == "" then None
    else
      var ev := Unnamed(e, user, now);
      var id := hash(Body(ev));
      if id.None? then None else Some(ev.(id := id.value))
  }

  // ---------------------------------------------------------------- reading

  /** ParseRumor's state between tags. */
  datatype Draft = Draft(entry: Entry, seen: set<Key>, stateTag: Tag)

  function Blank(id: string, createdAt: int): Entry
  {
    Entry("", 0, "", 0, "", NO_IDENTITY, "", 0, "", None, "", "", [], "", 0, "", "", "", "", "", "", "", id, createdAt, "", "")
  }

  /** A single tag's value put into its field. */
  function Fill(e: Entry, k: Key, t: Tag): (r: Option<Entry>)
    requires |t| >= 2
  {
    match k
    case WKey => Some(e.(w := t[1]))
    case RevKey => var n := ParseUint(t[1]); if n.None? then None else Some(e.(rev := n.value))
    case CashKey => Some(e.(cash := t[1]))
    case AmountKey => var n := ParseUint(t[1]); if n.None? then None else Some(e.(amount := n.value))
    case ChainKey => Some(e.(chain := t[1]))
    case IdentityKey => Some(e.(identity := Identity(t[1], if |t| > 2 then t[2] else e.identity.value, if |t| > 3 then t[3] else e.identity.ia)))
    case StateKey => Some(e)
    case MintKey => Some(e.(mint := t[1]))
    case ExpiresAtKey => var n := ParseInt(t[1]); if n.None? then None else Some(e.(expiresAt := Some(n.value)))
    case SourceKey => Some(e.(source := t[1]))
    case RequestIdKey => Some(e.(requestId := t[1]))
    case DeadlineKey => var n := ParseInt(t[1]); if n.None? then None else Some(e.(deadline := n.value))
    case TargetKey => Some(e.(target := t[1]))
    case DeviceKey => Some(e.(device := t[1]))
    case SecretKey => Some(e.(secrets := e.secrets + [Secret(t[1], if |t| > 2 then t[2] else "")]))
    case OrderKeyKey => Some(e.(orderKey := t[1]))
    case NotifyKey => Some(e.(notify := t[1]))
    case AddressKey => Some(e.(address := t[1]))
    case QuoteKey => Some(e.(quote := t[1]))
    case ReceiptKey => Some(e.(receipt := t[1]))
    case WrapKeyKey => Some(e.(wrapKey := t[1]))
    case OtherKey => Some(e)
  }

  /** One tag; None when it is refused. */
  function ReadTag(d: Draft, t: Tag): Option<Draft>
  {
    if t == [] || KeyOf(t[0]) == OtherKey then Some(d)
    else
      var k := KeyOf(t[0]);
      if k in d.seen || |t| < 2 then None
      else
        var e := Fill(d.entry, k, t);
        if e.None? then None
        else Some(Draft(e.value, if k == SecretKey then d.seen else d.seen + {k}, if k == StateKey then t else d.stateTag))
  }

  function ReadTags(d: Draft, tags: seq<Tag>, n: nat): Option<Draft>
    requires n <= |tags|
  {
    if n == 0 then Some(d)
    else
      var r := ReadTags(d, tags, n - 1);
      if r.None? then None else ReadTag(r.value, tags[n - 1])
  }

  /** The checks after the last tag. */
  function Finish(d: Draft): (r: Option<Entry>)
    ensures r.Some? && r.value.Recognised() && !d.entry.Recognised() ==> Valid(r.value)
  {
    var e := d.entry;
    if e.w == "" || RevKey !in d.seen || |d.stateTag| < 2 then None
    else if !LowerHex(e.w, 0) || e.rev == 0 then None
    else if !Known(d.stateTag[1]) then Some(e.(rawState := d.stateTag[1]))
    else if |d.stateTag| < 3 || ParseInt(d.stateTag[2]).None? then None
    else if AmountKey !in d.seen || ChainKey !in d.seen || e.wrapKey == "" then None
    else
      var done := e.(state := d.stateTag[1], checkedAt := ParseInt(d.stateTag[2]).value);
      if Valid(done) then Some(done) else None
  }

  /** What a list of tags says, given the rumor's id and time. */
  function ReadEntry(id: string, createdAt: int, tags: seq<Tag>): Option<Entry>
  {
    var d := ReadTags(Draft(Blank(id, createdAt), {}, []), tags, |tags|);
    if d.None? then None else Finish(d.value)
  }

  /** ParseRumor. */
  function Parsed(hash: Event -> Option<string>, ev: Event): Option<Entry>
  {
    var id := hash(Body(ev));
    if ev.kind != KIND_POCKET_ENTRY || ev.sig != "" || id.None? || (ev.id != "" && ev.id != id.value) then None
    else ReadEntry(id.value, Signed64(ev.createdAt), ev.tags)
  }
}
