/** Cash Pocket entries (nipCP/entry.go:12-234): one version of one bill or call. */
module PocketEntry {
  import opened Words
  import opened Text

  const LIVE := "live"
  const PENDING := "pending"
  const SPENT := "spent"
  const EXPIRED := "expired"
  const RECLAIMED := "reclaimed"
  const DONE := "done"
  const UNKNOWN := "unknown"

  predicate Known(s: string) { s in {LIVE, PENDING, SPENT, EXPIRED, RECLAIMED, DONE, UNKNOWN} }

  predicate Final(s: string) { s in {SPENT, EXPIRED, RECLAIMED, DONE} }

  const PUBKEY := "pubkey"
  const CONNECTION_KEY := "connection_key"
  const CASH := "cash"

  const REMAINDER := "remainder"
  const REMINT := "remint"

  datatype Identity = Identity(kind: string, value: string, ia: string)

  const NO_IDENTITY := Identity("", "", "")

  datatype Secret = Secret(secret: string, role: string)

  /** W is the bill's wallet pubkey, or a call's request id; the last four fields are read, never written. */
  datatype Entry = Entry(w: string, rev: U64, cash: string, amount: U64, chain: string, identity: Identity,
                         state: string, checkedAt: int, wrapKey: string, expiresAt: Option<int>, mint: string,
                         source: string, secrets: seq<Secret>, requestId: string, deadline: int, target: string,
                         device: string, orderKey: string, notify: string, address: string, quote: string,
                         receipt: string, rumorId: string, rumorCreatedAt: int, wrapId: string, rawState: string)
  {
    predicate IsCall() { requestId != "" }

    predicate Recognised() { Known(state) }
  }

  predicate ValidIdentity(id: Identity)
  {
    if id.kind == PUBKEY then LowerHex(id.value, 64) && id.ia == ""
    else if id.kind == CONNECTION_KEY then LowerHex(id.value, 64) && LowerHex(id.ia, 64)
    else id.kind == CASH && id.value == "" && id.ia == ""
  }

  /** nipcash.ValidCashSecret and nipcash.ValidRequestID. */
  predicate ValidSecret(s: string) { LowerHex(s, 64) }

  predicate ValidRequestId(s: string) { LowerHex(s, 0) && 32 <= |s| <= 64 }

  predicate ValidSecrets(secrets: seq<Secret>, call: bool)
  {
    forall i :: 0 <= i < |secrets| ==>
      ValidSecret(secrets[i].secret) && (secrets[i].role in {"", REMAINDER} || (secrets[i].role == REMINT && call))
  }

  /** The checks shared by bills and calls. */
  predicate ValidCommon(e: Entry)
  {
    && LowerHex(e.w, 0) && e.rev != 0 && Known(e.state) && e.checkedAt > 0 && e.amount != 0 && e.chain != ""
    && (e.wrapKey != "" ==> LowerHex(e.wrapKey, 64))
    && (e.expiresAt.Some? ==> e.expiresAt.value > 0)
    && (e.mint != "" ==> LowerHex(e.mint, 66))
    && (e.source != "" ==> LowerHex(e.source, 64))
    && ValidSecrets(e.secrets, e.IsCall())
  }

  predicate ValidCall(e: Entry)
  {
    && e.w == e.requestId && ValidRequestId(e.requestId)
    && (e.state == PENDING || e.state == DONE)
    && e.deadline > 0 && LowerHex(e.target, 64) && LowerHex(e.device, 0)
    && e.cash == "" && e.identity.kind == "" && e.expiresAt.None?
    && (e.orderKey != "" ==> LowerHex(e.orderKey, 64))
    && (e.notify != "" ==> LowerHex(e.notify, 64))
    && (e.address == "" <==> e.quote == "")
    && (e.quote != "" ==> e.notify != "")
    && (e.receipt != "" ==> e.quote != "")
  }

  predicate ValidBill(e: Entry)
  {
    && e.deadline == 0 && e.target == "" && e.device == "" && e.orderKey == "" && e.notify == ""
    && e.address == "" && e.quote == "" && e.receipt == ""
    && e.state != PENDING && e.state != DONE
    && ValidIdentity(e.identity) && LowerHex(e.w, 64)
    && (e.cash == "" ==> Final(e.state))
  }

  /** Validate. */
  predicate Valid(e: Entry)
  {
    ValidCommon(e) && if e.IsCall() then ValidCall(e) else ValidBill(e)
  }

  /** rewrite: the next version, its read-only fields cleared. */
  function Rewrite(e: Entry, at: int): (n: Entry)
    ensures n.wrapKey == n.rumorId == n.wrapId == n.rawState == "" && n.rumorCreatedAt == 0
    ensures e.rev < MAX_U64 ==> Content(n) == Content(e).(rev := e.rev + 1, checkedAt := at)
  {
    e.(rev := Wrap64(e.rev + 1), checkedAt := at, wrapKey := "", rumorId := "", rumorCreatedAt := 0, wrapId := "", rawState := "")
  }

  /** WithState. */
  function WithState(e: Entry, s: string, at: int): (n: Entry)
  {
    Rewrite(e, at).(state := s)
  }

  /** Two readings of one version: equal up to what sealing and reading fill in. */
  predicate SameContent(a: Entry, b: Entry)
  {
    Content(a) == Content(b)
  }

  function Content(e: Entry): Entry
  {
    e.(wrapKey := "", rumorId := "", rumorCreatedAt := 0, wrapId := "", rawState := "")
  }

  // ----------------------------------------------------------- what Valid means

  /** Set only when it may be, and then of so many hex digits. */
  predicate HexIfSet(s: string, n: nat) { s == "" || LowerHex(s, n) }

  predicate NothingOfACall(e: Entry)
  {
    && e.deadline == 0 && e.target == "" && e.device == "" && e.orderKey == "" && e.notify == ""
    && e.address == "" && e.quote == "" && e.receipt == ""
  }

  /** The rules of an entry, by what they are about. */
  lemma ValidRules(e: Entry)
    requires Valid(e)
    ensures e.amount >= 1 && e.chain != "" && e.rev >= 1 && e.checkedAt >= 1
    ensures e.state in {"live", "spent", "expired", "reclaimed", "unknown", "pending", "done"}
    ensures e.state in {"pending", "done"} <==> e.requestId != ""
    ensures e.state in {"live", "unknown"} ==> e.cash != ""
    ensures e.requestId == "" ==> LowerHex(e.w, 64) && NothingOfACall(e)
    ensures e.requestId == "" ==>
      || (e.identity.kind == "pubkey" && LowerHex(e.identity.value, 64) && e.identity.ia == "")
      || (e.identity.kind == "connection_key" && LowerHex(e.identity.value, 64) && LowerHex(e.identity.ia, 64))
      || e.identity == Identity("cash", "", "")
    ensures e.requestId != "" ==>
      && e.w == e.requestId && LowerHex(e.w, 0) && 32 <= |e.w| <= 64 && e.deadline >= 1 && LowerHex(e.target, 64) && LowerHex(e.device, 0)
      && e.cash == "" && e.identity.kind == "" && e.expiresAt == None
    ensures HexIfSet(e.wrapKey, 64) && HexIfSet(e.mint, 66) && HexIfSet(e.source, 64) && HexIfSet(e.orderKey, 64) && HexIfSet(e.notify, 64)
    ensures e.expiresAt.Some? ==> e.expiresAt.value >= 1
    ensures (e.address == "" <==> e.quote == "") && (e.quote != "" ==> e.notify != "") && (e.receipt != "" ==> e.quote != "")
    ensures forall s :: s in e.secrets ==>
      LowerHex(s.secret, 64) && (s.role == "" || s.role == "remainder" || (s.role == "remint" && e.requestId != ""))
  {
    hide LowerHex;
    forall s | s in e.secrets
      ensures LowerHex(s.secret, 64) && (s.role == "" || s.role == "remainder" || (s.role == "remint" && e.requestId != ""))
    {
      var i :| 0 <= i < |e.secrets| && e.secrets[i] == s;
    }
  }

  /** And what follows them validates: a bill. */
  lemma BillIsValid(e: Entry)
    requires LowerHex(e.w, 64) && e.rev >= 1 && e.amount >= 1 && e.chain != "" && e.checkedAt >= 1
    requires e.state in {"live", "spent", "expired", "reclaimed", "unknown"} && (e.state in {"live", "unknown"} ==> e.cash != "")
    requires e.requestId == "" && NothingOfACall(e) && HexIfSet(e.wrapKey, 64) && HexIfSet(e.mint, 66) && HexIfSet(e.source, 64)
    requires e.expiresAt.Some? ==> e.expiresAt.value >= 1
    requires forall s :: s in e.secrets ==> LowerHex(s.secret, 64) && s.role in {"", "remainder"}
    requires
      || (e.identity.kind == "pubkey" && LowerHex(e.identity.value, 64) && e.identity.ia == "")
      || (e.identity.kind == "connection_key" && LowerHex(e.identity.value, 64) && LowerHex(e.identity.ia, 64))
      || e.identity == Identity("cash", "", "")
    ensures Valid(e)
  {
    hide LowerHex;
    assert LowerHex(e.w, 0) by { HexOfAny(e.w, 64); }
  }

  /** And a call. */
  lemma CallIsValid(e: Entry)
    requires e.w == e.requestId && LowerHex(e.w, 0) && 32 <= |e.w| <= 64 && e.rev >= 1 && e.amount >= 1 && e.chain != "" && e.checkedAt >= 1
    requires e.state in {"pending", "done"} && e.deadline >= 1 && LowerHex(e.target, 64) && LowerHex(e.device, 0)
    requires e.cash == "" && e.identity.kind == "" && e.expiresAt == None
    requires HexIfSet(e.wrapKey, 64) && HexIfSet(e.mint, 66) && HexIfSet(e.source, 64) && HexIfSet(e.orderKey, 64) && HexIfSet(e.notify, 64)
    requires (e.address == "" <==> e.quote == "") && (e.quote != "" ==> e.notify != "") && (e.receipt != "" ==> e.quote != "")
    requires forall s :: s in e.secrets ==> LowerHex(s.secret, 64) && s.role in {"", "remainder", "remint"}
    ensures Valid(e)
  {
    hide LowerHex;
    assert e.requestId != "";
  }

  lemma HexOfAny(s: string, n: nat)
    requires n > 0 && n % 2 == 0 && LowerHex(s, n)
    ensures LowerHex(s, 0)
  {
  }
}
