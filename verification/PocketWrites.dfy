/**
  * What a call's answer writes to the pocket (nipCP/pending.go:55-231,
  * nipCP/balance.go:32-48). The commitment of a cash secret is a SHA-256, here the
  * parameter `commit`; the clock is the parameter `now`.
  */
module PocketWrites {
  import opened Words
  import opened Text
  import opened PocketEntry

  // --------------------------------------------------------------- statuses

  /** One answer about a held bill. */
  datatype Status = Status(tombstone: Option<string>, notFound: bool, proofByEntryKey: bool, ownSpend: bool, noAnswer: bool)

  /** MapStatus: the state an answer puts a bill in, and whether it is definitive. */
  function MapStatus(s: Status): (r: (string, bool))
    ensures r.1 <==> Final(r.0)
    ensures r.1 <==> s.ownSpend || s.tombstone.Some? || (s.notFound && s.proofByEntryKey)
    ensures Known(r.0) && r.0 !in {LIVE, PENDING, DONE}
    ensures s.ownSpend ==> r.0 == SPENT
    ensures !s.ownSpend && s.tombstone.None? ==> r.0 == (if s.notFound && s.proofByEntryKey then RECLAIMED else UNKNOWN)
    ensures !s.ownSpend && s.tombstone.Some? ==> r.0 == (if s.tombstone.value in {EXPIRED, RECLAIMED} then s.tombstone.value else SPENT)
  {
    if s.ownSpend then (SPENT, true)
    else if s.tombstone.Some? then
      if s.tombstone.value == EXPIRED then (EXPIRED, true)
      else if s.tombstone.value == RECLAIMED then (RECLAIMED, true)
      else (SPENT, true)
    else if s.notFound && s.proofByEntryKey then (RECLAIMED, true)
    else (UNKNOWN, false)
  }

  /** The state a tombstone's reason puts a bill in. */
  function Buried(reason: string): (state: string)
  {
    MapStatus(Status(Some(reason), false, false, false, false)).0
  }

  // -------------------------------------------------------------- new bills

  datatype Token = Token(cash: string) | Tombstone(reason: string)

  datatype NewBill = NewBill(w: string, token: Token, amount: U64, identity: Identity, commitment: string,
                             expiresAt: int, inPlace: bool)

  datatype Answer = Result | BadRequest | BillGone(reason: string) | OtherError

  datatype Outcome = Outcome(answer: Answer, bills: seq<NewBill>, goneW: string, own: seq<Identity>,
                             handOn: seq<string>, at: int)

  datatype Fault = NotPending | AskAgain | BadEntry

  datatype Bill = Refused | Dropped | Kept(entry: Entry)

  datatype Writes = Fails(fault: Fault) | Writes(writes: seq<Entry>, closing: seq<Entry>)

  /** The user keeps a bill made for this secret. */
  predicate Keeps(commit: string -> string, s: Secret, handOn: seq<string>, commitment: string)
  {
    && ValidSecret(s.secret) && commit(s.secret) == commitment
    && (s.secret !in handOn || s.role == REMAINDER)
  }

  /** The last of the first n secrets that keeps the bill. */
  function KeptSecret(commit: string -> string, secrets: seq<Secret>, n: nat, handOn: seq<string>, commitment: string): (r: Option<string>)
    requires n <= |secrets|
    ensures r.Some? <==> exists i :: 0 <= i < n && Keeps(commit, secrets[i], handOn, commitment)
    ensures r.Some? ==> exists i :: 0 <= i < n && Keeps(commit, secrets[i], handOn, commitment) && r.value == secrets[i].secret
  {
    if n == 0 then None
    else if Keeps(commit, secrets[n - 1], handOn, commitment) then Some(secrets[n - 1].secret)
    else KeptSecret(commit, secrets, n - 1, handOn, commitment)
  }

  /** The last of the first n sources with this w. */
  function SourceOf(sources: seq<Entry>, n: nat, w: string): (r: Option<Entry>)
    requires n <= |sources|
    ensures r.None? <==> forall i :: 0 <= i < n ==> sources[i].w != w
    ensures r.Some? ==> r.value.w == w && r.value in sources[..n]
  {
    if n == 0 then None
    else if sources[n - 1].w == w then Some(sources[n - 1])
    else SourceOf(sources, n - 1, w)
  }

  function NewEntry(pending: Entry, b: NewBill, identity: Identity, secrets: seq<Secret>, at: int): Entry
  {
    Entry(b.w, 1, "", b.amount, pending.chain, identity, "", at, "", None, "", "", secrets, "", 0, "", "", "", "",
          "", "", "", "", 0, "", "")
  }

  /** The token, or the tombstone in its place, put into an entry. */
  function Filled(e: Entry, b: NewBill): Entry
  {
    match b.token
    case Tombstone(reason) => e.(cash := "", expiresAt := None, state := Buried(reason))
    case Token(cash) =>
      e.(cash := cash, state := LIVE, amount := if b.amount != 0 then b.amount else e.amount,
         expiresAt := if b.expiresAt > 0 then Some(b.expiresAt) else None)
  }

  /** The secret a kept cash bill carries. */
  function BillSecrets(commit: string -> string, pending: Entry, r: Outcome, b: NewBill): seq<Secret>
  {
    var secret := KeptSecret(commit, pending.secrets, |pending.secrets|, r.handOn, b.commitment);
    if b.identity.kind == CASH && secret.Some? then [Secret(secret.value, "")] else []
  }

  /** A bill's entry before its token is put in: its source carried on at the next rev, or a new one of the call's chain. */
  function Base(pending: Entry, sources: seq<Entry>, b: NewBill, secrets: seq<Secret>, at: int): Entry
  {
    var identity := if b.identity.kind == CASH then Identity(CASH, "", "") else b.identity;
    var source := if b.inPlace then SourceOf(sources, |sources|, b.w) else None;
    if source.Some? then Rewrite(source.value, at).(identity := identity, secrets := secrets)
    else NewEntry(pending, b, identity, secrets, at)
  }

  /** billEntry. */
  function BillEntry(commit: string -> string, pending: Entry, sources: seq<Entry>, r: Outcome, b: NewBill, at: int): Bill
  {
    var secrets := BillSecrets(commit, pending, r, b);
    if if b.identity.kind == CASH then secrets == [] else b.identity !in r.own then Dropped
    else
      var base := Base(pending, sources, b, secrets, at);
      if b.inPlace && base.rev == 1 then Refused
      else if Valid(Filled(base, b)) then Kept(Filled(base, b))
      else Refused
  }

  /** The entries of the first n bills that are kept; None when one of them is refused. */
  function KeptEntries(commit: string -> string, pending: Entry, sources: seq<Entry>, r: Outcome, n: nat, at: int): (es: Option<seq<Entry>>)
    requires n <= |r.bills|
  {
    if n == 0 then Some([])
    else
      var es := KeptEntries(commit, pending, sources, r, n - 1, at);
      var b := BillEntry(commit, pending, sources, r, r.bills[n - 1], at);
      if es.None? || b.Refused? then None
      else if b.Dropped? then es
      else Some(es.value + [b.entry])
  }

  /** The w of the first n bills that are kept in place. */
  function Rewritten(commit: string -> string, pending: Entry, sources: seq<Entry>, r: Outcome, n: nat, at: int): set<string>
    requires n <= |r.bills|
  {
    if n == 0 then {}
    else
      Rewritten(commit, pending, sources, r, n - 1, at)
      + (if BillEntry(commit, pending, sources, r, r.bills[n - 1], at).Kept? && r.bills[n - 1].inPlace then {r.bills[n - 1].w} else {})
  }

  /** The names of entries. */
  function NamesOf(es: seq<Entry>): set<string> { set e | e in es :: e.w }

  /** The first n sources with these names, in this state. */
  function Ended(sources: seq<Entry>, n: nat, names: set<string>, state: string, at: int): seq<Entry>
    requires n <= |sources|
  {
    if n == 0 then []
    else
      Ended(sources, n - 1, names, state, at)
      + (if sources[n - 1].w in names then [WithState(sources[n - 1], state, at)] else [])
  }

  predicate Open(pending: Entry) { pending.IsCall() && pending.state == PENDING }

  /** The check time written. */
  function At(r: Outcome, now: int): int { if r.at == 0 then now else r.at }

  /** ApplyResult. */
  function Applied(commit: string -> string, pending: Entry, sources: seq<Entry>, r: Outcome, now: int): Writes
  {
    var at := At(r, now);
    var done := WithState(pending, DONE, at);
    if !Open(pending) then Fails(NotPending)
    else match r.answer
      case BadRequest => Writes([], [done])
      case BillGone(reason) =>
        Writes([], [done] + Ended(sources, |sources|, {GoneOf(pending, r)}, Buried(reason), at))
      case OtherError => Fails(AskAgain)
      case Result =>
        var es := KeptEntries(commit, pending, sources, r, |r.bills|, at);
        if es.None? then Fails(BadEntry)
        else Writes(es.value,
                    [done] + Ended(sources, |sources|, NamesOf(sources) - Rewritten(commit, pending, sources, r, |r.bills|, at), SPENT, at))
  }

  /** The source a tombstone is about. */
  function GoneOf(pending: Entry, r: Outcome): string { if r.goneW == "" then pending.target else r.goneW }

  // ----------------------------------------------------------------- the code

  /** Close: the pending entry done, at its next rev. */
  function Close(pending: Entry, at: int): (r: Option<Entry>)
    ensures r.Some? <==> pending.IsCall() && pending.state == PENDING
    ensures r.Some? ==> CanRemoveSources(r.value)
    ensures r.Some? && pending.rev < MAX_U64 ==>
      r.value.rev == pending.rev + 1 && Content(r.value) == Content(pending).(rev := pending.rev + 1, state := DONE, checkedAt := at)
  {
    if !pending.IsCall() || pending.state != PENDING then None else Some(WithState(pending, DONE, at))
  }

  predicate CanRemoveSources(e: Entry) { e.IsCall() && e.state == DONE }

  method KeepSecret(commit: string -> string, secrets: seq<Secret>, handOn: seq<string>, commitment: string)
    returns (keep: bool, kept: seq<Secret>)
    ensures var s := KeptSecret(commit, secrets, |secrets|, handOn, commitment);
      keep == s.Some? && kept == if s.Some? then [Secret(s.value, "")] else []
  {
    keep, kept := false, [];
    for i := 0 to |secrets|
      invariant var s := KeptSecret(commit, secrets, i, handOn, commitment);
        keep == s.Some? && kept == if s.Some? then [Secret(s.value, "")] else []
    {
      if ValidSecret(secrets[i].secret) && commit(secrets[i].secret) == commitment {
        var handed := false;
        for h := 0 to |handOn|
          invariant handed <==> secrets[i].secret in handOn[..h]
        {
          handed := handed || handOn[h] == secrets[i].secret;
        }
        assert handOn[..|handOn|] == handOn;
        if !handed || secrets[i].role == REMAINDER { keep, kept := true, [Secret(secrets[i].secret, "")]; }
      }
    }
  }

  method OwnIdentity(own: seq<Identity>, id: Identity) returns (keep: bool)
    ensures keep <==> id in own
  {
    keep := false;
    for i := 0 to |own|
      invariant keep <==> id in own[..i]
    {
      keep := keep || own[i] == id;
    }
    assert own[..|own|] == own;
  }

  method RewriteSource(sources: seq<Entry>, w: string, made: Entry, at: int) returns (e: Entry)
    ensures var s := SourceOf(sources, |sources|, w);
      e == if s.Some? then Rewrite(s.value, at).(identity := made.identity, secrets := made.secrets) else made
  {
    hide Rewrite;
    e := made;
    for i := 0 to |sources|
      invariant var s := SourceOf(sources, i, w);
        e == if s.Some? then Rewrite(s.value, at).(identity := made.identity, secrets := made.secrets) else made
    {
      if sources[i].w == w { e := Rewrite(sources[i], at).(identity := made.identity, secrets := made.secrets); }
    }
  }

  method MakeBillEntry(commit: string -> string, pending: Entry, sources: seq<Entry>, r: Outcome, b: NewBill, at: int)
    returns (bill: Bill)
    ensures bill == BillEntry(commit, pending, sources, r, b, at)
  {
    hide Valid, Keeps, Rewrite, KeptSecret;
    var secrets: seq<Secret>, keep := [], false;
    if b.identity.kind == CASH {
      keep, secrets := KeepSecret(commit, pending.secrets, r.handOn, b.commitment);
    } else {
      keep := OwnIdentity(r.own, b.identity);
    }
    if !keep { return Dropped; }
    var e := NewEntry(pending, b, if b.identity.kind == CASH then Identity(CASH, "", "") else b.identity, secrets, at);
    if b.inPlace {
      e := RewriteSource(sources, b.w, e, at);
      if e.rev == 1 { return Refused; }
    }
    match b.token {
      case Tombstone(reason) =>
        e := e.(cash := "", expiresAt := None, state := MapStatus(Status(Some(reason), false, false, false, false)).0);
      case Token(cash) =>
        e := e.(cash := cash, state := LIVE);
        if b.amount != 0 { e := e.(amount := b.amount); }
        e := e.(expiresAt := None);
        if b.expiresAt > 0 { e := e.(expiresAt := Some(b.expiresAt)); }
    }
    if !Valid(e) { return Refused; }
    bill := Kept(e);
  }

  /** ApplyResult. */
  method ApplyResult(commit: string -> string, pending: Entry, sources: seq<Entry>, r: Outcome, now: int)
    returns (out: Writes)
    ensures out == Applied(commit, pending, sources, r, now) && Settles(commit, pending, sources, r, if r.at == 0 then now else r.at, out)
  {
    hide KeptEntries, Rewritten, Ended, NamesOf, WithState, MapStatus, Settles;
    AppliedExactly(commit, pending, sources, r, now);
    if !pending.IsCall() || pending.state != PENDING { return Fails(NotPending); }
    var at := r.at;
    if at == 0 { at := now; }
    var done := WithState(pending, DONE, at);
    var closing := [done];
    match r.answer {
      case BadRequest =>
        return Writes([], closing);
      case BillGone(reason) =>
        var w := r.goneW;
        if w == "" { w := pending.target; }
        closing := BurySources(closing, sources, w, Buried(reason), at);
        return Writes([], closing);
      case OtherError =>
        return Fails(AskAgain);
      case Result =>
    }
    var writes, rewritten := KeepBills(commit, pending, sources, r, at);
    if writes.None? { return Fails(BadEntry); }
    closing := SpendSources(closing, sources, rewritten, at);
    out := Writes(writes.value, closing);
  }

  /** Its loop for a tombstone: the named source ended. */
  method BurySources(closing: seq<Entry>, sources: seq<Entry>, w: string, state: string, at: int) returns (out: seq<Entry>)
    ensures out == closing + Ended(sources, |sources|, {w}, state, at)
  {
    hide WithState;
    out := closing;
    for i := 0 to |sources|
      invariant out == closing + Ended(sources, i, {w}, state, at)
    {
      if sources[i].w == w { out := out + [WithState(sources[i], state, at)]; }
    }
  }

  /** Its loop for a result: every source not carried on spent. */
  method SpendSources(closing: seq<Entry>, sources: seq<Entry>, rewritten: set<string>, at: int) returns (out: seq<Entry>)
    ensures out == closing + Ended(sources, |sources|, NamesOf(sources) - rewritten, SPENT, at)
  {
    hide WithState;
    out := closing;
    for i := 0 to |sources|
      invariant out == closing + Ended(sources, i, NamesOf(sources) - rewritten, SPENT, at)
    {
      if sources[i].w !in rewritten { out := out + [WithState(sources[i], SPENT, at)]; }
    }
  }

  /** Its loop over the result's bills: the entries kept, and the sources they carry on in place. */
  method KeepBills(commit: string -> string, pending: Entry, sources: seq<Entry>, r: Outcome, at: int)
    returns (kept: Option<seq<Entry>>, rewritten: set<string>)
    ensures kept == KeptEntries(commit, pending, sources, r, |r.bills|, at)
    ensures kept.Some? ==> rewritten == Rewritten(commit, pending, sources, r, |r.bills|, at)
  {
    hide BillEntry;
    var writes: seq<Entry> := [];
    rewritten := {};
    for i := 0 to |r.bills|
      invariant KeptEntries(commit, pending, sources, r, i, at) == Some(writes)
      invariant rewritten == Rewritten(commit, pending, sources, r, i, at)
    {
      var bill := MakeBillEntry(commit, pending, sources, r, r.bills[i], at);
      if bill.Refused? {
        RefusedForGood(commit, pending, sources, r, i + 1, |r.bills|, at);
        return None, {};
      }
      if bill.Kept? {
        if r.bills[i].inPlace { rewritten := rewritten + {r.bills[i].w}; }
        writes := writes + [bill.entry];
      }
    }
    kept := Some(writes);
  }

  lemma {:induction false} RefusedForGood(commit: string -> string, pending: Entry, sources: seq<Entry>, r: Outcome, n: nat,
                                        m: nat, at: int)
    requires n <= m <= |r.bills| && KeptEntries(commit, pending, sources, r, n, at).None?
    ensures KeptEntries(commit, pending, sources, r, m, at).None?
    decreases m
  {
    hide BillEntry;
    if n < m { RefusedForGood(commit, pending, sources, r, n, m - 1, at); }
  }

  // ------------------------------------------------------------ what is written

  /**
    * The user may claim this bill: it is made for an identity of theirs, or for a
    * secret of the call that is not handed on, or is that of a split's remainder.
    */
  ghost predicate Claimable(commit: string -> string, pending: Entry, r: Outcome, b: NewBill)
  {
    if b.identity.kind == "cash" then
      exists s :: s in pending.secrets && LowerHex(s.secret, 64) && commit(s.secret) == b.commitment
        && (s.secret in r.handOn ==> s.role == "remainder")
    else b.identity in r.own
  }

  /** A bill is dropped exactly when the user cannot claim it. */
  lemma DroppedIsOthers(commit: string -> string, pending: Entry, sources: seq<Entry>, r: Outcome, b: NewBill, at: int)
    ensures BillEntry(commit, pending, sources, r, b, at).Dropped? <==> !Claimable(commit, pending, r, b)
  {
    hide Valid, Filled, Base, LowerHex;
    var ss := pending.secrets;
    if b.identity.kind == CASH {
      forall s | s in ss && Keeps(commit, s, r.handOn, b.commitment) ensures KeptSecret(commit, ss, |ss|, r.handOn, b.commitment).Some? {
        var i :| 0 <= i < |ss| && ss[i] == s;
      }
      if KeptSecret(commit, ss, |ss|, r.handOn, b.commitment).Some? {
        var i :| 0 <= i < |ss| && Keeps(commit, ss[i], r.handOn, b.commitment);
        assert ss[i] in ss;
      }
    }
  }

  /**
    * A bill the user may claim is refused exactly when it is in place and no source
    * has its w (or one at rev 0 has), or what would be written does not validate.
    */
  lemma RefusedMeans(commit: string -> string, pending: Entry, sources: seq<Entry>, r: Outcome, b: NewBill, at: int)
    ensures BillEntry(commit, pending, sources, r, b, at).Refused? <==>
      && Claimable(commit, pending, r, b)
      && ((b.inPlace && var s := SourceOf(sources, |sources|, b.w); s.None? || s.value.rev == 0)
          || !Valid(Filled(Base(pending, sources, b, BillSecrets(commit, pending, r, b), at), b)))
  {
    hide Valid, Filled, BillSecrets, Claimable, Base, SourceOf;
    DroppedIsOthers(commit, pending, sources, r, b, at);
    if b.inPlace { BaseRev(pending, sources, b, BillSecrets(commit, pending, r, b), at); }
  }

  lemma BaseRev(pending: Entry, sources: seq<Entry>, b: NewBill, secrets: seq<Secret>, at: int)
    requires b.inPlace
    ensures Base(pending, sources, b, secrets, at).rev == 1 <==> var s := SourceOf(sources, |sources|, b.w); s.None? || s.value.rev == 0
  {
    hide SourceOf, Rewrite;
    var s := SourceOf(sources, |sources|, b.w);
    if s.Some? { RevOne(s.value, at); }
  }

  lemma RevOne(e: Entry, at: int)
    ensures Rewrite(e, at).rev == 1 <==> e.rev == 0
  {
  }

  /** What a kept bill's entry says. */
  lemma KeptFacts(commit: string -> string, pending: Entry, sources: seq<Entry>, r: Outcome, b: NewBill, at: int)
    requires BillEntry(commit, pending, sources, r, b, at).Kept?
    ensures var e := BillEntry(commit, pending, sources, r, b, at).entry;
      && e.w == b.w && Valid(e) && e.checkedAt == at
      && (e.state == LIVE <==> b.token.Token?)
      && (b.token.Tombstone? ==> Final(e.state) && e.state == Buried(b.token.reason) && e.cash == "" && e.expiresAt.None?)
      && (b.token.Token? ==> e.cash == b.token.cash && e.expiresAt == if b.expiresAt > 0 then Some(b.expiresAt) else None)
      && e.identity == (if b.identity.kind == CASH then Identity(CASH, "", "") else b.identity)
      && (b.identity.kind == CASH ==> |e.secrets| == 1 && e.secrets[0].role == "" && commit(e.secrets[0].secret) == b.commitment)
      && (b.identity.kind != CASH ==> e.secrets == [])
      && (b.inPlace ==>
            exists s :: s in sources && s.w == b.w && e.rev == Wrap64(s.rev + 1) && e.chain == s.chain && e.mint == s.mint && e.source == s.source
              && e.amount == (if b.token.Token? && b.amount != 0 then b.amount else s.amount))
      && (!b.inPlace ==> e.rev == 1 && e.chain == pending.chain && e.amount == b.amount && e.mint == e.source == e.requestId == "")
      && e.wrapKey == e.rumorId == e.wrapId == e.rawState == "" && e.rumorCreatedAt == 0
  {
    hide Valid;
    if b.inPlace {
      var s := SourceOf(sources, |sources|, b.w).value;
      assert s in sources && s.w == b.w;
    }
  }

  // ----------------------------------------------------------- when it fails

  lemma {:induction false} RefusedOne(commit: string -> string, pending: Entry, sources: seq<Entry>, r: Outcome, n: nat, at: int)
    requires n <= |r.bills|
    ensures KeptEntries(commit, pending, sources, r, n, at).None? <==>
      exists i :: 0 <= i < n && BillEntry(commit, pending, sources, r, r.bills[i], at).Refused?
  {
    hide BillEntry;
    if n > 0 { RefusedOne(commit, pending, sources, r, n - 1, at); }
  }

  ghost predicate SomeRefused(commit: string -> string, pending: Entry, sources: seq<Entry>, r: Outcome, at: int)
  {
    exists i :: 0 <= i < |r.bills| && BillEntry(commit, pending, sources, r, r.bills[i], at).Refused?
  }

  /**
    * When a settlement is written and which fault is given otherwise: the call is not
    * open, the error leaves it open, or a bill of the result is refused. Whatever is
    * written closes the call.
    */
  ghost predicate Settles(commit: string -> string, pending: Entry, sources: seq<Entry>, r: Outcome, at: int, out: Writes)
  {
    && (out.Writes? <==> Open(pending) && r.answer != OtherError && (r.answer.Result? ==> !SomeRefused(commit, pending, sources, r, at)))
    && (out == Fails(NotPending) <==> !Open(pending))
    && (out == Fails(AskAgain) <==> Open(pending) && r.answer == OtherError)
    && (out == Fails(BadEntry) <==> Open(pending) && r.answer.Result? && SomeRefused(commit, pending, sources, r, at))
    && (out.Writes? ==> out.closing != [] && Some(out.closing[0]) == Close(pending, at))
    && (out.Writes? && !r.answer.Result? ==> out.writes == [])
    && (out.Writes? && r.answer.BadRequest? ==> |out.closing| == 1)
  }

  /** The check time is the one given, or else now. */
  lemma AppliedExactly(commit: string -> string, pending: Entry, sources: seq<Entry>, r: Outcome, now: int)
    ensures Settles(commit, pending, sources, r, if r.at == 0 then now else r.at, Applied(commit, pending, sources, r, now))
  {
    hide BillEntry, WithState, Ended, KeptEntries, Rewritten, MapStatus;
    RefusedOne(commit, pending, sources, r, |r.bills|, if r.at == 0 then now else r.at);
  }

  /** What is to be published. */
  function Written(out: Writes): seq<Entry> { if out.Writes? then out.writes + out.closing else [] }

  // ------------------------------------------------------------ it validates

  /** A call that validates, closed, validates exactly while its rev lasts and the time is one. */
  lemma ClosedIsValid(pending: Entry, at: int)
    requires Valid(pending) && Close(pending, at).Some?
    ensures Valid(Close(pending, at).value) <==> at > 0 && pending.rev < MAX_U64
  {
    hide LowerHex, ValidSecrets, Final, ValidRequestId, ValidIdentity;
    NextRev(pending.rev);
  }

  lemma NextRev(rev: U64)
    ensures Wrap64(rev + 1) == 0 <==> rev == MAX_U64
  {
  }

  /** So does a bill that ends. */
  lemma EndedIsValid(s: Entry, state: string, at: int)
    requires Valid(s) && !s.IsCall() && state in {"spent", "expired", "reclaimed"}
    ensures Valid(WithState(s, state, at)) <==> at > 0 && s.rev < MAX_U64
  {
    hide LowerHex, ValidSecrets, ValidRequestId, ValidIdentity;
    NextRev(s.rev);
  }
}
