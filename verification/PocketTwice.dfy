/**
  * Two devices settle one call (nipCP/pending.go:102-231): each writes its own
  * answer, at its own check time. The log then resolves as if one had settled it,
  * but for the check times, and what was sealed twice is disputed.
  */
module PocketTwice {
  import opened Words
  import opened PocketEntry
  import opened PocketResolve
  import opened PocketBalance
  import opened PocketWrites
  import opened PocketConservation

  // ----------------------------------------------------- leaving out the check

  /** An entry but for when it was checked. */
  function Unchecked(e: Entry): Entry { e.(checkedAt := 0) }

  function UncheckedAll(es: seq<Entry>): (us: seq<Entry>)
    ensures |us| == |es| && forall i :: 0 <= i < |es| ==> us[i] == Unchecked(es[i])
  {
    seq(|es|, i requires 0 <= i < |es| => Unchecked(es[i]))
  }

  lemma UncheckedFields(e: Entry)
    ensures var u := Unchecked(e);
      && u.w == e.w && u.rev == e.rev && u.state == e.state && u.chain == e.chain && u.amount == e.amount
      && u.rumorId == e.rumorId && u.rumorCreatedAt == e.rumorCreatedAt
  {
  }

  lemma UncheckedMembers(es: seq<Entry>, e: Entry)
    ensures e in es ==> Unchecked(e) in UncheckedAll(es)
    ensures e in UncheckedAll(es) ==> exists f :: f in es && Unchecked(f) == e
  {
    hide Unchecked;
    if e in es {
      var i :| 0 <= i < |es| && es[i] == e;
      assert UncheckedAll(es)[i] == Unchecked(e);
    }
    if e in UncheckedAll(es) {
      var i :| 0 <= i < |es| && UncheckedAll(es)[i] == e;
      assert es[i] in es;
    }
  }

  function UncheckedOption(r: Option<Entry>): Option<Entry> { if r.None? then None else Some(Unchecked(r.value)) }

  lemma RankUnchecked(e: Entry, f: Entry, w: string)
    ensures Contends(Unchecked(e), w) == Contends(e, w) && Outranks(Unchecked(e), Unchecked(f)) == Outranks(e, f)
  {
    hide Known, Final, Unchecked;
    UncheckedFields(e);
    UncheckedFields(f);
  }

  /** The check time plays no part in resolving. */
  lemma {:induction false} WinnerUnchecked(all: seq<Entry>, n: nat, w: string)
    requires n <= |all|
    ensures Winner(UncheckedAll(all), n, w) == UncheckedOption(Winner(all, n, w))
  {
    hide Contends, Outranks, Unchecked;
    if n > 0 {
      WinnerUnchecked(all, n - 1, w);
      var cur, e := Winner(all, n - 1, w), all[n - 1];
      RankUnchecked(e, if cur.Some? then cur.value else e, w);
    }
  }

  lemma CurrentUnchecked(all: seq<Entry>, w: string)
    ensures Current(UncheckedAll(all), w) == UncheckedOption(Current(all, w))
  {
    hide Winner;
    WinnerUnchecked(all, |all|, w);
  }

  lemma RumorsUnchecked(all: seq<Entry>, w: string, rev: U64)
    ensures RumorsAt(UncheckedAll(all), w, rev) == RumorsAt(all, w, rev)
  {
    hide Contends, Unchecked;
    forall id ensures id in RumorsAt(UncheckedAll(all), w, rev) <==> id in RumorsAt(all, w, rev) {
      if id in RumorsAt(all, w, rev) {
        var e :| e in all && Contends(e, w) && e.rev == rev && e.rumorId == id;
        UncheckedMembers(all, e);
        UncheckedFields(e);
        RankUnchecked(e, e, w);
      }
      if id in RumorsAt(UncheckedAll(all), w, rev) {
        var u :| u in UncheckedAll(all) && Contends(u, w) && u.rev == rev && u.rumorId == id;
        UncheckedMembers(all, u);
        var e :| e in all && Unchecked(e) == u;
        UncheckedFields(e);
        RankUnchecked(e, e, w);
      }
    }
  }

  lemma DisputedUnchecked(all: seq<Entry>, w: string)
    ensures Disputed(UncheckedAll(all), w) == Disputed(all, w)
  {
    hide Current, RumorsAt, Unchecked;
    CurrentUnchecked(all, w);
    if Current(all, w).Some? {
      UncheckedFields(Current(all, w).value);
      RumorsUnchecked(all, w, Current(all, w).value.rev);
    }
  }

  // ------------------------------------------------------------------- totals

  lemma HeldUnchecked(all: seq<Entry>, chain: string, w: string)
    ensures Held(UncheckedAll(all), chain)(w) == Held(all, chain)(w)
    ensures w in Holders(UncheckedAll(all)) <==> w in Holders(all)
  {
    hide Current, Holders, Unchecked;
    CurrentUnchecked(all, w);
    HoldersCurrent(all, w);
    HoldersCurrent(UncheckedAll(all), w);
    if Current(all, w).Some? { UncheckedFields(Current(all, w).value); }
  }

  lemma TotalUnchecked(all: seq<Entry>, chain: string)
    ensures Total(UncheckedAll(all), chain) == Total(all, chain)
  {
    hide Sum, Holders, Held;
    forall w: string ensures w in Holders(UncheckedAll(all)) <==> w in Holders(all) { HeldUnchecked(all, chain, w); }
    assert Holders(UncheckedAll(all)) == Holders(all);
    forall w | w in Holders(all) ensures Held(UncheckedAll(all), chain)(w) == Held(all, chain)(w) { HeldUnchecked(all, chain, w); }
    SumAgree(Holders(all), Held(UncheckedAll(all), chain), Held(all, chain));
  }

  lemma {:induction false} LiveSumUnchecked(ws: seq<Entry>, chain: string)
    ensures LiveSum(UncheckedAll(ws), chain) == LiveSum(ws, chain)
  {
    hide Unchecked;
    if ws != [] {
      var n := |ws| - 1;
      assert UncheckedAll(ws)[..n] == UncheckedAll(ws[..n]);
      LiveSumUnchecked(ws[..n], chain);
      UncheckedFields(ws[n]);
    }
  }

  lemma NamesUnchecked(ws: seq<Entry>)
    ensures NamesOf(UncheckedAll(ws)) == NamesOf(ws)
  {
    hide Unchecked;
    forall w ensures w in NamesOf(UncheckedAll(ws)) <==> w in NamesOf(ws) {
      if w in NamesOf(ws) {
        var e :| e in ws && e.w == w;
        UncheckedMembers(ws, e);
        UncheckedFields(e);
      }
      if w in NamesOf(UncheckedAll(ws)) {
        var u :| u in UncheckedAll(ws) && u.w == w;
        UncheckedMembers(ws, u);
        var e :| e in ws && Unchecked(e) == u;
        UncheckedFields(e);
      }
    }
  }

  // --------------------------------------------------------------- publishing

  lemma AdvancesUnchecked(all: seq<Entry>, ws: seq<Entry>)
    requires Advances(all, ws)
    ensures Advances(UncheckedAll(all), UncheckedAll(ws))
  {
    hide Current, Known, Unchecked;
    var us := UncheckedAll(ws);
    forall i, j | 0 <= i < j < |us| ensures us[i].w != us[j].w {
      UncheckedFields(ws[i]);
      UncheckedFields(ws[j]);
    }
    forall u | u in us ensures u.Recognised() && Supersedes(UncheckedAll(all), u) {
      UncheckedMembers(ws, u);
      var x :| x in ws && Unchecked(x) == u;
      UncheckedFields(x);
      CurrentUnchecked(all, x.w);
      assert Supersedes(all, x);
      if Current(all, x.w).Some? { UncheckedFields(Current(all, x.w).value); }
    }
  }

  lemma ContentUnchecked(e: Entry, x: Entry)
    requires SameContent(e, x)
    ensures SameContent(Unchecked(e), Unchecked(x))
  {
    assert Content(Unchecked(e)) == Content(e).(checkedAt := 0);
    assert Content(Unchecked(x)) == Content(x).(checkedAt := 0);
  }

  /** Writes that differ in their check times only, published together, are published. */
  lemma PublishesUnchecked(all: seq<Entry>, ws: seq<Entry>, ws': seq<Entry>, log: seq<Entry>)
    requires Publishes(all, ws + ws', log) && UncheckedAll(ws) == UncheckedAll(ws')
    ensures Publishes(UncheckedAll(all), UncheckedAll(ws), UncheckedAll(log))
  {
    hide SameContent, Unchecked, UncheckedAll;
    var ua, us, ul := UncheckedAll(all), UncheckedAll(ws), UncheckedAll(log);
    forall u | u in ua ensures u in ul {
      UncheckedMembers(all, u);
      var e :| e in all && Unchecked(e) == u;
      UncheckedMembers(log, e);
    }
    forall u | u in ul ensures u in ua || Sealed(u, us) { ReadUnchecked(all, ws, ws', log, u); }
    forall u | u in us ensures Read(ul, u) {
      UncheckedMembers(ws, u);
      var x :| x in ws && Unchecked(x) == u;
      assert x in ws + ws' && Read(log, x);
      var e :| e in log && SameContent(e, x);
      ContentUnchecked(e, x);
      UncheckedMembers(log, e);
    }
  }

  lemma ReadUnchecked(all: seq<Entry>, ws: seq<Entry>, ws': seq<Entry>, log: seq<Entry>, u: Entry)
    requires Publishes(all, ws + ws', log) && UncheckedAll(ws) == UncheckedAll(ws') && u in UncheckedAll(log)
    ensures u in UncheckedAll(all) || Sealed(u, UncheckedAll(ws))
  {
    hide SameContent, Unchecked, UncheckedAll;
    UncheckedMembers(log, u);
    var e :| e in log && Unchecked(e) == u;
    if e in all {
      UncheckedMembers(all, e);
    } else {
      var x :| x in ws + ws' && SameContent(e, x);
      ContentUnchecked(e, x);
      UncheckedMembers(ws, x);
      UncheckedMembers(ws', x);
    }
  }

  lemma RumorsIdentifyUnchecked(log: seq<Entry>)
    requires RumorsIdentify(log)
    ensures RumorsIdentify(UncheckedAll(log))
  {
    hide UncheckedAll;
    forall u, v | u in UncheckedAll(log) && v in UncheckedAll(log) && u.rumorId == v.rumorId ensures SameUnwrapped(u, v) {
      UncheckedMembers(log, u);
      UncheckedMembers(log, v);
      var e :| e in log && Unchecked(e) == u;
      var f :| f in log && Unchecked(f) == v;
      assert SameUnwrapped(e, f);
      assert u.(wrapId := "") == e.(wrapId := "").(checkedAt := 0) && v.(wrapId := "") == f.(wrapId := "").(checkedAt := 0);
    }
  }

  // ----------------------------------------------------- one call, two answers

  /** The same answer, checked at another time. */
  predicate SameAnswer(r: Outcome, r': Outcome) { r.(at := 0) == r'.(at := 0) }

  lemma RewriteUnchecked(e: Entry, s: string, at: int, at': int)
    ensures Unchecked(Rewrite(e, at)) == Unchecked(Rewrite(e, at'))
    ensures Unchecked(WithState(e, s, at)) == Unchecked(WithState(e, s, at'))
  {
  }

  lemma BillUnchecked(commit: string -> string, pending: Entry, sources: seq<Entry>, r: Outcome, r': Outcome, b: NewBill, at: int, at': int)
    requires SameAnswer(r, r')
    ensures var k, k' := BillEntry(commit, pending, sources, r, b, at), BillEntry(commit, pending, sources, r', b, at');
      && (k.Dropped? <==> k'.Dropped?)
      && (k.Kept? && k'.Kept? ==> Unchecked(k.entry) == Unchecked(k'.entry))
  {
    hide Valid, BillSecrets, Base, Filled, Unchecked;
    SecretsUnchecked(commit, pending, r, r', b);
    var secrets := BillSecrets(commit, pending, r, b);
    BaseUnchecked(pending, sources, b, secrets, at, at');
    FilledUnchecked(Base(pending, sources, b, secrets, at), Base(pending, sources, b, secrets, at'), b);
  }

  lemma SecretsUnchecked(commit: string -> string, pending: Entry, r: Outcome, r': Outcome, b: NewBill)
    requires SameAnswer(r, r')
    ensures BillSecrets(commit, pending, r, b) == BillSecrets(commit, pending, r', b) && r.own == r'.own
  {
    hide KeptSecret;
    assert r.own == r.(at := 0).own && r'.own == r'.(at := 0).own;
    assert r.handOn == r.(at := 0).handOn && r'.handOn == r'.(at := 0).handOn;
  }

  lemma BaseUnchecked(pending: Entry, sources: seq<Entry>, b: NewBill, secrets: seq<Secret>, at: int, at': int)
    ensures Unchecked(Base(pending, sources, b, secrets, at)) == Unchecked(Base(pending, sources, b, secrets, at'))
    ensures Base(pending, sources, b, secrets, at).rev == Base(pending, sources, b, secrets, at').rev
  {
    hide SourceOf;
  }

  lemma FilledUnchecked(x: Entry, y: Entry, b: NewBill)
    requires Unchecked(x) == Unchecked(y)
    ensures Unchecked(Filled(x, b)) == Unchecked(Filled(y, b))
  {
    hide MapStatus;
    assert x == y.(checkedAt := x.checkedAt);
  }

  lemma {:induction false} KeptUnchecked(commit: string -> string, pending: Entry, sources: seq<Entry>, r: Outcome,
                                        r': Outcome, n: nat, at: int, at': int)
    requires SameAnswer(r, r') && r.bills == r'.bills && n <= |r.bills|
    requires KeptEntries(commit, pending, sources, r, n, at).Some? && KeptEntries(commit, pending, sources, r', n, at').Some?
    ensures UncheckedAll(KeptEntries(commit, pending, sources, r, n, at).value)
         == UncheckedAll(KeptEntries(commit, pending, sources, r', n, at').value)
    ensures Rewritten(commit, pending, sources, r, n, at) == Rewritten(commit, pending, sources, r', n, at')
  {
    hide BillEntry, Unchecked;
    if n > 0 {
      KeptUnchecked(commit, pending, sources, r, r', n - 1, at, at');
      BillUnchecked(commit, pending, sources, r, r', r.bills[n - 1], at, at');
      var es, es' := KeptEntries(commit, pending, sources, r, n - 1, at).value, KeptEntries(commit, pending, sources, r', n - 1, at').value;
      var k, k' := BillEntry(commit, pending, sources, r, r.bills[n - 1], at), BillEntry(commit, pending, sources, r', r.bills[n - 1], at');
      if k.Kept? {
        UncheckedJoin(es, [k.entry]);
        UncheckedJoin(es', [k'.entry]);
      }
    }
  }

  lemma UncheckedJoin(a: seq<Entry>, b: seq<Entry>)
    ensures UncheckedAll(a + b) == UncheckedAll(a) + UncheckedAll(b)
  {
    hide Unchecked;
  }

  lemma {:induction false} EndedUnchecked(sources: seq<Entry>, n: nat, names: set<string>, state: string, at: int, at': int)
    requires n <= |sources|
    ensures UncheckedAll(Ended(sources, n, names, state, at)) == UncheckedAll(Ended(sources, n, names, state, at'))
  {
    hide WithState, Unchecked;
    if n > 0 {
      EndedUnchecked(sources, n - 1, names, state, at, at');
      RewriteUnchecked(sources[n - 1], state, at, at');
      var s := sources[n - 1];
      UncheckedJoin(Ended(sources, n - 1, names, state, at), if s.w in names then [WithState(s, state, at)] else []);
      UncheckedJoin(Ended(sources, n - 1, names, state, at'), if s.w in names then [WithState(s, state, at')] else []);
    }
  }

  /** What two devices write for one answer differs in its check times only. */
  lemma AppliedUnchecked(commit: string -> string, all: seq<Entry>, pending: Entry, sources: seq<Entry>, r: Outcome,
                         r': Outcome, now: int, now': int)
    requires SameAnswer(r, r') && Settleable(all, pending, sources, r)
    requires Applied(commit, pending, sources, r, now).Writes? && Applied(commit, pending, sources, r', now').Writes?
    ensures var out, out' := Applied(commit, pending, sources, r, now), Applied(commit, pending, sources, r', now');
      UncheckedAll(out.writes + out.closing) == UncheckedAll(out'.writes + out'.closing)
  {
    hide Current, BillEntry, WithState, Ended, KeptEntries, Rewritten, MapStatus, Unchecked, UncheckedAll, Settleable;
    var out, out' := Applied(commit, pending, sources, r, now), Applied(commit, pending, sources, r', now');
    var at, at' := At(r, now), At(r', now');
    AnswersAgree(r, r');
    RewriteUnchecked(pending, DONE, at, at');
    if r.answer.Result? {
      KeptUnchecked(commit, pending, sources, r, r', |r.bills|, at, at');
      EndedUnchecked(sources, |sources|, NamesOf(sources) - Rewritten(commit, pending, sources, r, |r.bills|, at), SPENT, at, at');
    } else if r.answer.BillGone? {
      EndedUnchecked(sources, |sources|, {GoneOf(pending, r)}, Buried(r.answer.reason), at, at');
    }
    var done, done' := WithState(pending, DONE, at), WithState(pending, DONE, at');
    var ended, ended' := out.closing[1..], out'.closing[1..];
    assert out.closing == [done] + ended && out'.closing == [done'] + ended';
    UncheckedOne(done);
    UncheckedOne(done');
    UncheckedJoin([done], ended);
    UncheckedJoin([done'], ended');
    UncheckedJoin(out.writes, out.closing);
    UncheckedJoin(out'.writes, out'.closing);
  }

  lemma UncheckedOne(e: Entry)
    ensures UncheckedAll([e]) == [Unchecked(e)]
  {
  }

  lemma AnswersAgree(r: Outcome, r': Outcome)
    requires SameAnswer(r, r')
    ensures r.answer == r'.answer && r.bills == r'.bills && r.goneW == r'.goneW
  {
    var a, b := r.(at := 0), r'.(at := 0);
    assert a.answer == r.answer && b.answer == r'.answer && a.bills == r.bills && b.bills == r'.bills && a.goneW == r.goneW && b.goneW == r'.goneW;
  }

  // ------------------------------------------------------------ what it comes to

  /** Both devices' writes are in the log. */
  ghost predicate BothPublished(commit: string -> string, all: seq<Entry>, pending: Entry, sources: seq<Entry>, r: Outcome, now: int,
                                r': Outcome, now': int, log: seq<Entry>)
  {
    var out, out' := Applied(commit, pending, sources, r, now), Applied(commit, pending, sources, r', now');
    && SameAnswer(r, r') && Settleable(all, pending, sources, r) && out.Writes? && out'.Writes?
    && Publishes(all, (out.writes + out.closing) + (out'.writes + out'.closing), log) && RumorsIdentify(log)
  }

  lemma BothUnchecked(commit: string -> string, all: seq<Entry>, pending: Entry, sources: seq<Entry>, r: Outcome, now: int,
                      r': Outcome, now': int, log: seq<Entry>)
    requires BothPublished(commit, all, pending, sources, r, now, r', now', log)
    ensures var out := Applied(commit, pending, sources, r, now);
      var ws := out.writes + out.closing;
      && Advances(UncheckedAll(all), UncheckedAll(ws)) && Publishes(UncheckedAll(all), UncheckedAll(ws), UncheckedAll(log))
      && RumorsIdentify(UncheckedAll(log))
  {
    hide Applied, Settleable, Publishes, RumorsIdentify, Advances, CarriesOn, UncheckedAll, SameAnswer, Ending, Rewritten;
    var out, out' := Applied(commit, pending, sources, r, now), Applied(commit, pending, sources, r', now');
    AppliedParts(commit, all, pending, sources, r, now);
    AppliedUnchecked(commit, all, pending, sources, r, r', now, now');
    AdvancesUnchecked(all, out.writes + out.closing);
    PublishesUnchecked(all, out.writes + out.closing, out'.writes + out'.closing, log);
    RumorsIdentifyUnchecked(log);
  }

  /** Settled twice, every chain's total moves as it does when settled once. */
  lemma TwiceConserves(commit: string -> string, all: seq<Entry>, pending: Entry, sources: seq<Entry>, r: Outcome, now: int,
                       r': Outcome, now': int, log: seq<Entry>, chain: string)
    requires BothPublished(commit, all, pending, sources, r, now, r', now', log)
    ensures Total(log, chain) + Sum(Settled(pending, sources, r), Held(all, chain))
         == Total(all, chain) + LiveSum(Applied(commit, pending, sources, r, now).writes, chain)
  {
    hide Applied, Settleable, Publishes, RumorsIdentify, Advances, UncheckedAll, SameAnswer, Total, Sum, Settled, Held, LiveSum;
    var out := Applied(commit, pending, sources, r, now);
    var ws := out.writes + out.closing;
    BothUnchecked(commit, all, pending, sources, r, now, r', now', log);
    TotalMoves(UncheckedAll(all), UncheckedAll(ws), UncheckedAll(log), chain);
    TotalUnchecked(all, chain);
    TotalUnchecked(log, chain);
    LiveSumUnchecked(ws, chain);
    NamesUnchecked(ws);
    forall w | w in NamesOf(ws) ensures Held(UncheckedAll(all), chain)(w) == Held(all, chain)(w) { HeldUnchecked(all, chain, w); }
    SumAgree(NamesOf(ws), Held(UncheckedAll(all), chain), Held(all, chain));
    LiveSumJoins(out.writes, out.closing, chain);
    ClosingHoldsNothing(commit, all, pending, sources, r, now, chain);
    SettledHeld(commit, all, pending, sources, r, now, chain);
  }

  /** The write is current, but for its check time, and disputed exactly when it was sealed as two rumors. */
  lemma TwiceResolves(commit: string -> string, all: seq<Entry>, pending: Entry, sources: seq<Entry>, r: Outcome, now: int,
                      r': Outcome, now': int, log: seq<Entry>, x: Entry)
    requires BothPublished(commit, all, pending, sources, r, now, r', now', log)
    requires var out := Applied(commit, pending, sources, r, now); x in out.writes + out.closing
    ensures Current(log, x.w).Some? && SameContent(Unchecked(Current(log, x.w).value), Unchecked(x))
    ensures Disputed(log, x.w) <==> SealedTwice(UncheckedAll(log), Unchecked(x))
  {
    hide Applied, Settleable, Publishes, RumorsIdentify, Advances, UncheckedAll, SameAnswer, Current, SameContent, Disputed, SealedTwice, Unchecked;
    var out := Applied(commit, pending, sources, r, now);
    var ws := out.writes + out.closing;
    BothUnchecked(commit, all, pending, sources, r, now, r', now', log);
    UncheckedMembers(ws, x);
    UncheckedFields(x);
    WriteIsCurrent(UncheckedAll(all), UncheckedAll(ws), UncheckedAll(log), Unchecked(x));
    WriteDisputed(UncheckedAll(all), UncheckedAll(ws), UncheckedAll(log), Unchecked(x));
    CurrentUnchecked(log, x.w);
    DisputedUnchecked(log, x.w);
  }

  /** Settled twice, the call is done. */
  lemma TwiceDone(commit: string -> string, all: seq<Entry>, pending: Entry, sources: seq<Entry>, r: Outcome, now: int,
                  r': Outcome, now': int, log: seq<Entry>)
    requires BothPublished(commit, all, pending, sources, r, now, r', now', log)
    ensures Current(log, pending.w).Some? && CanRemoveSources(Current(log, pending.w).value)
  {
    hide Applied, Publishes, RumorsIdentify, Advances, SameAnswer, Current, SameContent, Disputed, SealedTwice, WithState, Ended, Ending, CarriesOn;
    AppliedParts(commit, all, pending, sources, r, now);
    var out, done := Applied(commit, pending, sources, r, now), WithState(pending, DONE, At(r, now));
    EndedKeeps(pending, DONE, At(r, now));
    assert done == out.closing[0] && done in out.writes + out.closing;
    TwiceResolves(commit, all, pending, sources, r, now, r', now', log, done);
    var e := Current(log, pending.w).value;
    ContentRanks(Unchecked(e), Unchecked(done));
  }
}
