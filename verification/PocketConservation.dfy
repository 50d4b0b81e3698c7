/**
  * The pocket after a call's writes (nipCP/pending.go:102-231 with
  * nipCP/resolve.go:24-55 and nipCP/balance.go:50-64): each source is accounted for
  * once, nothing else moves, and each chain's total changes by exactly the live
  * writes less the sources that were live.
  */
module PocketConservation {
  import opened Words
  import opened PocketEntry
  import opened PocketResolve
  import opened PocketBalance
  import opened PocketWrites

  // ------------------------------------------------------------- publishing

  /** Writes that move the log forward: one per w, each above what is current. */
  ghost predicate Advances(all: seq<Entry>, ws: seq<Entry>)
  {
    && (forall i, j :: 0 <= i < j < |ws| ==> ws[i].w != ws[j].w)
    && (forall x :: x in ws ==> x.Recognised() && Supersedes(all, x))
  }

  ghost predicate Supersedes(all: seq<Entry>, x: Entry)
  {
    Current(all, x.w).Some? ==> Current(all, x.w).value.rev < x.rev
  }

  /** e is a reading of one of the writes, sealed and unwrapped. */
  ghost predicate Sealed(e: Entry, ws: seq<Entry>) { exists x :: x in ws && SameContent(e, x) }

  ghost predicate Read(log: seq<Entry>, x: Entry) { exists e :: e in log && SameContent(e, x) }

  /** log holds all, and readings of every write, in any order and number. */
  ghost predicate Publishes(all: seq<Entry>, ws: seq<Entry>, log: seq<Entry>)
  {
    && (forall e :: e in all ==> e in log)
    && (forall e :: e in log ==> e in all || Sealed(e, ws))
    && (forall x :: x in ws ==> Read(log, x))
  }

  lemma ContentRanks(a: Entry, b: Entry)
    requires SameContent(a, b)
    ensures a.w == b.w && a.rev == b.rev && a.state == b.state && a.chain == b.chain && a.amount == b.amount
    ensures a.requestId == b.requestId
  {
    assert Content(a).w == a.w && Content(b).w == b.w;
    assert Content(a).rev == a.rev && Content(b).rev == b.rev;
    assert Content(a).state == a.state && Content(b).state == b.state;
    assert Content(a).chain == a.chain && Content(b).chain == b.chain;
    assert Content(a).amount == a.amount && Content(b).amount == b.amount;
    assert Content(a).requestId == a.requestId && Content(b).requestId == b.requestId;
  }

  lemma OneWritePerW(all: seq<Entry>, ws: seq<Entry>, x: Entry, y: Entry)
    requires Advances(all, ws) && x in ws && y in ws && x.w == y.w
    ensures x == y
  {
    hide Supersedes;
    var i :| 0 <= i < |ws| && ws[i] == x;
    var j :| 0 <= j < |ws| && ws[j] == y;
  }

  /** Entries already in the log lie below the writes. */
  lemma OldBelow(all: seq<Entry>, x: Entry, e: Entry)
    requires Supersedes(all, x) && e in all && Contends(e, x.w)
    ensures e.rev < x.rev
  {
    hide Current, Known, Beats;
    CurrentBest(all, x.w);
  }

  /** Every write is current once it is published. */
  lemma WriteIsCurrent(all: seq<Entry>, ws: seq<Entry>, log: seq<Entry>, x: Entry)
    requires Advances(all, ws) && Publishes(all, ws, log) && x in ws
    ensures Current(log, x.w).Some? && SameContent(Current(log, x.w).value, x)
  {
    hide Current, Known, Supersedes, SameContent, Beats, Advances;
    assert Read(log, x);
    var e :| e in log && SameContent(e, x);
    ContentRanks(e, x);
    assert Contends(e, x.w) by { WriteRecognised(all, ws, x); }
    CurrentBest(log, x.w);
    var r := Current(log, x.w).value;
    assert r.rev >= x.rev;
    WriteRecognised(all, ws, x);
    if r in all { OldBelow(all, x, r); }
    var y :| y in ws && SameContent(r, y);
    ContentRanks(r, y);
    OneWritePerW(all, ws, x, y);
  }

  lemma WriteRecognised(all: seq<Entry>, ws: seq<Entry>, x: Entry)
    requires Advances(all, ws) && x in ws
    ensures x.Recognised() && Supersedes(all, x)
  {
  }

  /** x was read from more than one rumor. */
  ghost predicate SealedTwice(log: seq<Entry>, x: Entry)
  {
    exists e, f :: e in log && f in log && SameContent(e, x) && SameContent(f, x) && e.rumorId != f.rumorId
  }

  /** A write is disputed exactly when it was sealed as more than one rumor. */
  lemma WriteDisputed(all: seq<Entry>, ws: seq<Entry>, log: seq<Entry>, x: Entry)
    requires Advances(all, ws) && Publishes(all, ws, log) && x in ws
    ensures Disputed(log, x.w) <==> SealedTwice(log, x)
  {
    hide Current, SameContent, Advances, Publishes, RumorsAt;
    WriteIsCurrent(all, ws, log, x);
    CurrentBest(log, x.w);
    var r := Current(log, x.w).value;
    ContentRanks(r, x);
    var ids := RumorsAt(log, x.w, x.rev);
    HasOwnRumor(log, x.w);
    forall id ensures id in ids <==> exists e :: e in log && SameContent(e, x) && e.rumorId == id {
      RivalsAreCopies(all, ws, log, x, id);
    }
    if SealedTwice(log, x) {
      var e, f :| e in log && f in log && SameContent(e, x) && SameContent(f, x) && e.rumorId != f.rumorId;
      TwoRivals(ids, e.rumorId, f.rumorId);
    } else {
      assert ids <= {r.rumorId};
      Larger(ids, {r.rumorId});
    }
  }

  lemma RivalsAreCopies(all: seq<Entry>, ws: seq<Entry>, log: seq<Entry>, x: Entry, id: string)
    requires Advances(all, ws) && Publishes(all, ws, log) && x in ws
    ensures id in RumorsAt(log, x.w, x.rev) <==> exists e :: e in log && SameContent(e, x) && e.rumorId == id
  {
    hide Known, SameContent, Advances, Publishes, Supersedes;
    WriteRecognised(all, ws, x);
    if id in RumorsAt(log, x.w, x.rev) {
      var e :| e in log && Contends(e, x.w) && e.rev == x.rev && e.rumorId == id;
      RivalIsCopy(all, ws, log, x, e);
    }
    forall e | e in log && SameContent(e, x) && e.rumorId == id ensures id in RumorsAt(log, x.w, x.rev) {
      ContentRanks(e, x);
      assert Contends(e, x.w);
    }
  }

  lemma RivalIsCopy(all: seq<Entry>, ws: seq<Entry>, log: seq<Entry>, x: Entry, e: Entry)
    requires Advances(all, ws) && Publishes(all, ws, log) && x in ws
    requires e in log && Contends(e, x.w) && e.rev == x.rev
    ensures SameContent(e, x)
  {
    hide Current, Known, Supersedes, SameContent, Beats, Advances;
    WriteRecognised(all, ws, x);
    if e in all { OldBelow(all, x, e); }
    var y :| y in ws && SameContent(e, y);
    ContentRanks(e, y);
    OneWritePerW(all, ws, x, y);
  }

  /** A w nothing was written for keeps its current entry, up to the wrap it was read from. */
  lemma UntouchedStays(all: seq<Entry>, ws: seq<Entry>, log: seq<Entry>, w: string)
    requires Publishes(all, ws, log) && RumorsIdentify(log) && forall x :: x in ws ==> x.w != w
    ensures SameWinner(Current(log, w), Current(all, w))
    ensures Current(log, w).Some? ==> SameUnwrapped(Current(log, w).value, Current(all, w).value)
    ensures Disputed(log, w) <==> Disputed(all, w)
  {
    hide Current, Known, SameContent, Outranks;
    CurrentBest(all, w);
    CurrentBest(log, w);
    forall e | e in log && Contends(e, w) ensures e in all { OldOnly(all, ws, log, w, e); }
    if Current(log, w).Some? {
      var r, q := Current(log, w).value, Current(all, w).value;
      OutranksTotal(r, q);
      assert RumorsAt(log, w, r.rev) == RumorsAt(all, w, r.rev);
    }
  }

  lemma OldOnly(all: seq<Entry>, ws: seq<Entry>, log: seq<Entry>, w: string, e: Entry)
    requires Publishes(all, ws, log) && (forall x :: x in ws ==> x.w != w) && e in log && e.w == w
    ensures e in all
  {
    hide SameContent;
    if e !in all {
      var x :| x in ws && SameContent(e, x);
      ContentRanks(e, x);
    }
  }

  // --------------------------------------------------------------- the totals

  /** Sums over a sequence of entries, of what a function gives their names. */
  ghost function SumOver(ws: seq<Entry>, f: string -> nat): nat
  {
    if ws == [] then 0 else SumOver(ws[..|ws| - 1], f) + f(ws[|ws| - 1].w)
  }

  /** What a sequence of entries holds on a chain. */
  ghost function LiveSum(ws: seq<Entry>, chain: string): nat
  {
    if ws == [] then 0 else LiveSum(ws[..|ws| - 1], chain) + LiveOn(ws[|ws| - 1], chain)
  }

  lemma {:induction false} SumOfNames(ws: seq<Entry>, f: string -> nat)
    requires forall i, j :: 0 <= i < j < |ws| ==> ws[i].w != ws[j].w
    ensures Sum(NamesOf(ws), f) == SumOver(ws, f)
  {
    hide Sum;
    if ws == [] {
      SumNothing(NamesOf(ws), f);
    } else {
      var n := |ws| - 1;
      var rest, x := ws[..n], ws[n];
      assert ws == rest + [x];
      SumOfNames(rest, f);
      SumTakeOut(NamesOf(ws), x.w, f);
      assert NamesOf(ws) - {x.w} == NamesOf(rest) by {
        forall y | y in rest ensures y.w != x.w { var i :| 0 <= i < n && rest[i] == y; }
      }
    }
  }

  lemma {:induction false} SumOverAgrees(ws: seq<Entry>, f: string -> nat, chain: string)
    requires forall x :: x in ws ==> f(x.w) == LiveOn(x, chain)
    ensures SumOver(ws, f) == LiveSum(ws, chain)
  {
    if ws != [] {
      var n := |ws| - 1;
      assert ws == ws[..n] + [ws[n]];
      SumOverAgrees(ws[..n], f, chain);
    }
  }

  lemma HoldersAfter(all: seq<Entry>, ws: seq<Entry>, log: seq<Entry>)
    requires Advances(all, ws) && Publishes(all, ws, log)
    ensures Holders(log) == Holders(all) + NamesOf(ws)
  {
    hide Supersedes, SameContent, Known;
    forall e | e in log && e.Recognised() ensures e.w in Holders(all) + NamesOf(ws) {
      if e !in all {
        var x :| x in ws && SameContent(e, x);
        ContentRanks(e, x);
      }
    }
    forall x | x in ws ensures x.w in Holders(log) {
      assert Read(log, x);
      var e :| e in log && SameContent(e, x);
      ContentRanks(e, x);
    }
  }

  /** Nothing outside the holders counts. */
  lemma TotalOver(all: seq<Entry>, chain: string, ws: set<string>)
    requires Holders(all) <= ws
    ensures Sum(ws, Held(all, chain)) == Total(all, chain)
  {
    hide Sum, Current, Holders;
    SumSplit(ws, Holders(all), Held(all, chain));
    forall w | w in ws - Holders(all) ensures Held(all, chain)(w) == 0 { HoldersCurrent(all, w); }
    SumNothing(ws - Holders(all), Held(all, chain));
  }

  /** Whatever is published, a chain's total moves by what the writes hold less what their names held. */
  lemma TotalMoves(all: seq<Entry>, ws: seq<Entry>, log: seq<Entry>, chain: string)
    requires Advances(all, ws) && Publishes(all, ws, log) && RumorsIdentify(log)
    ensures Total(log, chain) + Sum(NamesOf(ws), Held(all, chain)) == Total(all, chain) + LiveSum(ws, chain)
  {
    hide Sum, Current, Holders, Publishes, Supersedes, RumorsIdentify, SameContent, Known, NamesOf;
    var f, g, names, everyone := Held(all, chain), Held(log, chain), NamesOf(ws), Holders(log);
    HoldersAfter(all, ws, log);
    TotalOver(all, chain, everyone);
    SumSplit(everyone, names, f);
    SumSplit(everyone, names, g);
    forall w | w in everyone - names ensures f(w) == g(w) { RestAgrees(all, ws, log, chain, w); }
    SumAgree(everyone - names, f, g);
    forall x | x in ws ensures g(x.w) == LiveOn(x, chain) {
      WriteIsCurrent(all, ws, log, x);
      ContentRanks(Current(log, x.w).value, x);
    }
    SumOfNames(ws, g);
    SumOverAgrees(ws, g, chain);
  }

  lemma RestAgrees(all: seq<Entry>, ws: seq<Entry>, log: seq<Entry>, chain: string, w: string)
    requires Publishes(all, ws, log) && RumorsIdentify(log) && w !in NamesOf(ws)
    ensures Held(all, chain)(w) == Held(log, chain)(w)
  {
    hide Current, Publishes, RumorsIdentify, Disputed;
    UntouchedStays(all, ws, log, w);
    if Current(log, w).Some? {
      var r, q := Current(log, w).value, Current(all, w).value;
      UnwrappedFields(r, q);
    }
  }

  // --------------------------------------------------------- a call's writes

  /**
    * The call and its sources are current, one entry per w, with revs left; the
    * bills of the result have distinct w, new ones where they are not in place.
    */
  ghost predicate Settleable(all: seq<Entry>, pending: Entry, sources: seq<Entry>, r: Outcome)
  {
    && Open(pending) && Current(all, pending.w) == Some(pending) && pending.rev < MAX_U64
    && (forall i :: 0 <= i < |sources| ==> SourceReady(all, pending, sources[i]))
    && (forall i, j :: 0 <= i < j < |sources| ==> sources[i].w != sources[j].w)
    && (forall i, j :: 0 <= i < j < |r.bills| ==> r.bills[i].w != r.bills[j].w)
    && (forall b :: b in r.bills && !b.inPlace ==> Current(all, b.w).None?)
  }

  ghost predicate SourceReady(all: seq<Entry>, pending: Entry, s: Entry)
  {
    Current(all, s.w) == Some(s) && s.rev < MAX_U64 && s.w != pending.w
  }

  /** A write is what a bill that is kept says. */
  lemma {:induction false} KeptEntriesFrom(commit: string -> string, pending: Entry, sources: seq<Entry>, r: Outcome, n: nat, at: int)
    requires n <= |r.bills| && KeptEntries(commit, pending, sources, r, n, at).Some?
    requires forall i, j :: 0 <= i < j < |r.bills| ==> r.bills[i].w != r.bills[j].w
    ensures var es := KeptEntries(commit, pending, sources, r, n, at).value;
      && (forall x :: x in es ==> FromBill(commit, pending, sources, r, n, at, x))
      && (forall i, j :: 0 <= i < j < |es| ==> es[i].w != es[j].w)
  {
    hide BillEntry, FromBill;
    if n > 0 {
      KeptEntriesFrom(commit, pending, sources, r, n - 1, at);
      var es := KeptEntries(commit, pending, sources, r, n - 1, at).value;
      var b := r.bills[n - 1];
      var k := BillEntry(commit, pending, sources, r, b, at);
      FromBillGrows(commit, pending, sources, r, n, at);
      if k.Kept? {
        KeptFacts(commit, pending, sources, r, b, at);
        forall x | x in es ensures x.w != b.w { NotThisBill(commit, pending, sources, r, n - 1, at, x); }
      }
    }
  }

  ghost predicate FromBill(commit: string -> string, pending: Entry, sources: seq<Entry>, r: Outcome, n: nat, at: int, x: Entry)
    requires n <= |r.bills|
  {
    exists i :: 0 <= i < n && BillEntry(commit, pending, sources, r, r.bills[i], at) == Kept(x)
  }

  lemma FromBillGrows(commit: string -> string, pending: Entry, sources: seq<Entry>, r: Outcome, n: nat, at: int)
    requires 0 < n <= |r.bills|
    ensures forall x :: FromBill(commit, pending, sources, r, n - 1, at, x) ==> FromBill(commit, pending, sources, r, n, at, x)
    ensures var k := BillEntry(commit, pending, sources, r, r.bills[n - 1], at);
      k.Kept? ==> FromBill(commit, pending, sources, r, n, at, k.entry)
  {
    hide BillEntry;
  }

  lemma {:induction false} KeptIsWritten(commit: string -> string, pending: Entry, sources: seq<Entry>, r: Outcome, n: nat, at: int, i: nat)
    requires i < n <= |r.bills| && KeptEntries(commit, pending, sources, r, n, at).Some?
    requires BillEntry(commit, pending, sources, r, r.bills[i], at).Kept?
    ensures BillEntry(commit, pending, sources, r, r.bills[i], at).entry in KeptEntries(commit, pending, sources, r, n, at).value
    decreases n
  {
    hide BillEntry;
    if i < n - 1 { KeptIsWritten(commit, pending, sources, r, n - 1, at, i); }
  }

  lemma NotThisBill(commit: string -> string, pending: Entry, sources: seq<Entry>, r: Outcome, n: nat, at: int, x: Entry)
    requires n < |r.bills| && FromBill(commit, pending, sources, r, n, at, x)
    requires forall i, j :: 0 <= i < j < |r.bills| ==> r.bills[i].w != r.bills[j].w
    ensures x.w != r.bills[n].w
  {
    hide BillEntry;
    var i :| 0 <= i < n && BillEntry(commit, pending, sources, r, r.bills[i], at) == Kept(x);
    KeptFacts(commit, pending, sources, r, r.bills[i], at);
  }

  lemma {:induction false} RewrittenNames(commit: string -> string, pending: Entry, sources: seq<Entry>, r: Outcome, n: nat,
                                        at: int, w: string)
    requires n <= |r.bills|
    ensures w in Rewritten(commit, pending, sources, r, n, at) <==>
      exists i :: 0 <= i < n && BillEntry(commit, pending, sources, r, r.bills[i], at).Kept? && r.bills[i].inPlace && r.bills[i].w == w
  {
    hide BillEntry;
    if n > 0 { RewrittenNames(commit, pending, sources, r, n - 1, at, w); }
  }

  ghost predicate EndOf(sources: seq<Entry>, n: nat, names: set<string>, state: string, at: int, x: Entry)
    requires n <= |sources|
  {
    exists i :: 0 <= i < n && sources[i].w in names && x == WithState(sources[i], state, at)
  }

  /** Exactly the named sources are ended, each once. */
  lemma {:induction false} EndedFrom(sources: seq<Entry>, n: nat, names: set<string>, state: string, at: int)
    requires n <= |sources| && forall i, j :: 0 <= i < j < |sources| ==> sources[i].w != sources[j].w
    ensures var es := Ended(sources, n, names, state, at);
      && (forall x :: x in es <==> EndOf(sources, n, names, state, at, x))
      && (forall i, j :: 0 <= i < j < |es| ==> es[i].w != es[j].w)
  {
    hide WithState;
    if n > 0 {
      EndedFrom(sources, n - 1, names, state, at);
      var s := sources[n - 1];
      forall x | EndOf(sources, n - 1, names, state, at, x) ensures x.w != s.w {
        var i :| 0 <= i < n - 1 && x == WithState(sources[i], state, at);
        EndedKeeps(sources[i], state, at);
      }
      EndedKeeps(s, state, at);
      forall x | EndOf(sources, n, names, state, at, x) ensures x in Ended(sources, n, names, state, at) {
        var i :| 0 <= i < n && sources[i].w in names && x == WithState(sources[i], state, at);
        if i < n - 1 { assert EndOf(sources, n - 1, names, state, at, x); }
      }
    }
  }

  lemma EndedKeeps(s: Entry, state: string, at: int)
    ensures var x := WithState(s, state, at); x.w == s.w && x.state == state && (s.rev < MAX_U64 ==> x.rev == s.rev + 1)
    ensures WithState(s, state, at).chain == s.chain && WithState(s, state, at).requestId == s.requestId
  {
  }

  /** A kept bill either carries on the source of its w, or is new to the log. */
  ghost predicate CarriesOn(all: seq<Entry>, sources: seq<Entry>, rewritten: set<string>, x: Entry)
  {
    && Valid(x)
    && if x.w in rewritten then exists s :: s in sources && s.w == x.w && x.rev == s.rev + 1
       else Current(all, x.w).None?
  }

  lemma KeptCarriesOn(commit: string -> string, all: seq<Entry>, pending: Entry, sources: seq<Entry>, r: Outcome, at: int, x: Entry)
    requires Settleable(all, pending, sources, r) && FromBill(commit, pending, sources, r, |r.bills|, at, x)
    ensures CarriesOn(all, sources, Rewritten(commit, pending, sources, r, |r.bills|, at), x)
  {
    hide BillEntry, Current, Valid, Rewritten, Open;
    var i :| 0 <= i < |r.bills| && BillEntry(commit, pending, sources, r, r.bills[i], at) == Kept(x);
    var b := r.bills[i];
    KeptFacts(commit, pending, sources, r, b, at);
    RewrittenNames(commit, pending, sources, r, |r.bills|, at, x.w);
    assert forall j :: 0 <= j < |r.bills| && r.bills[j].w == b.w ==> j == i;
    if b.inPlace {
      var s :| s in sources && s.w == b.w && x.rev == Wrap64(s.rev + 1);
      assert SourceReady(all, pending, s);
    }
  }

  /** The parts of a settlement: what is kept, the call done, the sources that end. */
  lemma Assembled(all: seq<Entry>, pending: Entry, sources: seq<Entry>, kept: seq<Entry>, rewritten: set<string>,
                  names: set<string>, state: string, at: int, r: Outcome)
    requires Settleable(all, pending, sources, r) && Known(state) && names !! rewritten
    requires forall x :: x in kept ==> CarriesOn(all, sources, rewritten, x)
    requires forall i, j :: 0 <= i < j < |kept| ==> kept[i].w != kept[j].w
    ensures Advances(all, kept + ([WithState(pending, DONE, at)] + Ended(sources, |sources|, names, state, at)))
  {
    hide Current, Valid, WithState, Ended, Open;
    var done, ended := WithState(pending, DONE, at), Ended(sources, |sources|, names, state, at);
    EndedFrom(sources, |sources|, names, state, at);
    EndedKeeps(pending, DONE, at);
    forall x | x in ended ensures x.Recognised() && Supersedes(all, x) && x.w != pending.w && x.w in names && Current(all, x.w).Some? {
      EndSupersedes(all, pending, sources, names, state, at, x);
    }
    forall x | x in kept ensures x.Recognised() && Supersedes(all, x) && x.w != pending.w && (x.w in rewritten || Current(all, x.w).None?) {
      CarrySupersedes(all, pending, sources, rewritten, x, r);
    }
  }

  lemma EndSupersedes(all: seq<Entry>, pending: Entry, sources: seq<Entry>, names: set<string>, state: string, at: int, x: Entry)
    requires Known(state) && EndOf(sources, |sources|, names, state, at, x)
    requires forall i :: 0 <= i < |sources| ==> SourceReady(all, pending, sources[i])
    ensures x.Recognised() && Supersedes(all, x) && x.w != pending.w && x.w in names && Current(all, x.w).Some?
  {
    hide Current, WithState, Known;
    var i :| 0 <= i < |sources| && sources[i].w in names && x == WithState(sources[i], state, at);
    EndedKeeps(sources[i], state, at);
    assert SourceReady(all, pending, sources[i]);
  }

  lemma CarrySupersedes(all: seq<Entry>, pending: Entry, sources: seq<Entry>, rewritten: set<string>, x: Entry, r: Outcome)
    requires Settleable(all, pending, sources, r) && CarriesOn(all, sources, rewritten, x)
    ensures x.Recognised() && Supersedes(all, x) && x.w != pending.w && (x.w in rewritten || Current(all, x.w).None?)
  {
    hide Current, Open;
    if x.w in rewritten {
      var s :| s in sources && s.w == x.w && x.rev == s.rev + 1;
      assert SourceReady(all, pending, s);
    }
  }

  /** What a settlement does to the sources, by name. */
  ghost function Ending(commit: string -> string, pending: Entry, sources: seq<Entry>, r: Outcome, at: int): (set<string>, string)
  {
    match r.answer
    case BillGone(reason) => ({GoneOf(pending, r)}, Buried(reason))
    case Result => (NamesOf(sources) - Rewritten(commit, pending, sources, r, |r.bills|, at), SPENT)
    case _ => ({}, SPENT)
  }

  lemma NothingEnded(sources: seq<Entry>, n: nat, state: string, at: int)
    requires n <= |sources|
    ensures Ended(sources, n, {}, state, at) == []
  {
  }

  /** The writes of a settlement, taken apart. */
  lemma AppliedParts(commit: string -> string, all: seq<Entry>, pending: Entry, sources: seq<Entry>, r: Outcome, now: int)
    requires Settleable(all, pending, sources, r) && Applied(commit, pending, sources, r, now).Writes?
    ensures var out, at := Applied(commit, pending, sources, r, now), At(r, now);
      var (names, state) := Ending(commit, pending, sources, r, at);
      && out.closing == [WithState(pending, DONE, at)] + Ended(sources, |sources|, names, state, at)
      && Advances(all, out.writes + out.closing)
      && (forall x :: x in out.writes ==> CarriesOn(all, sources, Rewritten(commit, pending, sources, r, |r.bills|, at), x))
      && (r.answer.Result? ==> forall w :: w in Rewritten(commit, pending, sources, r, |r.bills|, at) ==> w in NamesOf(out.writes))
      && (!r.answer.Result? ==> out.writes == [])
  {
    hide BillEntry, Current, WithState, Ended, KeptEntries, Rewritten, Advances, CarriesOn, MapStatus;
    var out, at := Applied(commit, pending, sources, r, now), At(r, now);
    var (names, state) := Ending(commit, pending, sources, r, at);
    NothingEnded(sources, |sources|, SPENT, at);
    if r.answer.Result? {
      ResultParts(commit, all, pending, sources, r, at);
      Assembled(all, pending, sources, out.writes, Rewritten(commit, pending, sources, r, |r.bills|, at), names, state, at, r);
    } else {
      EndingKnown(r.answer);
      Assembled(all, pending, sources, [], {}, names, state, at, r);
      assert out.writes == [];
      assert [WithState(pending, DONE, at)] + [] == [WithState(pending, DONE, at)];
    }
  }

  lemma EndingKnown(a: Answer)
    ensures Known(SPENT) && (a.BillGone? ==> Known(Buried(a.reason)))
  {
  }

  lemma ResultParts(commit: string -> string, all: seq<Entry>, pending: Entry, sources: seq<Entry>, r: Outcome, at: int)
    requires Settleable(all, pending, sources, r) && KeptEntries(commit, pending, sources, r, |r.bills|, at).Some?
    ensures var es, re := KeptEntries(commit, pending, sources, r, |r.bills|, at).value, Rewritten(commit, pending, sources, r, |r.bills|, at);
      && (forall x :: x in es ==> CarriesOn(all, sources, re, x))
      && (forall i, j :: 0 <= i < j < |es| ==> es[i].w != es[j].w)
      && (forall w :: w in re ==> w in NamesOf(es))
  {
    hide BillEntry, Current, KeptEntries, Rewritten, CarriesOn;
    KeptEntriesFrom(commit, pending, sources, r, |r.bills|, at);
    var es, re := KeptEntries(commit, pending, sources, r, |r.bills|, at).value, Rewritten(commit, pending, sources, r, |r.bills|, at);
    forall x | x in es ensures CarriesOn(all, sources, re, x) { KeptCarriesOn(commit, all, pending, sources, r, at, x); }
    forall w | w in re ensures w in NamesOf(es) {
      RewrittenNames(commit, pending, sources, r, |r.bills|, at, w);
      var i :| 0 <= i < |r.bills| && BillEntry(commit, pending, sources, r, r.bills[i], at).Kept? && r.bills[i].w == w;
      KeptFacts(commit, pending, sources, r, r.bills[i], at);
      KeptIsWritten(commit, pending, sources, r, |r.bills|, at, i);
    }
  }

  // ---------------------------------------------------------- what it comes to

  /** Once everything is published: the call is done, and its sources may be removed. */
  lemma CallIsDone(commit: string -> string, all: seq<Entry>, pending: Entry, sources: seq<Entry>, r: Outcome, now: int, log: seq<Entry>)
    requires Settleable(all, pending, sources, r) && Applied(commit, pending, sources, r, now).Writes?
    requires var out := Applied(commit, pending, sources, r, now); Publishes(all, out.writes + out.closing, log)
    ensures Current(log, pending.w).Some? && CanRemoveSources(Current(log, pending.w).value)
  {
    hide Current, Applied, WithState, Ended, Publishes, SameContent, Advances, CarriesOn, Ending;
    AppliedParts(commit, all, pending, sources, r, now);
    var out, done := Applied(commit, pending, sources, r, now), WithState(pending, DONE, At(r, now));
    EndedKeeps(pending, DONE, At(r, now));
    assert done == out.closing[0] && done in out.writes + out.closing;
    WriteIsCurrent(all, out.writes + out.closing, log, done);
    ContentRanks(Current(log, pending.w).value, done);
  }

  /**
    * Every source is settled once: carried on by one write at the next rev, or
    * ended at the next rev, or left as it was.
    */
  lemma SourceSettled(commit: string -> string, all: seq<Entry>, pending: Entry, sources: seq<Entry>, r: Outcome, now: int,
                      log: seq<Entry>, s: Entry)
    requires Settleable(all, pending, sources, r) && Applied(commit, pending, sources, r, now).Writes? && s in sources
    requires var out := Applied(commit, pending, sources, r, now); Publishes(all, out.writes + out.closing, log)
    requires RumorsIdentify(log)
    ensures Current(log, s.w).Some?
    ensures var x, out, at := Current(log, s.w).value, Applied(commit, pending, sources, r, now), At(r, now);
      match r.answer
      case Result =>
        if s.w in NamesOf(out.writes) then x.rev == s.rev + 1 && exists y :: y in out.writes && SameContent(x, y)
        else SameContent(x, WithState(s, SPENT, at))
      case BillGone(reason) =>
        if s.w == (if r.goneW == "" then pending.target else r.goneW) then SameContent(x, WithState(s, Buried(reason), at))
        else SameUnwrapped(x, s)
      case _ => SameUnwrapped(x, s)
  {
    hide Current, Applied, WithState, Ended, Publishes, SameContent, Advances, Rewritten, RumorsIdentify, MapStatus, CarriesOn;
    AppliedParts(commit, all, pending, sources, r, now);
    var out, at := Applied(commit, pending, sources, r, now), At(r, now);
    var (names, state) := Ending(commit, pending, sources, r, at);
    var ws := out.writes + out.closing;
    assert SourceReady(all, pending, s);
    EndedFrom(sources, |sources|, names, state, at);
    if s.w in names {
      assert EndOf(sources, |sources|, names, state, at, WithState(s, state, at));
      EndedKeeps(s, state, at);
      WriteIsCurrent(all, ws, log, WithState(s, state, at));
      WritesAvoid(all, ws, out.writes, out.closing, WithState(s, state, at));
    } else if s.w in NamesOf(out.writes) {
      var y :| y in out.writes && y.w == s.w;
      WriteIsCurrent(all, ws, log, y);
      ContentRanks(Current(log, s.w).value, y);
      CarriedRev(all, pending, sources, Rewritten(commit, pending, sources, r, |r.bills|, at), y, s, r);
    } else {
      EndedKeeps(pending, DONE, at);
      forall x | x in Ended(sources, |sources|, names, state, at) ensures x.w != s.w {
        EndNamed(sources, names, state, at, x);
      }
      UntouchedStays(all, ws, log, s.w);
    }
  }

  lemma EndNamed(sources: seq<Entry>, names: set<string>, state: string, at: int, x: Entry)
    requires EndOf(sources, |sources|, names, state, at, x)
    ensures x.w in names
  {
    hide WithState;
    var i :| 0 <= i < |sources| && sources[i].w in names && x == WithState(sources[i], state, at);
    EndedKeeps(sources[i], state, at);
  }

  lemma WritesAvoid(all: seq<Entry>, ws: seq<Entry>, kept: seq<Entry>, closing: seq<Entry>, x: Entry)
    requires ws == kept + closing && Advances(all, ws) && x in closing
    ensures x.w !in NamesOf(kept)
  {
    hide Supersedes;
    var j :| 0 <= j < |closing| && closing[j] == x;
    forall y | y in kept ensures y.w != x.w {
      var i :| 0 <= i < |kept| && kept[i] == y;
      assert ws[i] == y && ws[|kept| + j] == x;
    }
  }

  lemma CarriedRev(all: seq<Entry>, pending: Entry, sources: seq<Entry>, rewritten: set<string>, y: Entry, s: Entry, r: Outcome)
    requires Settleable(all, pending, sources, r) && CarriesOn(all, sources, rewritten, y) && s in sources && s.w == y.w
    ensures y.rev == s.rev + 1
  {
    hide Current, Open;
    assert SourceReady(all, pending, s);
    var t :| t in sources && t.w == y.w && y.rev == t.rev + 1;
    assert SourceReady(all, pending, t);
  }

  /** Nothing but the call, its sources and the bills it made is touched. */
  lemma OthersStay(commit: string -> string, all: seq<Entry>, pending: Entry, sources: seq<Entry>, r: Outcome, now: int,
                   log: seq<Entry>, w: string)
    requires Settleable(all, pending, sources, r) && Applied(commit, pending, sources, r, now).Writes?
    requires var out := Applied(commit, pending, sources, r, now); Publishes(all, out.writes + out.closing, log)
    requires RumorsIdentify(log)
    requires w != pending.w && w !in NamesOf(sources) && (forall b :: b in r.bills ==> b.w != w)
    ensures SameWinner(Current(log, w), Current(all, w)) && (Disputed(log, w) <==> Disputed(all, w))
    ensures Current(log, w).Some? ==> SameUnwrapped(Current(log, w).value, Current(all, w).value)
  {
    hide Current, Applied, WithState, Ended, Publishes, SameContent, Advances, Rewritten, RumorsIdentify, CarriesOn, Disputed, Ending, SameWinner;
    AppliedParts(commit, all, pending, sources, r, now);
    var out, at := Applied(commit, pending, sources, r, now), At(r, now);
    var (names, state) := Ending(commit, pending, sources, r, at);
    EndedKeeps(pending, DONE, at);
    EndedFrom(sources, |sources|, names, state, at);
    forall x | x in Ended(sources, |sources|, names, state, at) ensures x.w != w {
      var i :| 0 <= i < |sources| && x == WithState(sources[i], state, at);
      EndedKeeps(sources[i], state, at);
    }
    forall x | x in out.writes ensures x.w != w { WriteFromBill(commit, pending, sources, r, now, x); }
    UntouchedStays(all, out.writes + out.closing, log, w);
  }

  lemma WriteFromBill(commit: string -> string, pending: Entry, sources: seq<Entry>, r: Outcome, now: int, x: Entry)
    requires Applied(commit, pending, sources, r, now).Writes? && x in Applied(commit, pending, sources, r, now).writes
    requires forall i, j :: 0 <= i < j < |r.bills| ==> r.bills[i].w != r.bills[j].w
    ensures exists b :: b in r.bills && b.w == x.w
  {
    hide BillEntry, WithState, Ended, KeptEntries, Rewritten;
    var at := At(r, now);
    KeptEntriesFrom(commit, pending, sources, r, |r.bills|, at);
    var i :| 0 <= i < |r.bills| && BillEntry(commit, pending, sources, r, r.bills[i], at) == Kept(x);
    KeptFacts(commit, pending, sources, r, r.bills[i], at);
  }

  // ------------------------------------------------------------- conservation

  lemma {:induction false} LiveSumJoins(a: seq<Entry>, b: seq<Entry>, chain: string)
    ensures LiveSum(a + b, chain) == LiveSum(a, chain) + LiveSum(b, chain)
  {
    if b == [] {
      assert a + b == a;
    } else {
      var n := |b| - 1;
      assert (a + b)[..|a + b| - 1] == a + b[..n];
      LiveSumJoins(a, b[..n], chain);
    }
  }

  lemma {:induction false} NothingLive(ws: seq<Entry>, chain: string)
    requires forall x :: x in ws ==> x.state != LIVE
    ensures LiveSum(ws, chain) == 0
  {
    if ws != [] { NothingLive(ws[..|ws| - 1], chain); }
  }

  /** Closing writes hold nothing. */
  lemma ClosingHoldsNothing(commit: string -> string, all: seq<Entry>, pending: Entry, sources: seq<Entry>, r: Outcome,
                            now: int, chain: string)
    requires Settleable(all, pending, sources, r) && Applied(commit, pending, sources, r, now).Writes?
    ensures LiveSum(Applied(commit, pending, sources, r, now).closing, chain) == 0
  {
    hide Current, Applied, WithState, Ended, Advances, Rewritten, CarriesOn;
    AppliedParts(commit, all, pending, sources, r, now);
    var out, at := Applied(commit, pending, sources, r, now), At(r, now);
    var (names, state) := Ending(commit, pending, sources, r, at);
    EndedKeeps(pending, DONE, at);
    EndedFrom(sources, |sources|, names, state, at);
    forall x | x in Ended(sources, |sources|, names, state, at) ensures x.state != LIVE {
      var i :| 0 <= i < |sources| && x == WithState(sources[i], state, at);
      EndedKeeps(sources[i], state, at);
    }
    NothingLive(out.closing, chain);
  }

  /** The sources a settlement ends or carries on. */
  ghost function Settled(pending: Entry, sources: seq<Entry>, r: Outcome): set<string>
  {
    match r.answer
    case Result => NamesOf(sources)
    case BillGone(_) => NamesOf(sources) * {GoneOf(pending, r)}
    case _ => {}
  }

  /** The settled sources are all that the names written to held before. */
  lemma SettledHeld(commit: string -> string, all: seq<Entry>, pending: Entry, sources: seq<Entry>, r: Outcome, now: int, chain: string)
    requires Settleable(all, pending, sources, r) && Applied(commit, pending, sources, r, now).Writes?
    ensures var out := Applied(commit, pending, sources, r, now);
      Sum(NamesOf(out.writes + out.closing), Held(all, chain)) == Sum(Settled(pending, sources, r), Held(all, chain))
  {
    hide Current, Applied, Sum;
    var out := Applied(commit, pending, sources, r, now);
    var names, settled, f := NamesOf(out.writes + out.closing), Settled(pending, sources, r), Held(all, chain);
    SettledNames(commit, all, pending, sources, r, now);
    SumSplit(names, settled, f);
    forall w | w in names - settled ensures f(w) == 0 {}
    SumNothing(names - settled, f);
  }

  lemma SettledNames(commit: string -> string, all: seq<Entry>, pending: Entry, sources: seq<Entry>, r: Outcome, now: int)
    requires Settleable(all, pending, sources, r) && Applied(commit, pending, sources, r, now).Writes?
    ensures var out := Applied(commit, pending, sources, r, now);
      var names := NamesOf(out.writes + out.closing);
      && Settled(pending, sources, r) <= names
      && (forall w :: w in names && w !in Settled(pending, sources, r) ==> w == pending.w || Current(all, w).None?)
  {
    hide Current, Applied, WithState, Ended, Advances, Rewritten, Valid, MapStatus;
    AppliedParts(commit, all, pending, sources, r, now);
    var out, at := Applied(commit, pending, sources, r, now), At(r, now);
    var (ended, state) := Ending(commit, pending, sources, r, at);
    EndedKeeps(pending, DONE, at);
    EndedFrom(sources, |sources|, ended, state, at);
    forall w | w in Settled(pending, sources, r) ensures w in NamesOf(out.writes + out.closing) {
      var s :| s in sources && s.w == w;
      if w in ended {
        assert EndOf(sources, |sources|, ended, state, at, WithState(s, state, at));
        EndedKeeps(s, state, at);
      } else {
        var y :| y in out.writes && y.w == w;
      }
    }
    forall x | x in Ended(sources, |sources|, ended, state, at) ensures x.w in Settled(pending, sources, r) {
      var i :| 0 <= i < |sources| && sources[i].w in ended && x == WithState(sources[i], state, at);
      EndedKeeps(sources[i], state, at);
    }
  }

  /**
    * Conservation: on every chain, the new total and what the settled sources held
    * are the old total and what the kept bills hold.
    */
  lemma Conservation(commit: string -> string, all: seq<Entry>, pending: Entry, sources: seq<Entry>, r: Outcome, now: int,
                     log: seq<Entry>, chain: string)
    requires Settleable(all, pending, sources, r) && Applied(commit, pending, sources, r, now).Writes?
    requires var out := Applied(commit, pending, sources, r, now); Publishes(all, out.writes + out.closing, log)
    requires RumorsIdentify(log)
    ensures Total(log, chain) + Sum(Settled(pending, sources, r), Held(all, chain))
         == Total(all, chain) + LiveSum(Applied(commit, pending, sources, r, now).writes, chain)
  {
    hide Current, Applied, Sum, Total, Publishes, Advances, RumorsIdentify, Settled;
    AppliedParts(commit, all, pending, sources, r, now);
    var out := Applied(commit, pending, sources, r, now);
    TotalMoves(all, out.writes + out.closing, log, chain);
    LiveSumJoins(out.writes, out.closing, chain);
    ClosingHoldsNothing(commit, all, pending, sources, r, now, chain);
    SettledHeld(commit, all, pending, sources, r, now, chain);
  }

  /** For a result: live writes less live sources, and so are the balances while neither is capped. */
  lemma ResultConserves(commit: string -> string, all: seq<Entry>, pending: Entry, sources: seq<Entry>, r: Outcome,
                        now: int, log: seq<Entry>, chain: string)
    requires Settleable(all, pending, sources, r) && Applied(commit, pending, sources, r, now).Writes? && r.answer.Result?
    requires var out := Applied(commit, pending, sources, r, now); Publishes(all, out.writes + out.closing, log)
    requires RumorsIdentify(log)
    ensures var writes := Applied(commit, pending, sources, r, now).writes;
      && Total(log, chain) + LiveSum(sources, chain) == Total(all, chain) + LiveSum(writes, chain)
      && (Total(log, chain) <= MAX_U64 && Total(all, chain) <= MAX_U64 ==>
            Capped(Total(log, chain)) + LiveSum(sources, chain) == Capped(Total(all, chain)) + LiveSum(writes, chain))
  {
    hide Current, Applied, Sum, Total, Publishes, RumorsIdentify;
    Conservation(commit, all, pending, sources, r, now, log, chain);
    SumOfNames(sources, Held(all, chain));
    forall s | s in sources ensures Held(all, chain)(s.w) == LiveOn(s, chain) { assert SourceReady(all, pending, s); }
    SumOverAgrees(sources, Held(all, chain), chain);
  }

  // ------------------------------------------------------------ interruptions

  /**
    * Part of a settlement published, the writes before the close. Until the call is
    * done its sources may not be removed; once it is, every bill kept is in the log.
    */
  lemma InterruptedIsSafe(commit: string -> string, all: seq<Entry>, pending: Entry, sources: seq<Entry>, r: Outcome,
                          now: int, part: seq<Entry>, log: seq<Entry>)
    requires Settleable(all, pending, sources, r) && Applied(commit, pending, sources, r, now).Writes?
    requires var out := Applied(commit, pending, sources, r, now);
      && (forall x :: x in part ==> x in out.writes + out.closing)
      && (forall i, j :: 0 <= i < j < |part| ==> part[i] != part[j])
      && ((exists x :: x in out.closing && x in part) ==> forall x :: x in out.writes ==> x in part)
    requires Publishes(all, part, log) && RumorsIdentify(log)
    ensures Current(log, pending.w).Some?
    ensures CanRemoveSources(Current(log, pending.w).value) ==>
      forall x :: x in Applied(commit, pending, sources, r, now).writes ==> Current(log, x.w).Some? && SameContent(Current(log, x.w).value, x)
    ensures !CanRemoveSources(Current(log, pending.w).value) ==> Open(Current(log, pending.w).value)
  {
    hide Current, Applied, WithState, Ended, Publishes, SameContent, RumorsIdentify, CarriesOn, Ending, Supersedes, Known;
    AppliedParts(commit, all, pending, sources, r, now);
    var out, done := Applied(commit, pending, sources, r, now), WithState(pending, DONE, At(r, now));
    var ws := out.writes + out.closing;
    EndedKeeps(pending, DONE, At(r, now));
    assert out.closing[0] == done;
    PartAdvances(all, ws, part);
    if done in part {
      WriteIsCurrent(all, part, log, done);
      ContentRanks(Current(log, pending.w).value, done);
      forall x | x in out.writes ensures Current(log, x.w).Some? && SameContent(Current(log, x.w).value, x) {
        WriteIsCurrent(all, part, log, x);
      }
    } else {
      forall x | x in part ensures x.w != pending.w {
        if x.w == pending.w { OneWritePerW(all, ws, x, done); }
      }
      StillOpen(all, part, log, pending);
    }
  }

  lemma StillOpen(all: seq<Entry>, part: seq<Entry>, log: seq<Entry>, pending: Entry)
    requires Current(all, pending.w) == Some(pending) && Open(pending)
    requires Publishes(all, part, log) && RumorsIdentify(log) && forall x :: x in part ==> x.w != pending.w
    ensures Current(log, pending.w).Some? && Open(Current(log, pending.w).value)
  {
    hide Current, Publishes, RumorsIdentify, Disputed;
    UntouchedStays(all, part, log, pending.w);
    var r := Current(log, pending.w).value;
    UnwrappedFields(r, pending);
  }

  lemma PartAdvances(all: seq<Entry>, ws: seq<Entry>, part: seq<Entry>)
    requires Advances(all, ws) && (forall x :: x in part ==> x in ws)
    requires forall i, j :: 0 <= i < j < |part| ==> part[i] != part[j]
    ensures Advances(all, part)
  {
    hide Supersedes, Known;
    forall i, j | 0 <= i < j < |part| ensures part[i].w != part[j].w {
      if part[i].w == part[j].w { OneWritePerW(all, ws, part[i], part[j]); }
    }
  }

  // ------------------------------------------------------------ revs run out

  /** Closing a call works exactly while its revs last: at 2^64 - 1 the done entry wraps to rev 0 and loses. */
  lemma CloseTakesEffect(all: seq<Entry>, pending: Entry, at: int, log: seq<Entry>)
    requires Open(pending) && Current(all, pending.w) == Some(pending)
    requires Publishes(all, [WithState(pending, DONE, at)], log) && RumorsIdentify(log)
    ensures Current(log, pending.w).Some?
    ensures CanRemoveSources(Current(log, pending.w).value) <==> pending.rev < MAX_U64
  {
    hide Current, WithState, Publishes, SameContent, RumorsIdentify, Outranks;
    var done := WithState(pending, DONE, at);
    EndedKeeps(pending, DONE, at);
    if pending.rev < MAX_U64 {
      assert Advances(all, [done]);
      WriteIsCurrent(all, [done], log, done);
      ContentRanks(Current(log, pending.w).value, done);
    } else {
      WrappedCloseLoses(all, pending, at, log);
    }
  }

  lemma WrappedCloseLoses(all: seq<Entry>, pending: Entry, at: int, log: seq<Entry>)
    requires Open(pending) && Current(all, pending.w) == Some(pending) && pending.rev == MAX_U64
    requires Publishes(all, [WithState(pending, DONE, at)], log) && RumorsIdentify(log)
    ensures Current(log, pending.w).Some? && Open(Current(log, pending.w).value)
  {
    hide Current, SameContent, Beats;
    var done, w := WithState(pending, DONE, at), pending.w;
    CurrentBest(all, w);
    CurrentBest(log, w);
    var r := Current(log, w).value;
    if r !in all {
      var x :| x in [done] && SameContent(r, x);
      ContentRanks(r, x);
    }
    OutranksTotal(r, pending);
    UnwrappedFields(r, pending);
  }

  // ------------------------------------------------------------- not vacuous

  /** The hypotheses of the theorems can be met: a call that spends one live source, its closing sealed as rumors x and y. */
  lemma HypothesesHold(commit: string -> string, p: Entry, s: Entry, x: string, y: string)
    requires Open(p) && s.state == LIVE && p.w != s.w && p.rev < MAX_U64 && s.rev < MAX_U64
    requires p.rumorId != s.rumorId && x != y && p.rumorId !in {x, y} && s.rumorId !in {x, y}
    ensures var all, r := [p, s], Outcome(Result, [], "", [], [], 1);
      var done, spent := WithState(p, DONE, 1), WithState(s, SPENT, 1);
      var log := [p, s, done.(rumorId := x), spent.(rumorId := y)];
      && Settleable(all, p, [s], r)
      && Applied(commit, p, [s], r, 0) == Writes([], [done, spent])
      && Publishes(all, [] + [done, spent], log) && RumorsIdentify(log)
  {
    hide Settleable, Applied, Publishes, RumorsIdentify, WithState;
    Settles(p, s);
    Applies(commit, p, s);
    var done, spent := WithState(p, DONE, 1), WithState(s, SPENT, 1);
    assert [] + [done, spent] == [done, spent];
    Published(p, s, done, spent, x, y);
    FourRumors(p, s, done.(rumorId := x), spent.(rumorId := y));
  }

  lemma Settles(p: Entry, s: Entry)
    requires Open(p) && s.state == LIVE && p.w != s.w && p.rev < MAX_U64 && s.rev < MAX_U64
    ensures Settleable([p, s], p, [s], Outcome(Result, [], "", [], [], 1))
  {
    hide Current;
    TwoCurrent(p, s);
    assert SourceReady([p, s], p, s);
  }

  lemma Applies(commit: string -> string, p: Entry, s: Entry)
    requires Open(p)
    ensures Applied(commit, p, [s], Outcome(Result, [], "", [], [], 1), 0) == Writes([], [WithState(p, DONE, 1), WithState(s, SPENT, 1)])
  {
    hide WithState;
    assert NamesOf([s]) - {} == {s.w};
    assert Ended([s], 0, {s.w}, SPENT, 1) == [];
  }

  lemma Published(p: Entry, s: Entry, done: Entry, spent: Entry, x: string, y: string)
    ensures Publishes([p, s], [done, spent], [p, s, done.(rumorId := x), spent.(rumorId := y)])
  {
    hide SameContent;
    var log := [p, s, done.(rumorId := x), spent.(rumorId := y)];
    assert log[0] == p && log[1] == s;
    assert log[2] in log && log[3] in log;
    OneSealed(done, x, [done, spent], log);
    OneSealed(spent, y, [done, spent], log);
  }

  lemma FourRumors(a: Entry, b: Entry, c: Entry, d: Entry)
    requires a.rumorId != b.rumorId && a.rumorId != c.rumorId && a.rumorId != d.rumorId
    requires b.rumorId != c.rumorId && b.rumorId != d.rumorId && c.rumorId != d.rumorId
    ensures RumorsIdentify([a, b, c, d])
  {
    var log := [a, b, c, d];
    assert forall e :: e in log <==> e == a || e == b || e == c || e == d;
  }

  lemma TwoCurrent(p: Entry, s: Entry)
    requires p.Recognised() && s.Recognised() && p.w != s.w
    ensures Current([p, s], p.w) == Some(p) && Current([p, s], s.w) == Some(s)
  {
    var all := [p, s];
    assert Winner(all, 0, p.w) == None && Winner(all, 0, s.w) == None;
    assert Winner(all, 1, p.w) == Some(p) && Winner(all, 1, s.w) == None;
  }

  lemma OneSealed(x: Entry, id: string, ws: seq<Entry>, log: seq<Entry>)
    requires x in ws && x.(rumorId := id) in log
    ensures Sealed(x.(rumorId := id), ws) && Read(log, x)
  {
    assert SameContent(x.(rumorId := id), x);
  }

  // ------------------------------------------------------------- failed calls

  /** A settlement that fails, whatever the fault, leaves an open call open, its sources unremovable, and every total as it was. */
  lemma FailedChangesNothing(commit: string -> string, all: seq<Entry>, pending: Entry, sources: seq<Entry>, r: Outcome, now: int,
                             log: seq<Entry>, chain: string)
    requires Current(all, pending.w) == Some(pending) && Open(pending)
    requires r.answer == OtherError || Applied(commit, pending, sources, r, now).Fails?
    requires Publishes(all, Written(Applied(commit, pending, sources, r, now)), log) && RumorsIdentify(log)
    ensures Current(log, pending.w).Some? && Open(Current(log, pending.w).value) && !CanRemoveSources(Current(log, pending.w).value)
    ensures Total(log, chain) == Total(all, chain)
  {
    hide Current, Applied, Publishes, RumorsIdentify, Total, Sum;
    AppliedExactly(commit, pending, sources, r, now);
    StillOpen(all, [], log, pending);
    assert Advances(all, []);
    TotalMoves(all, [], log, chain);
    SumNothing(NamesOf([]), Held(all, chain));
  }

  /** Of a result's bills, the ones the user may claim are written, one each, and no others. */
  lemma ClaimedAreWritten(commit: string -> string, pending: Entry, sources: seq<Entry>, r: Outcome, now: int)
    requires Applied(commit, pending, sources, r, now).Writes? && r.answer.Result?
    requires forall i, j :: 0 <= i < j < |r.bills| ==> r.bills[i].w != r.bills[j].w
    ensures var out := Applied(commit, pending, sources, r, now);
      && (forall b :: b in r.bills && Claimable(commit, pending, r, b) ==> b.w in NamesOf(out.writes))
      && (forall x :: x in out.writes ==> exists b :: b in r.bills && b.w == x.w && Claimable(commit, pending, r, b))
      && (forall i, j :: 0 <= i < j < |out.writes| ==> out.writes[i].w != out.writes[j].w)
  {
    hide BillEntry, WithState, Ended, KeptEntries, Rewritten, Claimable;
    var at := At(r, now);
    var out := Applied(commit, pending, sources, r, now);
    KeptEntriesFrom(commit, pending, sources, r, |r.bills|, at);
    RefusedOne(commit, pending, sources, r, |r.bills|, at);
    forall b | b in r.bills && Claimable(commit, pending, r, b) ensures b.w in NamesOf(out.writes) {
      var i :| 0 <= i < |r.bills| && r.bills[i] == b;
      DroppedIsOthers(commit, pending, sources, r, b, at);
      KeptIsWritten(commit, pending, sources, r, |r.bills|, at, i);
      KeptFacts(commit, pending, sources, r, b, at);
    }
    forall x | x in out.writes ensures exists b :: b in r.bills && b.w == x.w && Claimable(commit, pending, r, b) {
      var i :| 0 <= i < |r.bills| && BillEntry(commit, pending, sources, r, r.bills[i], at) == Kept(x);
      DroppedIsOthers(commit, pending, sources, r, r.bills[i], at);
      KeptFacts(commit, pending, sources, r, r.bills[i], at);
    }
  }

  /** Everything a settlement writes validates, while revs last. */
  lemma WrittenIsValid(commit: string -> string, all: seq<Entry>, pending: Entry, sources: seq<Entry>, r: Outcome, now: int, x: Entry)
    requires Settleable(all, pending, sources, r) && Valid(pending) && At(r, now) > 0
    requires forall s :: s in sources ==> Valid(s) && !s.IsCall()
    requires x in Written(Applied(commit, pending, sources, r, now))
    ensures Valid(x)
  {
    hide Current, Valid, WithState, Ended, Rewritten, Applied, Advances;
    AppliedParts(commit, all, pending, sources, r, now);
    var out, at := Applied(commit, pending, sources, r, now), At(r, now);
    var (names, state) := Ending(commit, pending, sources, r, at);
    if x !in out.writes {
      ClosedIsValid(pending, at);
      EndedFrom(sources, |sources|, names, state, at);
      if x in Ended(sources, |sources|, names, state, at) {
        var i :| 0 <= i < |sources| && x == WithState(sources[i], state, at);
        assert SourceReady(all, pending, sources[i]);
        EndedIsValid(sources[i], state, at);
      }
    }
  }
}
