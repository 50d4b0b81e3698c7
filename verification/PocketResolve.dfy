/**
  * Resolving the pocket's log (nipCP/resolve.go): the current entry of each w,
  * and the w whose current version is disputed. It behaves as a merge: order and
  * copies do not matter, and parts resolve to what the whole does.
  */
module PocketResolve {
  import opened Words
  import opened Text
  import opened PocketEntry

  // ------------------------------------------------------------------- order

  /** beats: between two entries of one w and rev. */
  predicate Beats(a: Entry, b: Entry)
  {
    if Final(a.state) != Final(b.state) then Final(a.state)
    else if a.rumorCreatedAt != b.rumorCreatedAt then a.rumorCreatedAt > b.rumorCreatedAt
    else Less(a.rumorId, b.rumorId)
  }

  predicate Outranks(a: Entry, b: Entry) { a.rev > b.rev || (a.rev == b.rev && Beats(a, b)) }

  /** Equal in everything the order looks at: copies of one rumor. */
  predicate SameRank(a: Entry, b: Entry)
  {
    && a.rev == b.rev && Final(a.state) == Final(b.state)
    && a.rumorCreatedAt == b.rumorCreatedAt && a.rumorId == b.rumorId
  }

  lemma OutranksTotal(a: Entry, b: Entry)
    ensures Outranks(a, b) || Outranks(b, a) || SameRank(a, b)
    ensures !(Outranks(a, b) && Outranks(b, a)) && (SameRank(a, b) ==> !Outranks(a, b))
  {
    hide Final;
    LessTotal(a.rumorId, b.rumorId);
  }

  lemma OutranksTransitive(a: Entry, b: Entry, c: Entry)
    requires !Outranks(b, a) && !Outranks(c, b)
    ensures !Outranks(c, a)
  {
    hide Final, Less;
    LessTotal(a.rumorId, b.rumorId);
    LessTotal(b.rumorId, c.rumorId);
    LessTotal(a.rumorId, c.rumorId);
    if Less(a.rumorId, b.rumorId) && Less(b.rumorId, c.rumorId) { LessTransitive(a.rumorId, b.rumorId, c.rumorId); }
  }

  // ----------------------------------------------------------------- winners

  predicate Contends(e: Entry, w: string) { e.Recognised() && e.w == w }

  /** The current entry of w after the first n entries: a later copy does not displace an earlier one. */
  function Winner(all: seq<Entry>, n: nat, w: string): (r: Option<Entry>)
    requires n <= |all|
  {
    if n == 0 then None
    else
      var cur := Winner(all, n - 1, w);
      var e := all[n - 1];
      if Contends(e, w) && (cur.None? || Outranks(e, cur.value)) then Some(e) else cur
  }

  function Current(all: seq<Entry>, w: string): Option<Entry> { Winner(all, |all|, w) }

  /** The winner is an entry of w that no entry of w outranks. */
  lemma {:induction false} WinnerBest(all: seq<Entry>, n: nat, w: string)
    requires n <= |all|
    ensures var r := Winner(all, n, w);
      && (r.Some? ==> r.value in all[..n] && Contends(r.value, w))
      && (forall i :: 0 <= i < n && Contends(all[i], w) ==> r.Some? && !Outranks(all[i], r.value))
  {
    if n > 0 {
      hide Contends, Outranks;
      WinnerBest(all, n - 1, w);
      var cur, e := Winner(all, n - 1, w), all[n - 1];
      assert all[..n] == all[..n - 1] + [e];
      OutranksTotal(e, e);
      if cur.Some? && Outranks(e, cur.value) {
        OutranksTotal(e, cur.value);
        forall i | 0 <= i < n - 1 && Contends(all[i], w) ensures !Outranks(all[i], e) {
          OutranksTransitive(e, cur.value, all[i]);
        }
      }
    }
  }

  /** What Current means, without the loop. */
  lemma CurrentBest(all: seq<Entry>, w: string)
    ensures var r := Current(all, w);
      && (r.None? <==> forall e :: e in all ==> !Contends(e, w))
      && (r.Some? ==> r.value in all && Contends(r.value, w) && forall e :: e in all && Contends(e, w) ==> !Outranks(e, r.value))
  {
    hide Contends, Outranks, Winner;
    WinnerBest(all, |all|, w);
    assert all[..|all|] == all;
  }

  /**
    * Who wins: the highest rev; at one rev a final state over the others; then the
    * latest rumor; then the lowest rumor id. Only entries whose state is known count.
    */
  lemma CurrentMeans(all: seq<Entry>, w: string, e: Entry)
    requires e in all && e.w == w && Known(e.state)
    ensures Current(all, w).Some?
    ensures var x := Current(all, w).value;
      && x in all && x.w == w && Known(x.state)
      && e.rev <= x.rev
      && (e.rev == x.rev && Final(e.state) ==> Final(x.state))
      && (e.rev == x.rev && Final(e.state) == Final(x.state) ==> e.rumorCreatedAt <= x.rumorCreatedAt)
      && (e.rev == x.rev && Final(e.state) == Final(x.state) && e.rumorCreatedAt == x.rumorCreatedAt ==> !Less(e.rumorId, x.rumorId))
  {
    hide Current, Known, Final, Less;
    CurrentBest(all, w);
    assert Contends(e, w);
  }

  /** What any device marked spent, expired, reclaimed or done at the winning rev is not brought back by another. */
  lemma FinalNotRevived(all: seq<Entry>, w: string, e: Entry)
    requires e in all && e.w == w && e.state in {"spent", "expired", "reclaimed", "done"}
    requires Current(all, w).Some? ==> Current(all, w).value.rev == e.rev
    ensures Current(all, w).Some? && Current(all, w).value.state !in {"live", "pending", "unknown"}
  {
    hide Current, Less;
    CurrentMeans(all, w, e);
  }

  /** Any entry that is best is the winner, up to copies of its rumor. */
  lemma BestIsCurrent(all: seq<Entry>, w: string, e: Entry)
    requires e in all && Contends(e, w) && forall f :: f in all && Contends(f, w) ==> !Outranks(f, e)
    ensures Current(all, w).Some? && SameRank(Current(all, w).value, e)
  {
    hide Contends, Outranks, Winner, SameRank;
    CurrentBest(all, w);
    OutranksTotal(Current(all, w).value, e);
  }

  // ---------------------------------------------------------------- conflicts

  /** The rumors of the winning version. */
  ghost function Rivals(all: seq<Entry>, w: string): (ids: set<string>)
  {
    var r := Current(all, w);
    if r.None? then {} else RumorsAt(all, w, r.value.rev)
  }

  ghost function RumorsAt(all: seq<Entry>, w: string, rev: U64): set<string>
  {
    set e | e in all && Contends(e, w) && e.rev == rev :: e.rumorId
  }

  ghost predicate Disputed(all: seq<Entry>, w: string) { |Rivals(all, w)| > 1 }

  // ------------------------------------------------------------ order and copies

  ghost predicate SameEntries(a: seq<Entry>, b: seq<Entry>) { forall e :: e in a <==> e in b }

  /** Up to copies of one rumor. */
  ghost predicate SameWinner(x: Option<Entry>, y: Option<Entry>)
  {
    if x.None? || y.None? then x.None? && y.None? else SameRank(x.value, y.value)
  }

  /** Neither the order of the log nor repeated entries change a winner or a conflict. */
  lemma ResolveIsASetFunction(a: seq<Entry>, b: seq<Entry>, w: string)
    requires SameEntries(a, b)
    ensures SameWinner(Current(a, w), Current(b, w))
    ensures Disputed(a, w) <==> Disputed(b, w)
  {
    hide Contends, Outranks, Current;
    CurrentBest(a, w);
    CurrentBest(b, w);
    if Current(a, w).Some? {
      OutranksTotal(Current(a, w).value, Current(b, w).value);
      assert RumorsAt(a, w, Current(a, w).value.rev) == RumorsAt(b, w, Current(a, w).value.rev);
    }
  }

  // ------------------------------------------------------------------- merging

  /** What a device knows of one w. */
  datatype Slot = Slot(winner: Option<Entry>, disputed: bool)

  ghost function SlotOf(all: seq<Entry>, w: string): Slot { Slot(Current(all, w), Disputed(all, w)) }

  /** Two devices' knowledge put together, from their winners and conflicts alone. */
  function Merge(s: Slot, t: Slot): Slot
  {
    if s.winner.None? then t
    else if t.winner.None? then s
    else
      var x, y := s.winner.value, t.winner.value;
      Slot(Some(if Outranks(y, x) then y else x),
           if x.rev > y.rev then s.disputed
           else if y.rev > x.rev then t.disputed
           else s.disputed || t.disputed || x.rumorId != y.rumorId)
  }

  ghost predicate SameSlot(s: Slot, t: Slot) { SameWinner(s.winner, t.winner) && s.disputed == t.disputed }

  lemma NotDisputed(ids: set<string>, id: string)
    requires id in ids && |ids| <= 1
    ensures ids == {id}
  {
    assert |ids - {id}| == 0;
  }

  lemma TwoRivals(ids: set<string>, x: string, y: string)
    requires x in ids && y in ids && x != y
    ensures |ids| > 1
  {
    assert |ids - {x}| >= 1 by { assert y in ids - {x}; }
  }

  lemma UnionDisputed(s: set<string>, t: set<string>, x: string, y: string)
    requires x in s && y in t
    ensures |s + t| > 1 <==> |s| > 1 || |t| > 1 || x != y
  {
    if |s| <= 1 && |t| <= 1 {
      NotDisputed(s, x);
      NotDisputed(t, y);
      if x != y { TwoRivals(s + t, x, y); } else { assert s + t == {x}; }
    } else if |s| > 1 {
      Larger(s, s + t);
    } else {
      Larger(t, s + t);
    }
  }

  lemma Larger(s: set<string>, t: set<string>)
    requires s <= t
    ensures |s| <= |t|
  {
    assert t == s + (t - s);
  }

  lemma RumorsJoin(a: seq<Entry>, b: seq<Entry>, w: string, rev: U64)
    ensures RumorsAt(a + b, w, rev) == RumorsAt(a, w, rev) + RumorsAt(b, w, rev)
  {
    hide Contends;
  }

  /** No entry of w above the winner's rev. */
  lemma NothingAbove(all: seq<Entry>, w: string, rev: U64)
    requires Current(all, w).Some? ==> Current(all, w).value.rev < rev
    ensures RumorsAt(all, w, rev) == {}
  {
    hide Contends, Current, Beats;
    CurrentBest(all, w);
  }

  /** Resolving two logs together is merging their resolutions. */
  lemma ResolveMerges(a: seq<Entry>, b: seq<Entry>, w: string)
    ensures SameSlot(SlotOf(a + b, w), Merge(SlotOf(a, w), SlotOf(b, w)))
  {
    hide Contends, Outranks, Current, SameRank, RumorsAt;
    CurrentBest(a, w);
    CurrentBest(b, w);
    CurrentBest(a + b, w);
    var x, y := Current(a, w), Current(b, w);
    if x.None? && y.None? {
    } else {
      var best := Merge(SlotOf(a, w), SlotOf(b, w)).winner.value;
      if x.Some? && y.Some? { MergeBest(a, b, w); }
      BestIsCurrent(a + b, w, best);
      MergeDisputed(a, b, w, best);
    }
  }

  lemma MergeBest(a: seq<Entry>, b: seq<Entry>, w: string)
    requires Current(a, w).Some? && Current(b, w).Some?
    ensures var x, y := Current(a, w).value, Current(b, w).value;
      var best := if Outranks(y, x) then y else x;
      forall e :: e in a + b && Contends(e, w) ==> !Outranks(e, best)
  {
    hide Contends, Outranks, Current;
    CurrentBest(a, w);
    CurrentBest(b, w);
    var x, y := Current(a, w).value, Current(b, w).value;
    OutranksTotal(x, y);
    var best, other := if Outranks(y, x) then y else x, if Outranks(y, x) then x else y;
    forall e | e in a + b && Contends(e, w) ensures !Outranks(e, best) {
      if Outranks(e, best) { OutranksTransitive(best, other, e); }
    }
  }

  lemma MergeDisputed(a: seq<Entry>, b: seq<Entry>, w: string, best: Entry)
    requires Current(a + b, w).Some? && SameRank(Current(a + b, w).value, best)
    requires Merge(SlotOf(a, w), SlotOf(b, w)).winner == Some(best)
    ensures Disputed(a + b, w) == Merge(SlotOf(a, w), SlotOf(b, w)).disputed
  {
    hide Contends, Current, RumorsAt, Beats;
    var x, y, rev := Current(a, w), Current(b, w), best.rev;
    RumorsJoin(a, b, w, rev);
    var s, t := RumorsAt(a, w, rev), RumorsAt(b, w, rev);
    if x.None? || (y.Some? && x.value.rev < y.value.rev) {
      NothingAbove(a, w, rev);
      assert s + t == t;
    } else if y.None? || y.value.rev < x.value.rev {
      NothingAbove(b, w, rev);
      assert s + t == s;
    } else {
      HasOwnRumor(a, w);
      HasOwnRumor(b, w);
      UnionDisputed(s, t, x.value.rumorId, y.value.rumorId);
    }
  }

  lemma HasOwnRumor(all: seq<Entry>, w: string)
    requires Current(all, w).Some?
    ensures Current(all, w).value.rumorId in RumorsAt(all, w, Current(all, w).value.rev)
  {
    hide Current, Contends;
    CurrentBest(all, w);
  }

  // -------------------------------------------------------------- same rumors

  /** Equal but for the wrap they came in. */
  predicate SameUnwrapped(e: Entry, f: Entry) { e.(wrapId := "") == f.(wrapId := "") }

  /** A rumor id names one rumor: its readings differ at most in the wrap they came in. */
  ghost predicate RumorsIdentify(all: seq<Entry>)
  {
    forall e, f :: e in all && f in all && e.rumorId == f.rumorId ==> SameUnwrapped(e, f)
  }

  ghost predicate RumorsWithin(a: seq<Entry>, b: seq<Entry>) { forall e :: e in a ==> exists f :: f in b && SameUnwrapped(e, f) }

  /** The same rumors, in any order, any number of copies and any wraps. */
  ghost predicate SameRumors(a: seq<Entry>, b: seq<Entry>) { RumorsWithin(a, b) && RumorsWithin(b, a) }

  lemma Counterpart(a: seq<Entry>, b: seq<Entry>, e: Entry) returns (f: Entry)
    requires RumorsWithin(a, b) && e in a
    ensures f in b && SameUnwrapped(e, f)
  {
    hide SameUnwrapped;
    f :| f in b && SameUnwrapped(e, f);
  }

  /** The fields that matter to a pocket do not depend on the wrap. */
  lemma UnwrappedFields(e: Entry, f: Entry)
    requires SameUnwrapped(e, f)
    ensures e.w == f.w && e.rev == f.rev && e.state == f.state && e.chain == f.chain && e.amount == f.amount
    ensures e.requestId == f.requestId && e.rumorId == f.rumorId && e.rumorCreatedAt == f.rumorCreatedAt
  {
    var u, v := e.(wrapId := ""), f.(wrapId := "");
    assert u.w == e.w && v.w == f.w && u.rev == e.rev && v.rev == f.rev && u.state == e.state && v.state == f.state;
    assert u.chain == e.chain && v.chain == f.chain && u.amount == e.amount && v.amount == f.amount;
    assert u.rumorCreatedAt == e.rumorCreatedAt && v.rumorCreatedAt == f.rumorCreatedAt && u.rumorId == e.rumorId && v.rumorId == f.rumorId;
    assert u.requestId == e.requestId && v.requestId == f.requestId;
  }

  /** The wrap plays no part in the order. */
  lemma WrapUnseen(e: Entry, f: Entry)
    requires SameUnwrapped(e, f)
    ensures e.rumorId == f.rumorId && e.rev == f.rev && SameRank(e, f) && SameRank(f, e)
    ensures forall w :: Contends(e, w) <==> Contends(f, w)
  {
    hide Known, Final, SameUnwrapped;
    UnwrappedFields(e, f);
  }

  /** The best of one device is met, but not beaten, on the other. */
  lemma WinnerWithin(a: seq<Entry>, b: seq<Entry>, w: string)
    requires SameRumors(a, b) && Current(a, w).Some?
    ensures Current(b, w).Some? && SameRank(Current(b, w).value, Current(a, w).value)
  {
    hide Contends, Outranks, Current, SameRank, SameUnwrapped, RumorsWithin;
    CurrentBest(a, w);
    var x := Current(a, w).value;
    var f := Counterpart(a, b, x);
    WrapUnseen(x, f);
    forall g | g in b && Contends(g, w) ensures !Outranks(g, f) { NotBeaten(a, b, w, f, g); }
    BestIsCurrent(b, w, f);
    SameRankJoins(Current(b, w).value, f, x);
  }

  lemma NotBeaten(a: seq<Entry>, b: seq<Entry>, w: string, f: Entry, g: Entry)
    requires RumorsWithin(b, a) && Current(a, w).Some? && SameUnwrapped(Current(a, w).value, f) && g in b && Contends(g, w)
    ensures !Outranks(g, f)
  {
    hide Contends, Outranks, Current, SameRank, SameUnwrapped, RumorsWithin;
    var x := Current(a, w).value;
    CurrentBest(a, w);
    var e := Counterpart(b, a, g);
    WrapUnseen(g, e);
    WrapUnseen(x, f);
    RankOnly(e, x, g, f);
  }

  /** The order looks at nothing but the rank. */
  lemma RankOnly(e: Entry, x: Entry, g: Entry, f: Entry)
    requires SameRank(g, e) && SameRank(x, f)
    ensures Outranks(g, f) == Outranks(e, x)
  {
    hide Final, Less;
  }

  lemma SameRankJoins(e: Entry, f: Entry, g: Entry)
    requires SameRank(e, f) && SameRank(g, f)
    ensures SameRank(e, g)
  {
    hide Final;
  }

  lemma RivalsWithin(a: seq<Entry>, b: seq<Entry>, w: string, rev: U64)
    requires RumorsWithin(a, b)
    ensures RumorsAt(a, w, rev) <= RumorsAt(b, w, rev)
  {
    hide Contends, SameUnwrapped;
    forall id | id in RumorsAt(a, w, rev) ensures id in RumorsAt(b, w, rev) {
      var e :| e in a && Contends(e, w) && e.rev == rev && e.rumorId == id;
      var f :| f in b && SameUnwrapped(e, f);
      WrapUnseen(e, f);
    }
  }

  /** Devices holding the same rumors, in any order and any wraps, resolve to the same entries and conflicts. */
  lemma SameWinnerUpToWrap(a: seq<Entry>, b: seq<Entry>, w: string)
    requires RumorsIdentify(a + b) && SameRumors(a, b)
    ensures Current(a, w).Some? <==> Current(b, w).Some?
    ensures Current(a, w).Some? ==> SameUnwrapped(Current(a, w).value, Current(b, w).value)
    ensures Disputed(a, w) <==> Disputed(b, w)
  {
    hide Contends, Current, RumorsAt, Outranks, SameUnwrapped, RumorsWithin, RumorsIdentify;
    CurrentBest(a, w);
    CurrentBest(b, w);
    if Current(b, w).Some? { WinnerWithin(b, a, w); }
    if Current(a, w).Some? {
      WinnerWithin(a, b, w);
      OneRumor(a, b, Current(a, w).value, Current(b, w).value);
      RivalsWithin(a, b, w, Current(a, w).value.rev);
      RivalsWithin(b, a, w, Current(a, w).value.rev);
      assert RumorsAt(a, w, Current(a, w).value.rev) == RumorsAt(b, w, Current(a, w).value.rev);
    }
  }

  lemma OneRumor(a: seq<Entry>, b: seq<Entry>, e: Entry, f: Entry)
    requires RumorsIdentify(a + b) && e in a && f in b && e.rumorId == f.rumorId
    ensures SameUnwrapped(e, f)
  {
    assert e in a + b && f in a + b;
  }

  // --------------------------------------------------------------- next version

  /** The highest rev of any entry of w among the first n, recognised or not. */
  function MaxRev(all: seq<Entry>, n: nat, w: string): (r: U64)
    requires n <= |all|
  {
    if n == 0 then 0
    else
      var m := MaxRev(all, n - 1, w);
      if all[n - 1].w == w && all[n - 1].rev > m then all[n - 1].rev else m
  }

  /** NextVersion: one more than the highest rev of any entry of w, recognised or not, on a 64-bit word. */
  method NextVersion(all: seq<Entry>, w: string) returns (v: U64)
    ensures v == Wrap64(MaxRev(all, |all|, w) + 1)
    ensures v != 0 ==> forall e :: e in all && e.w == w ==> e.rev < v
    ensures v > 1 ==> exists e :: e in all && e.w == w && e.rev == v - 1
    ensures v == 0 <==> exists e :: e in all && e.w == w && e.rev == MAX_U64
  {
    var max: U64 := 0;
    for i := 0 to |all|
      invariant max == MaxRev(all, i, w)
    {
      if all[i].w == w && all[i].rev > max { max := all[i].rev; }
    }
    v := Wrap64(max + 1);
    RevsBelow(all, w);
    MaxRevReached(all, |all|, w);
    NextIs(max);
  }

  lemma NextIs(max: U64)
    ensures Wrap64(max + 1) == if max == MAX_U64 then 0 else max + 1
  {
  }

  lemma {:induction false} MaxRevReached(all: seq<Entry>, n: nat, w: string)
    requires n <= |all|
    ensures MaxRev(all, n, w) > 0 ==> exists e :: e in all && e.w == w && e.rev == MaxRev(all, n, w)
  {
    if n > 0 {
      MaxRevReached(all, n - 1, w);
      assert all[n - 1] in all;
    }
  }

  lemma {:induction false} MaxRevBounds(all: seq<Entry>, n: nat, w: string, i: nat)
    requires i < n <= |all| && all[i].w == w
    ensures all[i].rev <= MaxRev(all, n, w)
    decreases n
  {
    if i < n - 1 { MaxRevBounds(all, n - 1, w, i); }
  }

  lemma RevsBelow(all: seq<Entry>, w: string)
    ensures forall e :: e in all && e.w == w ==> e.rev <= MaxRev(all, |all|, w)
  {
    hide MaxRev;
    forall e | e in all && e.w == w ensures e.rev <= MaxRev(all, |all|, w) {
      var i :| 0 <= i < |all| && all[i] == e;
      MaxRevBounds(all, |all|, w, i);
    }
  }

  lemma AppendedWins(all: seq<Entry>, e: Entry)
    requires e.Recognised() && forall f :: f in all && Contends(f, e.w) ==> f.rev < e.rev
    ensures SameWinner(Current(all + [e], e.w), Some(e)) && !Disputed(all + [e], e.w)
  {
    hide Current, Beats, Known, Final;
    var log, w := all + [e], e.w;
    OutranksTotal(e, e);
    BestIsCurrent(log, w, e);
    RumorsJoin(all, [e], w, e.rev);
    assert RumorsAt(all, w, e.rev) == {};
    assert RumorsAt([e], w, e.rev) == {e.rumorId} by { assert Contends([e][0], w); }
  }

  lemma AppendedLoses(all: seq<Entry>, e: Entry)
    requires e.Recognised() && Current(all, e.w).Some? && Current(all, e.w).value.rev >= e.rev
    requires forall f :: f in all && f.w == e.w ==> f.rumorId != e.rumorId
    ensures !SameWinner(Current(all + [e], e.w), Some(e)) || Disputed(all + [e], e.w)
  {
    hide Current, RumorsAt, Beats, Known, Final;
    var log, w, x := all + [e], e.w, Current(all, e.w).value;
    CurrentBest(all, w);
    CurrentBest(log, w);
    assert x in log;
    if x.rev == e.rev {
      RumorsJoin(all, [e], w, e.rev);
      HasOwnRumor(all, w);
      OwnRumor(e);
      TwoRivals(RumorsAt(log, w, e.rev), x.rumorId, e.rumorId);
    }
  }

  lemma OwnRumor(e: Entry)
    requires e.Recognised()
    ensures e.rumorId in RumorsAt([e], e.w, e.rev)
  {
    assert e in [e] && Contends(e, e.w);
  }

  /**
    * A recognised entry written at NextVersion wins its w without dispute exactly
    * when the revs of w are not exhausted, or there was nothing to win against.
    */
  lemma NextVersionWins(all: seq<Entry>, e: Entry)
    requires e.Recognised() && e.rev == Wrap64(MaxRev(all, |all|, e.w) + 1)
    requires forall f :: f in all && f.w == e.w ==> f.rumorId != e.rumorId
    ensures (SameWinner(Current(all + [e], e.w), Some(e)) && !Disputed(all + [e], e.w))
            <==> (MaxRev(all, |all|, e.w) < MAX_U64 || Current(all, e.w).None?)
  {
    hide Current, MaxRev, Known, SameWinner, Disputed, Outranks;
    RevsBelow(all, e.w);
    CurrentBest(all, e.w);
    if MaxRev(all, |all|, e.w) < MAX_U64 || Current(all, e.w).None? {
      AppendedWins(all, e);
    } else {
      AppendedLoses(all, e);
    }
  }

  // ------------------------------------------------------------------ the loop

  lemma {:induction false} WinnerPrefix(all: seq<Entry>, n: nat, m: nat, w: string)
    requires n <= m <= |all|
    ensures Winner(all[..m], n, w) == Winner(all, n, w)
  {
    hide Contends, Outranks;
    if n > 0 { WinnerPrefix(all, n - 1, m, w); }
  }

  /** winners and rivals say of w what the first n entries do. */
  ghost predicate Tracks(all: seq<Entry>, n: nat, winners: map<string, Entry>, rivals: map<string, set<string>>, w: string)
    requires n <= |all|
  {
    var cur := Current(all[..n], w);
    if cur.None? then w !in winners && w !in rivals
    else w in winners && w in rivals && winners[w] == cur.value && rivals[w] == RumorsAt(all[..n], w, cur.value.rev)
  }

  ghost predicate TracksAll(all: seq<Entry>, n: nat, winners: map<string, Entry>, rivals: map<string, set<string>>)
    requires n <= |all|
  {
    forall w: string :: Tracks(all, n, winners, rivals, w)
  }

  lemma OneMoreEntry(all: seq<Entry>, n: nat, w: string)
    requires n < |all|
    ensures var cur, e := Current(all[..n], w), all[n];
      && Current(all[..n + 1], w) == (if Contends(e, w) && (cur.None? || Outranks(e, cur.value)) then Some(e) else cur)
      && (forall rev: U64 :: RumorsAt(all[..n + 1], w, rev)
            == RumorsAt(all[..n], w, rev) + (if Contends(e, w) && e.rev == rev then {e.rumorId} else {}))
  {
    hide Contends, Outranks;
    WinnerPrefix(all, n, n, w);
    WinnerPrefix(all, n + 1, n + 1, w);
    WinnerPrefix(all, n, n + 1, w);
    assert all[..n + 1] == all[..n] + [all[n]];
    forall rev: U64
      ensures RumorsAt(all[..n + 1], w, rev)
           == RumorsAt(all[..n], w, rev) + (if Contends(all[n], w) && all[n].rev == rev then {all[n].rumorId} else {})
    {
      RumorsJoin(all[..n], [all[n]], w, rev);
    }
  }

  /** One turn of Resolve's loop. */
  method Consider(all: seq<Entry>, n: nat, winners: map<string, Entry>, rivals: map<string, set<string>>)
    returns (winners': map<string, Entry>, rivals': map<string, set<string>>)
    requires n < |all| && TracksAll(all, n, winners, rivals)
    ensures TracksAll(all, n + 1, winners', rivals')
  {
    hide Current, RumorsAt, Beats;
    var e := all[n];
    winners', rivals' := winners, rivals;
    assert Tracks(all, n, winners, rivals, e.w);
    if e.Recognised() {
      if e.w !in winners {
        winners', rivals' := winners[e.w := e], rivals[e.w := {e.rumorId}];
      } else if e.rev > winners[e.w].rev {
        winners', rivals' := winners[e.w := e], rivals[e.w := {e.rumorId}];
      } else if e.rev == winners[e.w].rev {
        rivals' := rivals[e.w := rivals[e.w] + {e.rumorId}];
        if Beats(e, winners[e.w]) { winners' := winners[e.w := e]; }
      }
    }
    ghost var m := n + 1;
    forall w: string ensures Tracks(all, m, winners', rivals', w) {
      assert Tracks(all, n, winners, rivals, w);
      OneMoreEntry(all, n, w);
      NothingAboveNext(all[..n], w, e.rev);
    }
  }

  lemma NothingAboveNext(all: seq<Entry>, w: string, rev: U64)
    ensures Current(all, w).None? || Current(all, w).value.rev < rev ==> RumorsAt(all, w, rev) == {}
  {
    hide Current, RumorsAt;
    if Current(all, w).None? || Current(all, w).value.rev < rev { NothingAbove(all, w, rev); }
  }

  ghost predicate StrictlySorted(r: seq<string>) { forall i, j :: 0 <= i < j < |r| ==> Less(r[i], r[j]) }

  /** sort.Strings of distinct strings, by insertion. */
  method Insert(r: seq<string>, x: string) returns (r': seq<string>)
    requires StrictlySorted(r) && x !in r
    ensures StrictlySorted(r') && forall y :: y in r' <==> y in r || y == x
  {
    hide Less;
    var i := 0;
    while i < |r| && Less(r[i], x)
      invariant 0 <= i <= |r|
      invariant forall j :: 0 <= j < i ==> Less(r[j], x)
    {
      i := i + 1;
    }
    r' := r[..i] + [x] + r[i..];
    forall j | i <= j < |r| ensures Less(x, r[j]) {
      LessTotal(r[i], x);
      if i < j { LessTransitive(x, r[i], r[j]); }
    }
  }

  /** Resolve. */
  method Resolve(all: seq<Entry>) returns (winners: map<string, Entry>, conflicts: seq<string>)
    ensures forall w :: w in winners <==> Current(all, w).Some?
    ensures forall w :: w in winners ==> winners[w] == Current(all, w).value
    ensures forall e :: e in all && Known(e.state) ==>
      && e.w in winners && winners[e.w].w == e.w && Known(winners[e.w].state) && e.rev <= winners[e.w].rev
      && (e.rev == winners[e.w].rev && Final(e.state) ==> Final(winners[e.w].state))
    ensures StrictlySorted(conflicts) && forall w :: w in conflicts <==> Disputed(all, w)
  {
    hide Current, RumorsAt;
    winners := map[];
    var rivals: map<string, set<string>> := map[];
    forall w: string ensures Tracks(all, 0, winners, rivals, w) { NothingTracked(all, w); }
    for n := 0 to |all|
      invariant TracksAll(all, n, winners, rivals)
    {
      winners, rivals := Consider(all, n, winners, rivals);
    }
    assert all[..|all|] == all;
    conflicts := [];
    var left := rivals.Keys;
    while left != {}
      invariant left <= rivals.Keys
      invariant StrictlySorted(conflicts)
      invariant forall w :: w in conflicts <==> w in rivals && w !in left && |rivals[w]| > 1
      decreases left
    {
      var w :| w in left;
      if |rivals[w]| > 1 { conflicts := Insert(conflicts, w); }
      left := left - {w};
    }
    forall w: string ensures w in conflicts <==> Disputed(all, w) {
      assert Tracks(all, |all|, winners, rivals, w);
    }
    forall e | e in all && Known(e.state)
      ensures Current(all, e.w).Some? && Current(all, e.w).value.w == e.w && Known(Current(all, e.w).value.state)
      ensures e.rev <= Current(all, e.w).value.rev
      ensures e.rev == Current(all, e.w).value.rev && Final(e.state) ==> Final(Current(all, e.w).value.state)
    {
      CurrentMeans(all, e.w, e);
    }
    forall w: string ensures (w in winners <==> Current(all, w).Some?) && (w in winners ==> winners[w] == Current(all, w).value) {
      assert Tracks(all, |all|, winners, rivals, w);
    }
  }

  lemma NothingTracked(all: seq<Entry>, w: string)
    ensures Current(all[..0], w).None?
  {
  }
}
