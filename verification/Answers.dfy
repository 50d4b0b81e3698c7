/**
  * One whole answer keeps the protocol's invariant (nip77/reconcile.go:18-130),
  * whatever the frame limit.
  */
module Answers {
  import opened Items
  import opened Fingerprint
  import opened Codec
  import opened Split
  import opened Frame
  import opened Reconcile
  import opened FrameBound
  import opened Telling
  import opened Safety

  /** What is known before range i of m is read; rep is what the initiator has reported by now. */
  ghost predicate Ready(w: World, who: bool, m: seq<Range>, i: nat, t: Turn, rep0: set<Id>, rep: set<Id>, limit: nat)
  {
    && Sound(w) && Sent(w, !who, rep0, m) && i < |m| && rep0 <= rep
    && Inv(w, who, m, i, t, rep) && Roomy(Role(w, who, limit), t) && (limit > 0 ==> limit >= MIN_FRAME)
    && (who ==> rep == t.tally.reported && Fair(w, rep0, t.tally))
  }

  /** What is known after it. */
  ghost predicate Done(w: World, who: bool, m: seq<Range>, i: nat, o: Outcome, rep0: set<Id>, rep: set<Id>)
  {
    && o.Going?
    && (who ==> Fair(w, rep0, o.turn.tally))
    && var rep' := if who then o.turn.tally.reported else rep;
    if o.turn.closed then Told(w, who, rep', o.turn.out) && Safe(w, o.turn.out, rep') && Shaped(who, o.turn.out)
    else Inv(w, who, m, i + 1, o.turn, rep')
  }

  lemma NextCut(w: World, who: bool, m: seq<Range>, i: nat, t: Turn)
    requires Sorted(Own(w, who)) && i < |m| && t.prevIdx == Cut(Own(w, who), Reach(m[..i]))
    ensures Reach(m[..i]) <= Reach(m[..i + 1]) && t.prevIdx <= Cut(Own(w, who), Reach(m[..i + 1]))
    ensures FirstNotBefore(Own(w, who), t.prevIdx, m[i].bound) == Cut(Own(w, who), Reach(m[..i + 1]))
  {
    hide Cut, Reach, Sorted, FirstNotBefore, BoundRank, Own;
    FirstNotBeforeIsCut(Own(w, who), Reach(m[..i]), m[i].bound);
    ReachPrefix(m, i);
    CutMonotone(Own(w, who), Reach(m[..i]), Reach(m[..i + 1]));
  }

  lemma SoundOwn(w: World, who: bool)
    requires Sound(w)
    ensures Sorted(Own(w, who))
  {
    hide Sorted, IdsIdentify, CollisionFree;
  }

  /** Non-Skip ranges never lie behind the reader. */
  lemma BoundAhead(w: World, who: bool, rep: set<Id>, m: seq<Range>, i: nat)
    requires Told(w, who, rep, m) && i < |m| && m[i].mode != SKIP
    ensures Reach(m[..i]) <= BoundRank(m[i].bound) == Reach(m[..i + 1])
    ensures m[i].mode == FINGERPRINT || m[i].mode == IDLIST
  {
    hide Cut, Reach, BoundRank, Told, Known, Print, IdListBytes;
    ToldAt(w, who, rep, m, i);
    ReachPrefix(m, i);
  }

  lemma FinishSettled(p: Party, t: Turn, upper: nat, bound: Bound)
    requires Fits(p, t) && upper <= |p.items| && Roomy(p, t) && !t.closed
    ensures Finish(p, t, Settled(t, upper), bound) == Turn(upper, bound, t.writtenIdx, true, t.out, t.tally, false)
  {
    hide EncodedLen, RestFrom;
    assert t.out + [] == t.out;
  }

  lemma StepSettled(w: World, who: bool, m: seq<Range>, i: nat, t: Turn, rep0: set<Id>, rep: set<Id>, limit: nat)
    requires Ready(w, who, m, i, t, rep0, rep, limit)
    requires m[i].mode == SKIP || (m[i].mode == FINGERPRINT && m[i].payload ==
             Print(w.hash, Own(w, who)[Cut(Own(w, who), Reach(m[..i]))..Max(Cut(Own(w, who), Reach(m[..i])), Cut(Own(w, who), Reach(m[..i + 1])))]))
    ensures Done(w, who, m, i, Step(Role(w, who, limit), t, m[i]), rep0, rep)
  {
    hide Cut, Reach, Sorted, FirstNotBefore, Told, Safe, Shaped, Finish, Fair, Covered, Ascending, PrintReach, Print,
         IdsIdentify, CollisionFree, Roomy, Own;
    SoundOwn(w, who);
    NextCut(w, who, m, i, t);
    FinishSettled(Role(w, who, limit), t, Cut(Own(w, who), Reach(m[..i + 1])), m[i].bound);
    if m[i].mode == SKIP { SkipClears(w, m, i, rep0); } else { MatchClears(w, who, m, i, rep0); }
    ClearedMore(w, m, i, rep0, rep);
    SettleInv(w, who, m, i, t, rep, rep, t.tally);
  }

  lemma ClearedMore(w: World, m: seq<Range>, i: nat, rep: set<Id>, rep': set<Id>)
    requires i < |m| && Cleared(w, m, i, rep) && rep <= rep'
    ensures Cleared(w, m, i, rep')
  {
    hide Odd, Rank, Reach;
  }

  lemma FinishSplit(p: Party, t: Turn, r: Range, upper: nat)
    requires Fits(p, t) && t.prevIdx <= upper <= |p.items|
    ensures var o := Pending(t) + SplitSpec(p.hash, p.items, t.prevIdx, upper, r.bound);
      Finish(p, t, SplitReply(p, t, r, upper), r.bound)
      == if Exceeded(p.limit, EncodedLen(t.out + o)) then
           t.(out := t.out + Pending(t) + [RestFrom(p, if t.skip then t.prevIdx else t.writtenIdx)], closed := true)
         else Turn(upper, r.bound, upper, false, t.out + o, t.tally, false)
  {
    hide EncodedLen, RestFrom, SplitSpec;
    assert t.out + [] == t.out;
  }

  /** What a turn comes to, given where the range ends and what it adds to the tally. */
  lemma StepIs(p: Party, t: Turn, r: Range, upper: nat)
    requires Fits(p, t) && upper == FirstNotBefore(p.items, t.prevIdx, r.bound)
    ensures r.mode == FINGERPRINT && Print(p.hash, p.items[t.prevIdx..upper]) != r.payload ==>
            Step(p, t, r) == Going(Finish(p, t, SplitReply(p, t, r, upper), r.bound))
    ensures r.mode == IDLIST && !p.initiator && ListedIds(r.payload).Some? ==>
            var t' := t.(tally := Diff(false, p.items[t.prevIdx..upper], IdSet(ListedIds(r.payload).value), t.tally));
            Step(p, t, r) == Going(Finish(p, t', ListReply(p, t', r, upper), r.bound))
  {
    hide FirstNotBefore, Finish, SplitReply, ListReply, Diff, ListedIds, Print, IdSet;
    assert t.(tally := t.tally) == t;
  }

  lemma StepSplit(w: World, who: bool, m: seq<Range>, i: nat, t: Turn, rep0: set<Id>, rep: set<Id>, limit: nat)
    requires Ready(w, who, m, i, t, rep0, rep, limit) && m[i].mode == FINGERPRINT
    requires Cut(Own(w, who), Reach(m[..i])) <= Cut(Own(w, who), Reach(m[..i + 1]))
    requires m[i].payload != Print(w.hash, Own(w, who)[Cut(Own(w, who), Reach(m[..i]))..Cut(Own(w, who), Reach(m[..i + 1]))])
    ensures Done(w, who, m, i, Step(Role(w, who, limit), t, m[i]), rep0, rep)
  {
    hide Cut, Reach, Sorted, FirstNotBefore, Told, Safe, Shaped, Fair, Covered, Ascending, PrintReach, Print, BoundRank,
         IdsIdentify, CollisionFree, Roomy, Own, SplitSpec, EncodedLen, RestFrom, Finish, SplitReply, Sound, Step;
    SoundOwn(w, who);
    NextCut(w, who, m, i, t);
    BoundAhead(w, !who, rep0, m, i);
    StepIs(Role(w, who, limit), t, m[i], Cut(Own(w, who), Reach(m[..i + 1])));
    FinishSplit(Role(w, who, limit), t, m[i], Cut(Own(w, who), Reach(m[..i + 1])));
    if Step(Role(w, who, limit), t, m[i]).turn.closed {
      CloseSent(w, who, m, i, t, rep, limit);
    } else {
      SplitInv(w, who, m, i, t, rep, t.tally);
    }
  }

  lemma StepListInitiator(w: World, m: seq<Range>, i: nat, t: Turn, rep0: set<Id>, rep: set<Id>, limit: nat)
    requires Ready(w, true, m, i, t, rep0, rep, limit) && m[i].mode == IDLIST
    ensures Done(w, true, m, i, Step(Role(w, true, limit), t, m[i]), rep0, rep)
  {
    hide Cut, Reach, Sorted, FirstNotBefore, Told, Safe, Shaped, Finish, Fair, Covered, Ascending, PrintReach, Print,
         IdsIdentify, CollisionFree, Roomy, Diff, ListedIds, Cleared;
    NextCut(w, true, m, i, t);
    ListClears(w, m, i, rep0, rep0, t.tally);
    var upper := Cut(w.a, Reach(m[..i + 1]));
    var tally := Diff(true, w.a[t.prevIdx..upper], IdSet(ListedIds(m[i].payload).value), t.tally);
    RoomyTally(Role(w, true, limit), t, tally);
    FinishSettled(Role(w, true, limit), t.(tally := tally), upper, m[i].bound);
    SettleInv(w, true, m, i, t, rep, tally.reported, tally);
  }

  lemma RoomyTally(p: Party, t: Turn, tally: Tally)
    requires Roomy(p, t)
    ensures Roomy(p, t.(tally := tally))
  {
    hide EncodedLen;
  }

  lemma StepListResponder(w: World, m: seq<Range>, i: nat, t: Turn, rep0: set<Id>, rep: set<Id>, limit: nat, o: Outcome)
    requires Ready(w, false, m, i, t, rep0, rep, limit) && m[i].mode == IDLIST
    requires o == Step(Role(w, false, limit), t, m[i])
    ensures Done(w, false, m, i, o, rep0, rep)
  {
    hide Cut, Reach, Sorted, FirstNotBefore, Told, Safe, Fair, Covered, Ascending, PrintReach, Print, BoundRank, Orderly,
         Roomy, Diff, ListedIds, ListReply, EncodedLen, RestFrom, Gapped, Step, Sound;
    SoundOwn(w, false);
    NextCut(w, false, m, i, t);
    BoundAhead(w, true, rep0, m, i);
    TheyListed(w, rep0, m, i);
    var p := Role(w, false, limit);
    var upper := Cut(w.b, Reach(m[..i + 1]));
    var tally := Diff(false, w.b[t.prevIdx..upper], IdSet(ListedIds(m[i].payload).value), t.tally);
    var t1 := t.(tally := tally);
    StepIs(p, t, m[i], upper);
    RoomyTally(p, t, tally);
    assert Inv(w, false, m, i, t1, rep);
    ListTold(w, m, i, t1, rep, limit);
    ListClosed(w, m, i, t1, rep, limit);
    var mid := ListReply(p, t1, m[i], upper);
    GappedReach(w, false, rep, mid.out, Reach(mid.out));
    assert mid.out + mid.o == mid.out;
  }

  lemma TheyListed(w: World, rep: set<Id>, m: seq<Range>, i: nat)
    requires Sound(w) && Told(w, true, rep, m) && i < |m| && m[i].mode == IDLIST
    ensures ListedIds(m[i].payload).Some?
  {
    hide Cut, Reach, BoundRank, Told, Known, Print, IdListBytes, ListedIds, Sorted, IdsIdentify, CollisionFree;
    ToldAt(w, true, rep, m, i);
    var from: nat :| Describes(w, true, rep, Reach(m[..i]), m[i], from);
    IdListRoundTrip(w.a[from..Cut(w.a, BoundRank(m[i].bound))]);
  }

  /** Every range of a true message is answered, and the invariant kept. */
  lemma StepDone(w: World, who: bool, m: seq<Range>, i: nat, t: Turn, rep0: set<Id>, rep: set<Id>, limit: nat)
    requires Ready(w, who, m, i, t, rep0, rep, limit)
    ensures Done(w, who, m, i, Step(Role(w, who, limit), t, m[i]), rep0, rep)
  {
    hide Cut, Reach, Sorted, Told, Safe, Shaped, Fair, Covered, Ascending, PrintReach, Print, Step, Done,
         IdsIdentify, CollisionFree, Roomy, Own;
    SoundOwn(w, who);
    NextCut(w, who, m, i, t);
    if m[i].mode == SKIP {
      StepSettled(w, who, m, i, t, rep0, rep, limit);
    } else {
      BoundAhead(w, !who, rep0, m, i);
      if m[i].mode == FINGERPRINT {
        var slice := Own(w, who)[t.prevIdx..Cut(Own(w, who), Reach(m[..i + 1]))];
        if m[i].payload == Print(w.hash, slice) {
          StepSettled(w, who, m, i, t, rep0, rep, limit);
        } else {
          StepSplit(w, who, m, i, t, rep0, rep, limit);
        }
      } else if who {
        StepListInitiator(w, m, i, t, rep0, rep, limit);
      } else {
        StepListResponder(w, m, i, t, rep0, rep, limit, Step(Role(w, who, limit), t, m[i]));
      }
    }
  }

  // ---------------------------------------------------------- whole answers

  /** The state after n ranges, closed or not. */
  ghost predicate At(w: World, who: bool, m: seq<Range>, n: nat, o: Outcome, rep0: set<Id>, limit: nat)
  {
    && o.Going? && Roomy(Role(w, who, limit), o.turn)
    && (who ==> Fair(w, rep0, o.turn.tally))
    && var rep := if who then o.turn.tally.reported else rep0;
    if o.turn.closed then Told(w, who, rep, o.turn.out) && Safe(w, o.turn.out, rep) && Shaped(who, o.turn.out)
    else Inv(w, who, m, n, o.turn, rep)
  }

  lemma CutZero(items: seq<Item>)
    requires Sorted(items)
    ensures Cut(items, 0) == 0
  {
    hide Rank, Sorted;
    CutIs(items, 0, 0);
  }

  lemma StartAt(w: World, who: bool, m: seq<Range>, reported: set<Id>, rep0: set<Id>, limit: nat)
    requires Sound(w) && (who ==> reported == rep0) && (limit > 0 ==> limit >= MIN_FRAME)
    ensures At(w, who, m, 0, Going(Start(reported)), rep0, limit)
  {
    hide Sound, RoomyWithin, Inv, Told, Safe, Shaped, OnlyIds;
    StartInv(w, who, m, reported, if who then reported else rep0);
    StartRoom(Role(w, who, limit), reported, 32);
  }

  lemma StartInv(w: World, who: bool, m: seq<Range>, reported: set<Id>, rep: set<Id>)
    requires Sound(w)
    ensures Inv(w, who, m, 0, Start(reported), rep)
  {
    hide Sound, Cut, Rank, BoundRank, Own, Odd;
    SoundOwn(w, who);
    CutZero(Own(w, who));
    assert m[..0] == [];
  }

  lemma {:induction false} AfterAt(w: World, who: bool, m: seq<Range>, n: nat, reported: set<Id>, rep0: set<Id>, limit: nat)
    requires Sound(w) && Sent(w, !who, rep0, m) && n <= |m|
    requires (who ==> reported == rep0) && (limit > 0 ==> limit >= MIN_FRAME)
    ensures At(w, who, m, n, After(Role(w, who, limit), reported, m, n), rep0, limit)
  {
    hide Sound, Roomy, Told, Safe, Shaped, Fair, Inv, Step, ShortPrefixes;
    if n == 0 {
      StartAt(w, who, m, reported, rep0, limit);
    } else {
      AfterAt(w, who, m, n - 1, reported, rep0, limit);
      var o := After(Role(w, who, limit), reported, m, n - 1);
      if !o.turn.closed { OneMore(w, who, m, n - 1, o.turn, rep0, limit); }
    }
  }

  lemma OneMore(w: World, who: bool, m: seq<Range>, i: nat, t: Turn, rep0: set<Id>, limit: nat)
    requires Sound(w) && Sent(w, !who, rep0, m) && i < |m| && (limit > 0 ==> limit >= MIN_FRAME)
    requires At(w, who, m, i, Going(t), rep0, limit) && !t.closed && Fits(Role(w, who, limit), t)
    ensures At(w, who, m, i + 1, Step(Role(w, who, limit), t, m[i]), rep0, limit)
  {
    hide Sound, Roomy, Told, Safe, Shaped, Inv, Step, OnlyIds;
    var rep := if who then t.tally.reported else rep0;
    StepDone(w, who, m, i, t, rep0, rep, limit);
    StepRoom(Role(w, who, limit), t, m[i]);
  }

  /** Having read everything, nothing is left uncovered. */
  lemma EndSafe(w: World, who: bool, m: seq<Range>, t: Turn, rep0: set<Id>, rep: set<Id>)
    requires Safe(w, m, rep0) && rep0 <= rep && Inv(w, who, m, |m|, t, rep)
    ensures Safe(w, t.out, rep) && Shaped(who, t.out)
  {
    hide Rank, Open, Odd, Reach, Told, Ascending, Orderly, Cut, PrintReach;
    assert m[..|m|] == m;
    forall x | Odd(w, x) ensures x.id in rep || Open(t.out, x) {
      if Open(m, x) { OpenWithin(m, x); }
    }
  }

  /**
    * The answer to a true and safe message, whatever its sender's frame limit, is
    * made without error and is true and safe in turn; and what the initiator
    * reports while making it is new, correct, and told once.
    */
  lemma AnswerSent(w: World, who: bool, m: seq<Range>, reported: set<Id>, rep0: set<Id>, limit: nat)
    requires Sound(w) && Sent(w, !who, rep0, m)
    requires (who ==> reported == rep0) && (limit > 0 ==> limit >= MIN_FRAME)
    ensures var o := Answer(Role(w, who, limit), reported, m);
      && o.Going? && (who ==> Fair(w, rep0, o.turn.tally))
      && Sent(w, who, if who then o.turn.tally.reported else rep0, o.turn.out)
  {
    hide Sound, Told, Safe, Shaped, After, OnlyIds, EncodedLen;
    AfterAt(w, who, m, |m|, reported, rep0, limit);
    var t := Answer(Role(w, who, limit), reported, m).turn;
    if !t.closed { EndSafe(w, who, m, t, rep0, if who then t.tally.reported else rep0); }
  }
}
