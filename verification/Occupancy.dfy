/**
  * What is inside the ranges a session sends (nip77/reconcile.go:48-103): a bucket
  * holds items of its sender, and an initiator lists only where a reply had a
  * fingerprint. So a responder asked for a list before infinity has something to
  * list, and never repeats a Skip behind a finite bound.
  */
module Occupancy {
  import opened Items
  import opened Fingerprint
  import opened Codec
  import opened Split
  import opened Frame
  import opened Reconcile
  import opened FrameBound
  import opened Telling
  import opened Safety
  import opened Answers
  import opened Session
  import opened Progress

  /**
    * What a range before infinity holds: a fingerprint some item of its sender, an
    * initiator's list some item of the responder.
    */
  ghost predicate OccupiedNext(w: World, who: bool, before: nat, r: Range)
  {
    BoundRank(r.bound) < Top() ==>
      && (r.mode == FINGERPRINT ==> Cut(Own(w, who), before) < Cut(Own(w, who), BoundRank(r.bound)))
      && (who && r.mode == IDLIST ==> Cut(w.b, before) < Cut(w.b, BoundRank(r.bound)))
  }

  ghost predicate Occupied(w: World, who: bool, rs: seq<Range>)
  {
    rs == [] ||
    var n := |rs| - 1;
    Occupied(w, who, rs[..n]) && OccupiedNext(w, who, Reach(rs[..n]), rs[n])
  }

  lemma OccupiedAppend(w: World, who: bool, rs: seq<Range>, r: Range)
    ensures Occupied(w, who, rs + [r]) <==> Occupied(w, who, rs) && OccupiedNext(w, who, Reach(rs), r)
  {
    hide Reach, OccupiedNext;
    assert (rs + [r])[..|rs|] == rs;
  }

  lemma {:induction false} OccupiedAt(w: World, who: bool, rs: seq<Range>, i: nat)
    requires Occupied(w, who, rs) && i < |rs|
    ensures OccupiedNext(w, who, Reach(rs[..i]), rs[i])
    decreases |rs|
  {
    hide Reach, OccupiedNext;
    var n := |rs| - 1;
    if i < n {
      OccupiedAt(w, who, rs[..n], i);
      assert rs[..n][..i] == rs[..i];
    }
  }

  // ------------------------------------------------------------------ splits

  /** The buckets of a split: no lists, and each holds items of the one who split. */
  lemma {:induction false} BucketsOccupied(w: World, who: bool, rep: set<Id>, out: seq<Range>, k: nat, bound: Bound, n: nat)
    requires Sorted(Own(w, who)) && Gapped(w, who, rep, out, k) && k <= BoundRank(bound) && n <= 16
    requires Cut(Own(w, who), BoundRank(bound)) - Cut(Own(w, who), k) >= 32
    requires Occupied(w, who, out)
    ensures var items := Own(w, who);
      Occupied(w, who, out + Buckets(w.hash, items, Cut(items, k), Cut(items, BoundRank(bound)), bound, n))
    decreases n
  {
    hide Reach, Cut, BoundRank, Sorted, Gapped, Bucket, Occupied, OccupiedNext, Top, Own;
    var items := Own(w, who);
    var lower, upper := Cut(items, k), Cut(items, BoundRank(bound));
    if n == 0 {
      NoBuckets(w.hash, items, lower, upper, bound, out);
    } else {
      BucketsOccupied(w, who, rep, out, k, bound, n - 1);
      BucketOccupied(w, who, rep, out, k, bound, n - 1);
      var rs, r := Buckets(w.hash, items, lower, upper, bound, n - 1), Bucket(w.hash, items, lower, upper, bound, n - 1);
      assert out + Buckets(w.hash, items, lower, upper, bound, n) == (out + rs) + [r];
      OccupiedAppend(w, who, out + rs, r);
    }
  }

  lemma BucketOccupied(w: World, who: bool, rep: set<Id>, out: seq<Range>, k: nat, bound: Bound, i: nat)
    requires Sorted(Own(w, who)) && Gapped(w, who, rep, out, k) && k <= BoundRank(bound) && i < 16
    requires Cut(Own(w, who), BoundRank(bound)) - Cut(Own(w, who), k) >= 32
    ensures var items, lower, upper := Own(w, who), Cut(Own(w, who), k), Cut(Own(w, who), BoundRank(bound));
      OccupiedNext(w, who, Reach(out + Buckets(w.hash, items, lower, upper, bound, i)), Bucket(w.hash, items, lower, upper, bound, i))
  {
    hide Reach, Cut, BoundRank, Sorted, Gapped, Bucket, Offset, Buckets, Top, Own, Print;
    var items := Own(w, who);
    var lower, upper := Cut(items, k), Cut(items, BoundRank(bound));
    BucketEnds(w.hash, items, k, bound, i);
    BucketPrints(w.hash, items, lower, upper, bound, i);
    BucketStarts(w, who, rep, out, k, bound, i);
  }

  lemma BucketPrints(hash: Hash, items: seq<Item>, lower: nat, upper: nat, bound: Bound, i: nat)
    requires lower <= upper <= |items| && upper - lower >= 32 && i < 16
    ensures Bucket(hash, items, lower, upper, bound, i).mode == FINGERPRINT
  {
    hide Print, Offset, Size, BucketBound;
  }

  /** Before bucket i, the reader stands no further than its start. */
  lemma BucketStarts(w: World, who: bool, rep: set<Id>, out: seq<Range>, k: nat, bound: Bound, i: nat)
    requires Sorted(Own(w, who)) && Gapped(w, who, rep, out, k) && k <= BoundRank(bound) && i < 16
    requires Cut(Own(w, who), BoundRank(bound)) - Cut(Own(w, who), k) >= 32
    ensures var items, lower, upper := Own(w, who), Cut(Own(w, who), k), Cut(Own(w, who), BoundRank(bound));
      Cut(items, Reach(out + Buckets(w.hash, items, lower, upper, bound, i))) <= lower + Offset(upper - lower, i)
  {
    hide Reach, Cut, BoundRank, Sorted, Gapped, Offset, Buckets, Own;
    var items := Own(w, who);
    var lower, upper := Cut(items, k), Cut(items, BoundRank(bound));
    if i == 0 {
      NoBuckets(w.hash, items, lower, upper, bound, out);
      OffsetSteps(upper - lower, 0);
      GappedReach(w, who, rep, out, k);
      CutMonotone(items, Reach(out), k);
    } else {
      BucketsEnd(w, who, rep, out, k, bound, i);
    }
  }

  /** What an initiator lists holds what the fingerprint it answers held. */
  lemma SplitOccupied(w: World, who: bool, rep: set<Id>, out: seq<Range>, k: nat, bound: Bound)
    requires Sorted(Own(w, who)) && Sorted(w.b) && Gapped(w, who, rep, out, k) && k <= BoundRank(bound) && Occupied(w, who, out)
    requires Cut(Own(w, who), k) <= Cut(Own(w, who), BoundRank(bound))
    requires who && BoundRank(bound) < Top() ==> Cut(w.b, k) < Cut(w.b, BoundRank(bound))
    ensures var items := Own(w, who);
      Occupied(w, who, out + SplitSpec(w.hash, items, Cut(items, k), Cut(items, BoundRank(bound)), bound))
  {
    hide Reach, Cut, BoundRank, Sorted, Gapped, Occupied, Top, Own, Buckets, IdListBytes;
    var items := Own(w, who);
    var lower, upper := Cut(items, k), Cut(items, BoundRank(bound));
    if upper - lower < 32 {
      GappedReach(w, who, rep, out, k);
      CutMonotone(w.b, Reach(out), k);
      OccupiedAppend(w, who, out, SplitSpec(w.hash, items, lower, upper, bound)[0]);
    } else {
      BucketsOccupied(w, who, rep, out, k, bound, 16);
    }
  }

  // ------------------------------------------------------------------ answers

  lemma PendingOccupied(w: World, who: bool, t: Turn)
    requires Occupied(w, who, t.out)
    ensures Occupied(w, who, t.out + Pending(t))
  {
    hide Occupied, Reach, BoundRank, Top, Cut;
    OccupiedAppend(w, who, t.out, SkipTo(t.prevBound));
    assert t.out + [] == t.out;
  }

  lemma RestOccupied(w: World, who: bool, out: seq<Range>, p: Party, from: nat)
    requires Occupied(w, who, out) && from <= |p.items|
    ensures Occupied(w, who, out + [RestFrom(p, from)])
  {
    hide Occupied, Reach, BoundRank, Top, Print, Cut;
    InfinityRank();
    OccupiedAppend(w, who, out, RestFrom(p, from));
  }

  lemma ListOccupied(w: World, p: Party, t: Turn, r: Range, upper: nat)
    requires Fits(p, t) && t.prevIdx <= upper <= |p.items| && Occupied(w, false, t.out)
    ensures var mid := ListReply(p, t, r, upper);
      && Occupied(w, false, mid.out) && Occupied(w, false, mid.out + [RestFrom(p, mid.writtenIdx)])
      && Occupied(w, false, mid.out + [SkipTo(t.prevBound)] + [RestFrom(p, t.prevIdx)])
  {
    hide Occupied, Reach, BoundRank, Top, IdListBytes, RestFrom, EncodedLen, Cut;
    var mid := ListReply(p, t, r, upper);
    PendingOccupied(w, false, t);
    OccupiedAppend(w, false, t.out + Pending(t), mid.out[|mid.out| - 1]);
    RestOccupied(w, false, mid.out, p, mid.writtenIdx);
    OccupiedAppend(w, false, mid.out, SkipTo(t.prevBound));
    RestOccupied(w, false, mid.out + [SkipTo(t.prevBound)], p, t.prevIdx);
  }

  lemma StepOccupied(w: World, who: bool, m: seq<Range>, i: nat, t: Turn, rep0: set<Id>, rep: set<Id>, limit: nat)
    requires Ready(w, who, m, i, t, rep0, rep, limit) && Occupied(w, !who, m) && Occupied(w, who, t.out)
    requires Step(Role(w, who, limit), t, m[i]).Going?
    ensures Occupied(w, who, Step(Role(w, who, limit), t, m[i]).turn.out)
  {
    hide Reach, Cut, BoundRank, Sorted, Top, Told, Safe, Shaped, Covered, Ascending, PrintReach, Print, Occupied, Step, Roomy, Fair,
         IdsIdentify, CollisionFree, SplitSpec, RestFrom, ListReply, FirstNotBefore, ShortPrefixes, Gapped;
    var p, own, k := Role(w, who, limit), Own(w, who), Reach(m[..i]);
    NextCut(w, who, m, i, t);
    var upper := Cut(own, Reach(m[..i + 1]));
    StepForm(p, t, m[i], upper);
    var t' := Step(p, t, m[i]).turn;
    PendingOccupied(w, who, t);
    if m[i].mode == FINGERPRINT && t'.out != t.out {
      BoundAhead(w, !who, rep0, m, i);
      PendingGapped(w, who, m, i, t, rep);
      if t'.closed {
        RestOccupied(w, who, t.out + Pending(t), p, if t.skip then t.prevIdx else t.writtenIdx);
      } else {
        OccupiedAt(w, !who, m, i);
        SplitOccupied(w, who, rep, t.out + Pending(t), k, m[i].bound);
      }
    } else if m[i].mode == IDLIST && !who {
      ListOccupied(w, p, t, m[i], upper);
    }
  }

  // -------------------------------------------------------- no Skip repeated

  /** Bounds ascend, or the list before a repeated Skip is the last of the message. */
  ghost predicate Intact(rs: seq<Range>) { Ascending(rs) || (|rs| >= 3 && rs[|rs| - 3].bound.ts == INFINITE) }

  lemma TopIsInfinite(bound: Bound)
    ensures BoundRank(bound) >= Top() ==> bound.ts == INFINITE
  {
    if bound.ts != INFINITE { BelowInfinity(bound); }
  }

  lemma BelowInfinity(bound: Bound)
    requires bound.ts != INFINITE
    ensures BoundRank(bound) < Top()
  {
    var id := Padded(bound.prefix);
    assert BoundRank(bound) == Rank(Item(bound.ts, id));
    BelowTop(Item(bound.ts, id));
  }

  /** A responder that closes on a list: only one at infinity may be empty. */
  lemma StepIntact(w: World, m: seq<Range>, i: nat, t: Turn, rep0: set<Id>, rep: set<Id>, limit: nat)
    requires Ready(w, false, m, i, t, rep0, rep, limit) && Occupied(w, true, m)
    requires Step(Role(w, false, limit), t, m[i]).Going?
    ensures var t' := Step(Role(w, false, limit), t, m[i]).turn; t'.closed ==> Intact(t'.out)
  {
    hide Reach, Cut, BoundRank, Sorted, Top, Told, Safe, Covered, Ascending, PrintReach, Print, Occupied, Step, Roomy, Fair,
         IdsIdentify, CollisionFree, SplitSpec, RestFrom, ListReply, FirstNotBefore, ShortPrefixes, Gapped, Overran;
    var p := Role(w, false, limit);
    NextCut(w, false, m, i, t);
    var upper := Cut(w.b, Reach(m[..i + 1]));
    StepForm(p, t, m[i], upper);
    if m[i].mode == FINGERPRINT {
      CloseSent(w, false, m, i, t, rep, limit);
    } else if m[i].mode == IDLIST {
      ListIntact(w, m, i, t, rep0, rep, limit);
    }
  }

  lemma ListIntact(w: World, m: seq<Range>, i: nat, t: Turn, rep0: set<Id>, rep: set<Id>, limit: nat)
    requires Ready(w, false, m, i, t, rep0, rep, limit) && Occupied(w, true, m) && m[i].mode == IDLIST
    ensures var o := Step(Role(w, false, limit), t, m[i]); o.Going? && (o.turn.closed ==> Intact(o.turn.out))
  {
    hide Reach, Cut, BoundRank, Sorted, Told, Safe, Covered, Ascending, PrintReach, Occupied, Step, Roomy, Fair,
         Sound, FirstNotBefore, Overran, Diff, ListedIds, ListReply, Finish, Intact;
    var p := Role(w, false, limit);
    SoundOwn(w, false);
    NextCut(w, false, m, i, t);
    BoundAhead(w, true, rep0, m, i);
    TheyListed(w, rep0, m, i);
    var upper := Cut(w.b, Reach(m[..i + 1]));
    StepIs(p, t, m[i], upper);
    var t1 := t.(tally := Diff(false, w.b[t.prevIdx..upper], IdSet(ListedIds(m[i].payload).value), t.tally));
    RoomyTally(p, t, t1.tally);
    assert Inv(w, false, m, i, t1, rep);
    ClosedIntact(w, m, i, t1, rep, limit);
  }

  lemma ClosedIntact(w: World, m: seq<Range>, i: nat, t: Turn, rep: set<Id>, limit: nat)
    requires Sound(w) && Inv(w, false, m, i, t, rep) && i < |m| && Ascending(m)
    requires Roomy(Role(w, false, limit), t) && |m[i].bound.prefix| <= 32 && (limit > 0 ==> limit >= MIN_FRAME)
    requires Occupied(w, true, m) && m[i].mode == IDLIST
    ensures var p := Role(w, false, limit);
      && t.prevIdx <= Cut(w.b, BoundRank(m[i].bound)) <= |w.b| && Fits(p, t)
      && var t' := Finish(p, t, ListReply(p, t, m[i], Cut(w.b, BoundRank(m[i].bound))), m[i].bound);
      t'.closed ==> Intact(t'.out)
  {
    hide Reach, Cut, BoundRank, Told, Safe, Covered, Ascending, PrintReach, Occupied, Roomy, Sound, Overran, ListReply, Finish, Gapped, Top;
    var p, upper := Role(w, false, limit), Cut(w.b, BoundRank(m[i].bound));
    ListTold(w, m, i, t, rep, limit);
    ListClosed(w, m, i, t, rep, limit);
    var mid := ListReply(p, t, m[i], upper);
    if !mid.full && t.skip && t.prevIdx >= mid.upper {
      OccupiedAt(w, true, m, i);
      TopIsInfinite(m[i].bound);
      ListLast(p, t, m[i], upper);
    }
  }

  /** Where the uncut list stands in an answer closed with a repeated Skip. */
  lemma ListLast(p: Party, t: Turn, r: Range, upper: nat)
    requires Fits(p, t) && t.prevIdx <= upper <= |p.items| && t.skip
    requires !ListReply(p, t, r, upper).full && r.bound.ts == INFINITE
    ensures var t' := Finish(p, t, ListReply(p, t, r, upper), r.bound); t'.closed ==> Intact(t'.out)
  {
    hide EncodedLen, IdListBytes, ListEnd, RestFrom, Ascending;
    var mid := ListReply(p, t, r, upper);
    var out := mid.out + [SkipTo(t.prevBound)] + [RestFrom(p, t.prevIdx)];
    assert out[|out| - 3] == mid.out[|mid.out| - 1];
  }

  // ----------------------------------------------------------- whole answers

  ghost predicate Tidy(w: World, who: bool, o: Outcome)
  {
    o.Going? && Occupied(w, who, o.turn.out) && (!who && o.turn.closed ==> Intact(o.turn.out))
  }

  lemma {:induction false} AfterTidy(w: World, who: bool, m: seq<Range>, n: nat, reported: set<Id>, rep0: set<Id>, limit: nat)
    requires Sound(w) && Sent(w, !who, rep0, m) && Occupied(w, !who, m) && n <= |m|
    requires (who ==> reported == rep0) && (limit > 0 ==> limit >= MIN_FRAME)
    ensures Tidy(w, who, After(Role(w, who, limit), reported, m, n))
  {
    hide Sound, Sent, At, Step, Occupied, Intact;
    if n == 0 {
      NothingOccupied(w, who);
    } else {
      AfterTidy(w, who, m, n - 1, reported, rep0, limit);
      AfterAt(w, who, m, n - 1, reported, rep0, limit);
      var t := After(Role(w, who, limit), reported, m, n - 1).turn;
      if !t.closed { TidyStep(w, who, m, n - 1, t, rep0, limit); }
    }
  }

  lemma NothingOccupied(w: World, who: bool)
    ensures Occupied(w, who, [])
  {
  }

  lemma TidyStep(w: World, who: bool, m: seq<Range>, i: nat, t: Turn, rep0: set<Id>, limit: nat)
    requires Sound(w) && Sent(w, !who, rep0, m) && Occupied(w, !who, m) && i < |m|
    requires (limit > 0 ==> limit >= MIN_FRAME) && !t.closed && Fits(Role(w, who, limit), t)
    requires At(w, who, m, i, Going(t), rep0, limit) && Tidy(w, who, Going(t))
    ensures Tidy(w, who, Step(Role(w, who, limit), t, m[i]))
  {
    hide Sound, Sent, Inv, Step, Occupied, Roomy, Told, Safe, Shaped, Intact, OnlyIds;
    var rep := if who then t.tally.reported else rep0;
    OneMore(w, who, m, i, t, rep0, limit);
    StepOccupied(w, who, m, i, t, rep0, rep, limit);
    if !who { StepIntact(w, m, i, t, rep0, rep, limit); }
  }

  lemma AnswerTidy(w: World, who: bool, m: seq<Range>, reported: set<Id>, rep0: set<Id>, limit: nat)
    requires Sound(w) && Sent(w, !who, rep0, m) && Occupied(w, !who, m)
    requires (who ==> reported == rep0) && (limit > 0 ==> limit >= MIN_FRAME)
    ensures var o := Answer(Role(w, who, limit), reported, m);
      o.Going? && Occupied(w, who, o.turn.out) && (!who ==> Intact(o.turn.out))
  {
    hide Sound, Sent, After, Occupied, Roomy, Told, Safe, Ascending, Covered;
    AfterTidy(w, who, m, |m|, reported, rep0, limit);
    AfterAt(w, who, m, |m|, reported, rep0, limit);
  }

  // ----------------------------------------------------------- whole sessions

  lemma FirstOccupied(w: World)
    requires Sound(w)
    ensures Occupied(w, true, First(w).msg)
  {
    hide Sorted, IdsIdentify, CollisionFree, Told, Reach, Cut, BoundRank, Top, SplitSpec, Occupied, Open, Gapped;
    CutZero(w.a);
    CutTop(w.a);
    InfinityRank();
    EmptyTold(w);
    GappedNothing(w);
    NothingOccupied(w, true);
    SplitOccupied(w, true, {}, [], 0, Infinity);
    assert [] + First(w).msg == First(w).msg;
  }

  lemma RoundOccupied(w: World, l: Limits, s: State)
    requires Sound(w) && Allowed(l) && Good(w, s) && Occupied(w, true, s.msg)
    ensures Round(w, l, s).Some? && Occupied(w, true, Round(w, l, s).value.msg)
    ensures ReplyTo(w, l, s).Going? && Intact(ReplyTo(w, l, s).turn.out)
  {
    hide Sound, Sent, Answer, Fair, Occupied, Intact;
    var rep := s.tally.reported;
    AnswerSent(w, false, s.msg, {}, rep, l.b);
    AnswerTidy(w, false, s.msg, {}, rep, l.b);
    var reply := ReplyTo(w, l, s).turn.out;
    AnswerTidy(w, true, reply, rep, rep, l.a);
  }

  /** In every run, for every limit: what is listed before infinity is occupied, and no reply repeats a Skip behind a finite bound. */
  lemma {:induction false} RunOccupied(w: World, l: Limits, n: nat)
    requires Sound(w) && Allowed(l)
    ensures Rounds(w, l, n).Some? && Occupied(w, true, Rounds(w, l, n).value.msg)
    ensures var o := ReplyTo(w, l, Rounds(w, l, n).value); o.Going? && Intact(o.turn.out)
  {
    hide Sound, Good, Round, Occupied, ReplyTo, Intact, First;
    RunSafe(w, l, n);
    if n == 0 {
      FirstOccupied(w);
    } else {
      RunOccupied(w, l, n - 1);
      RunSafe(w, l, n - 1);
      RoundOccupied(w, l, Rounds(w, l, n - 1).value);
    }
    RoundOccupied(w, l, Rounds(w, l, n).value);
  }
}
