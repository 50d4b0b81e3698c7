/**
  * What every answer keeps (nip77/reconcile.go:18-146), for any frame limit:
  * a message that tells the truth about its sender and leaves every difference
  * reported or open is answered by another such message.
  */
module Safety {
  import opened Words
  import opened Items
  import opened Fingerprint
  import opened Codec
  import opened Split
  import opened Frame
  import opened Reconcile
  import opened FrameBound
  import opened IdDiff
  import opened Telling

  // -------------------------------------------------------------- hypotheses

  ghost predicate Holds(w: World, x: Item) { x in w.a || x in w.b }

  /** An id names one item. */
  ghost predicate IdsIdentify(w: World)
  {
    forall x, y :: Holds(w, x) && Holds(w, y) && x.id == y.id ==> x == y
  }

  /**
    * No two different slices that are ever compared share a fingerprint: those of a
    * range between ranks k and k', of which the initiator may pass over the start.
    */
  ghost predicate CollisionFree(w: World)
  {
    forall k: nat, k': nat, from: nat :: k <= k' ==> Tells(w, k, k', from)
  }

  ghost predicate Tells(w: World, k: nat, k': nat, from: nat)
  {
    Cut(w.a, k) <= from <= Cut(w.a, k') && Cut(w.b, k) <= Cut(w.b, k')
    && Print(w.hash, w.a[from..Cut(w.a, k')]) == Print(w.hash, w.b[Cut(w.b, k)..Cut(w.b, k')])
    ==> w.a[from..Cut(w.a, k')] == w.b[Cut(w.b, k)..Cut(w.b, k')]
  }

  ghost predicate Sound(w: World)
  {
    && Sorted(w.a) && Sorted(w.b) && 32 * |w.a| < TWO_64 && 32 * |w.b| < TWO_64
    && IdsIdentify(w) && CollisionFree(w)
  }

  ghost function Role(w: World, who: bool, limit: nat): Party { Party(w.hash, Own(w, who), who, limit) }

  // ---------------------------------------------------------- what is kept

  /** Every difference ranked below k is reported or open. */
  ghost predicate Covered(w: World, out: seq<Range>, k: nat, rep: set<Id>)
  {
    forall x :: Odd(w, x) && Rank(x) < k ==> x.id in rep || Open(out, x)
  }

  ghost predicate Safe(w: World, rs: seq<Range>, rep: set<Id>)
  {
    forall x :: Odd(w, x) ==> x.id in rep || Open(rs, x)
  }

  /** The furthest bound of a Fingerprint range. */
  ghost function PrintReach(rs: seq<Range>): nat
  {
    if rs == [] then 0
    else Max(PrintReach(rs[..|rs| - 1]), if rs[|rs| - 1].mode == FINGERPRINT then BoundRank(rs[|rs| - 1].bound) else 0)
  }

  /**
    * What a responder's message keeps of bound order: a Fingerprint's
    * predecessor, whose bound the answer may skip to, lies beyond every earlier
    * Fingerprint.
    */
  ghost predicate Orderly(rs: seq<Range>)
  {
    rs == [] ||
    var n := |rs| - 1;
    Orderly(rs[..n]) && (rs[n].mode == FINGERPRINT && n > 0 ==> PrintReach(rs[..n]) <= BoundRank(rs[n - 1].bound))
  }

  /** The last range is not a Skip: a pending Skip is only written together with what follows it. */
  ghost predicate LastOpen(rs: seq<Range>) { rs == [] || rs[|rs| - 1].mode != SKIP }

  /**
    * The one form in which bounds fall back: a Skip, an empty id list that overran
    * the frame, the same Skip once more, and the closing Fingerprint.
    */
  ghost predicate Overran(rs: seq<Range>)
  {
    var n := |rs|;
    && n >= 5 && Ascending(rs[..n - 2]) && LastOpen(rs[..n - 4])
    && rs[n - 4].mode == SKIP && rs[n - 3].mode == IDLIST && rs[n - 2] == rs[n - 4]
    && rs[n - 1].mode == FINGERPRINT && rs[n - 1].bound == Infinity
  }

  /** An initiator's bounds always ascend, a responder's except when it overran. */
  ghost predicate Shaped(who: bool, rs: seq<Range>) { Ascending(rs) || (!who && Overran(rs)) }

  /** A message as the party who may send it, rep being what the initiator has reported. */
  ghost predicate Sent(w: World, who: bool, rep: set<Id>, rs: seq<Range>)
  {
    Told(w, who, rep, rs) && Safe(w, rs, rep) && Shaped(who, rs) && ShortPrefixes(rs)
  }

  /** The answer to m after i ranges. */
  ghost predicate Inv(w: World, who: bool, m: seq<Range>, i: nat, t: Turn, rep: set<Id>)
  {
    && i <= |m| && !t.closed
    && t.prevIdx == Cut(Own(w, who), Reach(m[..i]))
    && (if i == 0 then !t.skip else t.prevBound == m[i - 1].bound)
    && Reach(t.out) <= Reach(m[..i]) && (t.skip || Reach(t.out) == Reach(m[..i]))
    && t.writtenIdx == Cut(Own(w, who), Reach(t.out))
    && Told(w, who, rep, t.out) && Covered(w, t.out, Reach(m[..i]), rep) && Ascending(t.out)
    && LastOpen(t.out) && (who ==> Reach(t.out) <= PrintReach(m[..i]))
  }

  // ------------------------------------------------------------------- order

  lemma PrintReachAppend(rs: seq<Range>, r: Range)
    ensures PrintReach(rs + [r]) == Max(PrintReach(rs), if r.mode == FINGERPRINT then BoundRank(r.bound) else 0)
  {
    hide BoundRank;
    assert (rs + [r])[..|rs|] == rs;
  }

  lemma OrderlyAppend(rs: seq<Range>, r: Range)
    ensures Orderly(rs + [r]) <==>
      Orderly(rs) && (r.mode == FINGERPRINT && rs != [] ==> PrintReach(rs) <= BoundRank(rs[|rs| - 1].bound))
  {
    hide BoundRank, PrintReach;
    assert (rs + [r])[..|rs|] == rs;
  }

  lemma {:induction false} OrderlyAt(rs: seq<Range>, i: nat)
    requires Orderly(rs) && 0 < i < |rs| && rs[i].mode == FINGERPRINT
    ensures PrintReach(rs[..i]) <= BoundRank(rs[i - 1].bound)
    decreases |rs|
  {
    hide BoundRank, PrintReach;
    var n := |rs| - 1;
    if i < n {
      OrderlyAt(rs[..n], i);
      assert rs[..n][..i] == rs[..i];
    }
  }

  lemma {:induction false} PrintReachWithin(rs: seq<Range>)
    ensures PrintReach(rs) <= Reach(rs)
  {
    hide BoundRank;
    if rs != [] { PrintReachWithin(rs[..|rs| - 1]); }
  }

  lemma {:induction false} AscendingAt(rs: seq<Range>, i: nat)
    requires Ascending(rs) && i < |rs|
    ensures Reach(rs[..i + 1]) == BoundRank(rs[i].bound)
    decreases |rs|
  {
    hide BoundRank, Reach;
    var n := |rs| - 1;
    if i < n {
      AscendingAt(rs[..n], i);
      assert rs[..n][..i + 1] == rs[..i + 1];
    } else {
      ReachPrefix(rs, n);
    }
  }

  lemma {:induction false} AscendingIsOrderly(rs: seq<Range>)
    requires Ascending(rs)
    ensures Orderly(rs)
  {
    hide BoundRank, Reach, PrintReach;
    if rs != [] {
      var n := |rs| - 1;
      AscendingIsOrderly(rs[..n]);
      if n > 0 {
        PrintReachWithin(rs[..n]);
        AscendingAt(rs[..n], n - 1);
        assert rs[..n][..n] == rs[..n];
      }
    }
  }

  lemma OverranOrderly(rs: seq<Range>)
    requires Overran(rs)
    ensures Orderly(rs)
  {
    hide BoundRank, Reach, PrintReach, Ascending, Orderly;
    var n := |rs|;
    var base := rs[..n - 3];
    assert rs[..n - 2] == base + [rs[n - 3]] && rs[..n - 1] == rs[..n - 2] + [rs[n - 2]] && rs == rs[..n - 1] + [rs[n - 1]];
    AscendingIsOrderly(rs[..n - 2]);
    OrderlyAppend(rs[..n - 2], rs[n - 2]);
    OrderlyAppend(rs[..n - 1], rs[n - 1]);
    PrintReachAppend(base, rs[n - 3]);
    PrintReachAppend(rs[..n - 2], rs[n - 2]);
    PrintReachWithin(base);
    AscendingAt(rs[..n - 2], n - 4);
    assert rs[..n - 2][..n - 3] == base;
  }

  lemma ShapedOrderly(rs: seq<Range>)
    requires Shaped(false, rs)
    ensures Orderly(rs)
  {
    hide Ascending, Orderly, Overran;
    if Ascending(rs) { AscendingIsOrderly(rs); } else { OverranOrderly(rs); }
  }

  // ------------------------------------------------------------------ covers

  lemma CoveredExtends(w: World, out: seq<Range>, more: seq<Range>, k: nat, rep: set<Id>)
    requires Covered(w, out, k, rep)
    ensures Covered(w, out + more, k, rep)
  {
    hide Rank, Open, Odd;
    forall x | Odd(w, x) && Rank(x) < k ensures x.id in rep || Open(out + more, x) {
      if x.id !in rep { OpenExtends(out, more, x); }
    }
  }

  lemma CoveredRegion(w: World, out: seq<Range>, more: seq<Range>, k: nat, k': nat, rep: set<Id>)
    requires Covered(w, out, k, rep) && Reach(out) <= k && more != [] && NoSkips(more) && k' <= Reach(out + more)
    ensures Covered(w, out + more, k', rep)
  {
    hide Rank, Open, Odd, Reach, NoSkips;
    CoveredExtends(w, out, more, k, rep);
    forall x | Odd(w, x) && Rank(x) < k' ensures x.id in rep || Open(out + more, x) {
      if k <= Rank(x) { OpenRegion(out, more, x); }
    }
  }

  /** Past the reach of out, the differences covered so far are all reported. */
  lemma GapKnown(w: World, who: bool, rep: set<Id>, out: seq<Range>, k': nat, k: nat)
    requires Sorted(Own(w, who)) && Covered(w, out, k, rep) && Reach(out) <= k' <= k && (who || k' == k)
    ensures Cut(Own(w, who), k') <= Cut(Own(w, who), k)
    ensures Known(w, who, rep, Cut(Own(w, who), k'), Cut(Own(w, who), k))
  {
    hide Rank, Open, Odd, Reach, Cut, Sorted, Own;
    var own := Own(w, who);
    CutMonotone(own, k', k);
    forall i | Cut(own, k') <= i < Cut(own, k) && Odd(w, own[i]) ensures own[i].id in rep {
      CutSplits(own, k', i);
      CutSplits(own, k, i);
      if Open(out, own[i]) { OpenWithin(out, own[i]); }
    }
  }

  /** Writing the pending Skip leaves us right before the range, with nothing forgotten. */
  lemma PendingGapped(w: World, who: bool, m: seq<Range>, i: nat, t: Turn, rep: set<Id>)
    requires Sorted(Own(w, who)) && Inv(w, who, m, i, t, rep) && i < |m| && Shaped(!who, m)
    requires who ==> m[i].mode == FINGERPRINT
    ensures var out := t.out + Pending(t); var k := Reach(m[..i]);
      && Gapped(w, who, rep, out, k) && Ascending(out) && Covered(w, out, k, rep)
      && (!who ==> Reach(out) == k)
  {
    hide Rank, Open, Odd, Reach, Cut, Sorted, Told, Ascending, Covered, Orderly, PrintReach, BoundRank, Known, Overran;
    var k := Reach(m[..i]);
    var skip := SkipTo(t.prevBound);
    CoveredExtends(w, t.out, Pending(t), k, rep);
    if t.skip {
      ReachPrefix(m, i - 1);
      ReachAppend(t.out, skip);
      ToldAppend(w, who, rep, t.out, skip);
      AscendingAppend(t.out, skip);
      if who { ShapedOrderly(m); OrderlyAt(m, i); } else { AscendingAt(m, i - 1); }
      GapKnown(w, who, rep, t.out, Reach(t.out + [skip]), k);
    } else {
      assert t.out + Pending(t) == t.out;
      GapKnown(w, who, rep, t.out, k, k);
    }
  }

  // ---------------------------------------------------------------- closing

  /** Closing with one fingerprint of everything from the cut at k on. */
  lemma RestSent(w: World, who: bool, rep: set<Id>, out: seq<Range>, k: nat, limit: nat)
    requires Sorted(Own(w, who)) && Gapped(w, who, rep, out, k) && Covered(w, out, k, rep) && k <= Top()
    ensures var out' := out + [RestFrom(Role(w, who, limit), Cut(Own(w, who), k))];
      Told(w, who, rep, out') && Safe(w, out', rep) && (Ascending(out) ==> Ascending(out'))
  {
    hide Rank, Open, Odd, Reach, Cut, Sorted, Told, Ascending, BoundRank, Known, Print, Top, Own;
    var own := Own(w, who);
    var rest := RestFrom(Role(w, who, limit), Cut(own, k));
    CutTop(own);
    InfinityRank();
    assert own[Cut(own, k)..] == own[Cut(own, k)..|own|];
    DescribeNext(w, who, rep, out, k, rest);
    CoveredRegion(w, out, [rest], k, Top(), rep);
    forall x | Odd(w, x) ensures x.id in rep || Open(out + [rest], x) {
      BelowTop(x);
    }
  }

  lemma InfinityRank() ensures BoundRank(Infinity) == Top() { }

  lemma BelowTop(x: Item)
    ensures Rank(x) < Top()
  {
    BeforeIsRank(x, Infinity);
  }

  lemma {:induction false} ReachAtMostTop(rs: seq<Range>)
    ensures Reach(rs) <= Top()
  {
    hide BoundRank, Top;
    if rs != [] {
      ReachAtMostTop(rs[..|rs| - 1]);
      BoundAtMostTop(rs[|rs| - 1].bound);
    }
  }

  /** Closing instead of writing a range's reply: the pending Skip, then the rest. */
  lemma CloseSent(w: World, who: bool, m: seq<Range>, i: nat, t: Turn, rep: set<Id>, limit: nat)
    requires Sorted(Own(w, who)) && Inv(w, who, m, i, t, rep) && i < |m| && Shaped(!who, m)
    requires who ==> m[i].mode == FINGERPRINT
    ensures var from := if t.skip then t.prevIdx else t.writtenIdx;
      var out := t.out + Pending(t) + [RestFrom(Role(w, who, limit), from)];
      Told(w, who, rep, out) && Safe(w, out, rep) && Ascending(out) && Shaped(who, out)
  {
    hide Rank, Open, Odd, Reach, Cut, Sorted, Told, Ascending, Covered, Orderly, PrintReach, BoundRank, Known, Print, Gapped, RestFrom;
    PendingGapped(w, who, m, i, t, rep);
    ReachAtMostTop(m[..i]);
    RestSent(w, who, rep, t.out + Pending(t), Reach(m[..i]), limit);
  }

  // ---------------------------------------------------------- splitting reply

  /** The split of a mismatched range, after the pending Skip, covers the range. */
  lemma SplitInv(w: World, who: bool, m: seq<Range>, i: nat, t: Turn, rep: set<Id>, tally: Tally)
    requires Sorted(Own(w, who)) && Inv(w, who, m, i, t, rep) && i < |m| && Shaped(!who, m)
    requires m[i].mode == FINGERPRINT && Reach(m[..i]) <= BoundRank(m[i].bound)
    ensures var own, k' := Own(w, who), BoundRank(m[i].bound);
      && Reach(m[..i + 1]) == k' && t.prevIdx <= Cut(own, k')
      && var o := Pending(t) + SplitSpec(w.hash, own, t.prevIdx, Cut(own, k'), m[i].bound);
      Inv(w, who, m, i + 1, Turn(Cut(own, k'), m[i].bound, Cut(own, k'), false, t.out + o, tally, false), rep)
  {
    hide Rank, Open, Odd, Reach, Cut, Sorted, Told, Ascending, Covered, Orderly, PrintReach, BoundRank, Known, SplitSpec, Own, NoSkips;
    var own, k, k' := Own(w, who), Reach(m[..i]), BoundRank(m[i].bound);
    ReachPrefix(m, i);
    PendingGapped(w, who, m, i, t, rep);
    var out := t.out + Pending(t);
    SplitTold(w, who, rep, out, k, m[i].bound);
    var split := SplitSpec(w.hash, own, Cut(own, k), Cut(own, k'), m[i].bound);
    CoveredRegion(w, out, split, k, k', rep);
    assert t.out + (Pending(t) + split) == out + split;
    LastOpenJoin(out, split);
    assert m[..i + 1] == m[..i] + [m[i]];
    PrintReachAppend(m[..i], m[i]);
  }

  lemma LastOpenJoin(out: seq<Range>, more: seq<Range>)
    requires more != [] && NoSkips(more)
    ensures LastOpen(out + more)
  {
    assert (out + more)[|out + more| - 1] == more[|more| - 1];
  }

  // ------------------------------------------------------------ settled ranges

  /** Every difference inside range i is reported. */
  ghost predicate Cleared(w: World, m: seq<Range>, i: nat, rep: set<Id>)
    requires i < |m|
  {
    forall x :: Odd(w, x) && Reach(m[..i]) <= Rank(x) < Reach(m[..i + 1]) ==> x.id in rep
  }

  lemma SettleInv(w: World, who: bool, m: seq<Range>, i: nat, t: Turn, rep: set<Id>, rep': set<Id>, tally: Tally)
    requires Sorted(Own(w, who)) && Inv(w, who, m, i, t, rep) && i < |m| && rep <= rep' && Cleared(w, m, i, rep')
    ensures Inv(w, who, m, i + 1,
                Turn(Cut(Own(w, who), Reach(m[..i + 1])), m[i].bound, t.writtenIdx, true, t.out, tally, false), rep')
  {
    hide Rank, Open, Odd, Reach, Cut, Sorted, Told, Ascending, Orderly, PrintReach, BoundRank, Known, Own;
    ReachPrefix(m, i);
    ToldMonotone(w, who, rep, rep', t.out);
    assert m[..i + 1] == m[..i] + [m[i]];
    PrintReachAppend(m[..i], m[i]);
  }

  /** A Skip range holds no unreported difference. */
  lemma SkipClears(w: World, m: seq<Range>, i: nat, rep: set<Id>)
    requires i < |m| && m[i].mode == SKIP && Safe(w, m, rep)
    ensures Cleared(w, m, i, rep)
  {
    hide Rank, Open, Odd, Reach;
    forall x | Odd(w, x) && Reach(m[..i]) <= Rank(x) < Reach(m[..i + 1]) ensures x.id in rep {
      if Open(m, x) { OpenMode(m, i, x); }
    }
  }

  /** Nor does a range whose fingerprint matches ours. */
  lemma MatchClears(w: World, who: bool, m: seq<Range>, i: nat, rep: set<Id>)
    requires Sound(w) && i < |m| && m[i].mode == FINGERPRINT && Told(w, !who, rep, m)
    requires Reach(m[..i]) <= Reach(m[..i + 1])
    requires Cut(Own(w, who), Reach(m[..i])) <= Cut(Own(w, who), Reach(m[..i + 1]))
    requires Print(w.hash, Own(w, who)[Cut(Own(w, who), Reach(m[..i]))..Cut(Own(w, who), Reach(m[..i + 1]))]) == m[i].payload
    ensures Cleared(w, m, i, rep)
  {
    hide Rank, Reach, Cut, Sorted, Told, BoundRank, Print, IdsIdentify, IdListBytes;
    var own, other := Own(w, who), Own(w, !who);
    var k, k' := Reach(m[..i]), Reach(m[..i + 1]);
    ToldAt(w, !who, rep, m, i);
    ReachPrefix(m, i);
    var from: nat :| Describes(w, !who, rep, k, m[i], from);
    assert Tells(w, k, k', if who then Cut(w.a, k) else from);
    CutMonotone(w.b, k, k');
    assert own[Cut(own, k)..Cut(own, k')] == other[from..Cut(other, k')];
    forall x | Odd(w, x) && k <= Rank(x) < k' ensures x.id in rep {
      SliceMembers(own, k, k', x);
      SliceMembers(other, k, k', x);
      if x.id !in rep { SameSlice(w, who, rep, k, k', from, x); }
    }
  }

  /** With the slices equal, what only the other side holds was passed over in silence. */
  lemma SameSlice(w: World, who: bool, rep: set<Id>, k: nat, k': nat, from: nat, x: Item)
    requires Cut(Own(w, who), k) <= Cut(Own(w, who), k')
    requires Cut(Own(w, !who), k) <= from <= Cut(Own(w, !who), k')
    requires Own(w, who)[Cut(Own(w, who), k)..Cut(Own(w, who), k')] == Own(w, !who)[from..Cut(Own(w, !who), k')]
    requires x in Own(w, who)[Cut(Own(w, who), k)..Cut(Own(w, who), k')] <==> x in Own(w, who)
    requires x in Own(w, !who)[Cut(Own(w, !who), k)..Cut(Own(w, !who), k')] <==> x in Own(w, !who)
    requires Odd(w, x) && Known(w, !who, rep, Cut(Own(w, !who), k), from)
    ensures x.id in rep
  {
    hide Cut;
    var other := Own(w, !who);
    var lo, hi := Cut(other, k), Cut(other, k');
    if x in other {
      var j :| lo <= j < hi && other[j] == x by { InSlice(other, lo, hi, x); }
      SliceAt(other, from, hi, j);
    }
    InSlice(other, from, hi, x);
  }

  lemma SliceAt(s: seq<Item>, lo: nat, hi: nat, j: nat)
    requires lo <= hi <= |s| && j < |s|
    ensures lo <= j < hi ==> s[j] in s[lo..hi]
  {
    if lo <= j < hi { assert s[lo..hi][j - lo] == s[j]; }
  }

  lemma InSlice(s: seq<Item>, lo: nat, hi: nat, x: Item)
    requires lo <= hi <= |s|
    ensures x in s[lo..hi] ==> x in s && exists j :: lo <= j < hi && s[j] == x
  {
    if x in s[lo..hi] {
      var j :| 0 <= j < hi - lo && s[lo..hi][j] == x;
      assert s[lo + j] == x;
    }
  }

  /** What a tally has gained since rep0: each new id once, ours to have and theirs to need. */
  ghost predicate Fair(w: World, rep0: set<Id>, t: Tally)
  {
    && rep0 <= t.reported
    && multiset(t.have) + t.need == multiset(t.reported - rep0)
    && (forall id :: id in multiset(t.have) ==> id in OnlyIds(w.a, w.b))
    && (forall id :: id in t.need ==> id in OnlyIds(w.b, w.a))
  }

  /** The ids of the items of s that t lacks. */
  ghost function OnlyIds(s: seq<Item>, t: seq<Item>): set<Id> { set x | x in s && x !in t :: x.id }

  ghost predicate Between(s: seq<Item>, k: nat, k': nat, slice: seq<Item>)
  {
    forall x :: x in slice <==> x in s && k <= Rank(x) < k'
  }

  lemma SliceBetween(s: seq<Item>, k: nat, k': nat)
    requires Sorted(s) && k <= k'
    ensures Cut(s, k) <= Cut(s, k')
    ensures Between(s, k, k', s[Cut(s, k)..Cut(s, k')])
  {
    hide Rank, Cut, Sorted;
    CutMonotone(s, k, k');
    forall x: Item ensures x in s[Cut(s, k)..Cut(s, k')] <==> x in s && k <= Rank(x) < k' {
      SliceMembers(s, k, k', x);
    }
  }

  /** Ids listed on one side only belong to items held by that side only. */
  lemma OnlyHere(w: World, who: bool, k: nat, k': nat, ours: seq<Item>, theirs: seq<Item>)
    requires IdsIdentify(w) && Between(Own(w, who), k, k', ours) && Between(Own(w, !who), k, k', theirs)
    ensures IdsOf(ours) - IdsOf(theirs) <= OnlyIds(Own(w, who), Own(w, !who))
    ensures forall x :: x in Own(w, who) && x !in Own(w, !who) && k <= Rank(x) < k' ==> x.id in IdsOf(ours) - IdsOf(theirs)
  {
    hide Rank;
    forall id | id in IdsOf(ours) - IdsOf(theirs) ensures id in OnlyIds(Own(w, who), Own(w, !who)) {
      var x :| x in ours && x.id == id;
      assert x in theirs ==> id in IdsOf(theirs);
    }
    forall x | x in Own(w, who) && x !in Own(w, !who) && k <= Rank(x) < k'
      ensures x.id in IdsOf(ours) - IdsOf(theirs)
    {
      assert x in ours;
      IdFinds(w, x, theirs);
    }
  }

  lemma IdFinds(w: World, x: Item, theirs: seq<Item>)
    requires IdsIdentify(w) && Holds(w, x) && forall y :: y in theirs ==> Holds(w, y)
    ensures x.id in IdsOf(theirs) <==> x in theirs
  {
    if x.id in IdsOf(theirs) {
      var y :| y in theirs && y.id == x.id;
      assert Holds(w, y);
    }
  }

  lemma FairDiff(w: World, rep0: set<Id>, ours: seq<Item>, ids: set<Id>, t: Tally)
    requires Fair(w, rep0, t) && DistinctIds(ours)
    requires IdsOf(ours) - ids <= OnlyIds(w.a, w.b) && ids - IdsOf(ours) <= OnlyIds(w.b, w.a)
    ensures Fair(w, rep0, Diff(true, ours, ids, t))
  {
    hide Diff, OnlyIds, IdsOf, DistinctIds;
    DiffClosed(ours, ids, t);
    var mine, theirs := (IdsOf(ours) - ids) - t.reported, (ids - IdsOf(ours)) - t.reported;
    var t' := Diff(true, ours, ids, t);
    assert t'.reported - rep0 == (t.reported - rep0) + (mine + theirs);
    assert multiset(t'.reported - rep0) == multiset(t.reported - rep0) + (multiset(mine) + multiset(theirs));
  }

  /** The initiator clears a listed range by reporting it, and reports nothing else. */
  lemma ListClears(w: World, m: seq<Range>, i: nat, rep0: set<Id>, rep: set<Id>, t: Tally)
    requires Sound(w) && i < |m| && m[i].mode == IDLIST && Told(w, false, rep, m) && Fair(w, rep0, t)
    ensures var k, k' := Reach(m[..i]), Reach(m[..i + 1]);
      && k <= k' && Cut(w.a, k) <= Cut(w.a, k')
      && ListedIds(m[i].payload).Some?
      && var t' := Diff(true, w.a[Cut(w.a, k)..Cut(w.a, k')], IdSet(ListedIds(m[i].payload).value), t);
      Cleared(w, m, i, t'.reported) && Fair(w, rep0, t') && t.reported <= t'.reported
  {
    hide Rank, Reach, Cut, Sorted, Told, BoundRank, Print, Diff, IdListBytes, ListedIds, IdsOf, OnlyIds, DistinctIds,
         Between, CollisionFree, Fair, Known, Odd;
    var k, k' := Reach(m[..i]), Reach(m[..i + 1]);
    ToldAt(w, false, rep, m, i);
    ReachPrefix(m, i);
    var from: nat :| Describes(w, false, rep, k, m[i], from);
    SliceBetween(w.a, k, k');
    SliceBetween(w.b, k, k');
    var ours, theirs := w.a[Cut(w.a, k)..Cut(w.a, k')], w.b[Cut(w.b, k)..Cut(w.b, k')];
    ExactList(w, rep, k, m[i], from);
    IdListRoundTrip(theirs);
    ListedSet(theirs);
    OnlyHere(w, true, k, k', ours, theirs);
    OnlyHere(w, false, k, k', theirs, ours);
    SliceDistinct(w, k, k');
    FairDiff(w, rep0, ours, IdsOf(theirs), t);
    DiffClosed(ours, IdsOf(theirs), t);
    OddCleared(w, m, i, IdsOf(ours) - IdsOf(theirs), IdsOf(theirs) - IdsOf(ours), Diff(true, ours, IdsOf(theirs), t).reported);
  }

  lemma ExactList(w: World, rep: set<Id>, before: nat, r: Range, from: nat)
    requires Describes(w, false, rep, before, r, from) && r.mode == IDLIST
    ensures before <= BoundRank(r.bound) && Cut(w.b, before) <= Cut(w.b, BoundRank(r.bound))
    ensures r.payload == IdListBytes(w.b[Cut(w.b, before)..Cut(w.b, BoundRank(r.bound))])
  {
    hide BoundRank, Cut, IdListBytes, Odd;
  }

  lemma ListedSet(items: seq<Item>)
    ensures IdSet(Ids(items)) == IdsOf(items)
  {
    forall id: Id ensures id in IdSet(Ids(items)) <==> id in IdsOf(items) {
      if id in IdsOf(items) {
        var x :| x in items && x.id == id;
        var i :| 0 <= i < |items| && items[i] == x;
        assert Ids(items)[i] == id;
      }
    }
  }

  lemma SliceDistinct(w: World, k: nat, k': nat)
    requires IdsIdentify(w) && Sorted(w.a) && Cut(w.a, k) <= Cut(w.a, k')
    ensures DistinctIds(w.a[Cut(w.a, k)..Cut(w.a, k')])
  {
    hide Cut, Sorted, Rank;
    var lo := Cut(w.a, k);
    var s := w.a[lo..Cut(w.a, k')];
    forall i, j | 0 <= i < j < |s| ensures s[i].id != s[j].id {
      RankLess(w.a, lo + i, lo + j);
      assert Holds(w, s[i]) && Holds(w, s[j]);
    }
  }

  lemma OddCleared(w: World, m: seq<Range>, i: nat, here: set<Id>, there: set<Id>, rep: set<Id>)
    requires i < |m| && here <= rep && there <= rep
    requires forall x :: x in w.a && x !in w.b && Reach(m[..i]) <= Rank(x) < Reach(m[..i + 1]) ==> x.id in here
    requires forall x :: x in w.b && x !in w.a && Reach(m[..i]) <= Rank(x) < Reach(m[..i + 1]) ==> x.id in there
    ensures Cleared(w, m, i, rep)
  {
    hide Rank, Reach;
  }

  // --------------------------------------------------------------- list reply

  /** A responder's list, cut or not, is told truly up to its own bound. */
  lemma ListTold(w: World, m: seq<Range>, i: nat, t: Turn, rep: set<Id>, limit: nat)
    requires Sound(w) && Inv(w, false, m, i, t, rep) && i < |m| && Ascending(m)
    ensures var k, k' := Reach(m[..i]), BoundRank(m[i].bound);
      && Reach(m[..i + 1]) == k' && t.prevIdx <= Cut(w.b, k') <= |w.b|
      && var mid := ListReply(Role(w, false, limit), t, m[i], Cut(w.b, k'));
      && mid.o == [] && !mid.skip && mid.upper == mid.writtenIdx == Cut(w.b, Reach(mid.out)) && mid.full == (mid.upper < Cut(w.b, k'))
      && (!mid.full ==> Reach(mid.out) == k')
      && Gapped(w, false, rep, mid.out, Reach(mid.out)) && Covered(w, mid.out, Reach(mid.out), rep)
      && Ascending(mid.out) && LastOpen(mid.out)
  {
    hide Rank, Open, Odd, Reach, Cut, Sorted, Told, Ascending, Covered, BoundRank, Known, IdListBytes, IdsIdentify,
         CollisionFree, EncodedLen, Gapped;
    var k, k' := Reach(m[..i]), BoundRank(m[i].bound);
    AscendingAt(m, i);
    ReachPrefix(m, i);
    CutMonotone(w.b, k, k');
    PendingGapped(w, false, m, i, t, rep);
    var out := t.out + Pending(t);
    var e := ListEnd(limit, EncodedLen(out), t.prevIdx, t.prevIdx, Cut(w.b, k'));
    var bound := if e < Cut(w.b, k') then Bound(w.b[e].ts, w.b[e].id) else m[i].bound;
    if e < Cut(w.b, k') {
      FiniteTs(w.b, e);
      ItemBoundRank(w.b[e]);
      CutSplits(w.b, k, e);
      CutAtItem(w.b, e);
    }
    var list := Range(bound, IDLIST, IdListBytes(w.b[t.prevIdx..e]));
    DescribeNext(w, false, rep, out, k, list);
    GappedReach(w, false, rep, out, k);
    CoveredRegion(w, out, [list], k, BoundRank(bound), rep);
  }

  lemma GappedReach(w: World, who: bool, rep: set<Id>, out: seq<Range>, k: nat)
    requires Gapped(w, who, rep, out, k)
    ensures Reach(out) <= k && Told(w, who, rep, out)
  {
    hide Reach, Told, Cut, Known;
  }

  lemma CutAtItem(items: seq<Item>, e: nat)
    requires Sorted(items) && e < |items|
    ensures Cut(items, Rank(items[e])) == e
  {
    hide Rank, Sorted;
    if e > 0 { RankLess(items, e - 1, e); }
    CutIs(items, Rank(items[e]), e);
  }

  /** A list with some id in it, or one that is first in its frame, does not overrun it. */
  lemma ListFits(p: Party, t: Turn, r: Range, upper: nat)
    requires Roomy(p, t) && !t.closed && t.prevIdx <= upper <= |p.items| && |r.bound.prefix| <= 32
    requires p.limit > 0 ==> p.limit >= MIN_FRAME
    ensures var m := ListReply(p, t, r, upper);
      t.prevIdx < m.upper || t.out == [] ==> !Exceeded(p.limit, EncodedLen(m.out))
  {
    EmptyLen();
    hide EncodedLen, IdListBytes;
    var base := EncodedLen(t.out + Pending(t));
    AppendPending(p, t, 32);
    var e := ListEnd(p.limit, base, t.prevIdx, t.prevIdx, upper);
    var ids := p.items[t.prevIdx..e];
    var list := Range(if e < upper then Bound(p.items[e].ts, p.items[e].id) else r.bound, IDLIST, IdListBytes(ids));
    ListPayload(ids);
    AppendShort(t.out + Pending(t), list, |list.payload|, 32);
  }

  /** The closing of a responder's list: the rest after a cut, or after an empty list that overran. */
  lemma ListClosed(w: World, m: seq<Range>, i: nat, t: Turn, rep: set<Id>, limit: nat)
    requires Sound(w) && Inv(w, false, m, i, t, rep) && i < |m| && Ascending(m)
    requires Roomy(Role(w, false, limit), t) && |m[i].bound.prefix| <= 32 && (limit > 0 ==> limit >= MIN_FRAME)
    ensures var p := Role(w, false, limit);
      && t.prevIdx <= Cut(w.b, BoundRank(m[i].bound)) <= |w.b|
      && var mid := ListReply(p, t, m[i], Cut(w.b, BoundRank(m[i].bound)));
      var t' := Finish(p, t, mid, m[i].bound);
      t'.closed ==>
        && Told(w, false, rep, t'.out) && Safe(w, t'.out, rep) && Shaped(false, t'.out)
        && (mid.full || !t.skip || t.prevIdx < mid.upper ==> Ascending(t'.out))
  {
    hide Rank, Open, Odd, Reach, Cut, Sorted, Told, Ascending, Covered, BoundRank, Known, IdsIdentify, CollisionFree,
         EncodedLen, Gapped, ListReply, RestFrom, Safe, PrintReach, Roomy, Overran;
    var p, k, k' := Role(w, false, limit), Reach(m[..i]), BoundRank(m[i].bound);
    ListTold(w, m, i, t, rep, limit);
    ListFits(p, t, m[i], Cut(w.b, k'));
    var mid := ListReply(p, t, m[i], Cut(w.b, k'));
    assert mid.out + mid.o == mid.out;
    ReachAtMostTop(mid.out);
    if !mid.full && t.skip {
      if Exceeded(limit, EncodedLen(mid.out)) { Overrun(w, m, i, t, rep, limit, mid); }
    } else {
      RestSent(w, false, rep, mid.out, Reach(mid.out), limit);
    }
  }

  /** Nothing is lost when an empty list overruns: the Skip before it is only said twice. */
  lemma Overrun(w: World, m: seq<Range>, i: nat, t: Turn, rep: set<Id>, limit: nat, mid: Mid)
    requires Sound(w) && Inv(w, false, m, i, t, rep) && 0 < i < |m| && Ascending(m) && t.skip && t.out != []
    requires Cut(w.b, BoundRank(m[i].bound)) <= |w.b| && t.prevIdx == Cut(w.b, BoundRank(m[i].bound))
    requires mid == ListReply(Role(w, false, limit), t, m[i], t.prevIdx)
    requires Reach(mid.out) == BoundRank(m[i].bound) <= Top() && Ascending(mid.out)
    requires Gapped(w, false, rep, mid.out, Reach(mid.out)) && Covered(w, mid.out, Reach(mid.out), rep)
    ensures var out := mid.out + [SkipTo(t.prevBound)] + [RestFrom(Role(w, false, limit), t.prevIdx)];
      Told(w, false, rep, out) && Safe(w, out, rep) && Overran(out)
  {
    hide Rank, Open, Odd, Reach, Cut, Sorted, Told, Ascending, Covered, BoundRank, IdsIdentify, CollisionFree,
         EncodedLen, RestFrom, Safe, PrintReach, Top, IdListBytes, Overran;
    var skip := SkipTo(t.prevBound);
    var k' := BoundRank(m[i].bound);
    var out := mid.out + [skip];
    AscendingAt(m, i - 1);
    AscendingAt(m, i);
    ReachPrefix(m, i);
    ReachAppend(mid.out, skip);
    assert Reach(out) == k';
    ToldAppend(w, false, rep, mid.out, skip);
    CoveredExtends(w, mid.out, [skip], k', rep);
    RestSent(w, false, rep, out, k', limit);
    OverranForm(t.out, skip, mid.out[|mid.out| - 1], Role(w, false, limit), t.prevIdx);
  }

  lemma OverranForm(out: seq<Range>, skip: Range, list: Range, p: Party, from: nat)
    requires out != [] && LastOpen(out) && skip.mode == SKIP && list.mode == IDLIST && from <= |p.items|
    requires Ascending(out + [skip] + [list])
    ensures Overran(out + [skip] + [list] + [skip] + [RestFrom(p, from)])
  {
    hide Ascending, Print;
    var rs := out + [skip] + [list] + [skip] + [RestFrom(p, from)];
    var n := |rs|;
    assert rs[..n - 2] == out + [skip] + [list] && rs[..n - 4] == out;
  }
}
