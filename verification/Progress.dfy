/**
  * What an answer does to the first open range of a message, whatever the frame
  * limit (nip77/reconcile.go:87-119): it settles the range, or leads with a part.
  */
module Progress {
  import opened Items
  import opened Fingerprint
  import opened Codec
  import opened Split
  import opened Frame
  import opened Reconcile
  import opened FrameBound
  import opened Telling
  import opened Safety
  import opened Answers
  import opened Session

  // -------------------------------------------------------------- empty ranges

  /** No range but a Skip is empty: an initiator's message. */
  ghost predicate Sharp(rs: seq<Range>)
  {
    rs == [] ||
    var n := |rs| - 1;
    Sharp(rs[..n]) && (rs[n].mode != SKIP ==> Reach(rs[..n]) < BoundRank(rs[n].bound))
  }

  /** No Fingerprint is empty, except past everything: a responder's message. */
  ghost predicate Edged(rs: seq<Range>)
  {
    rs == [] ||
    var n := |rs| - 1;
    Edged(rs[..n]) && (rs[n].mode == FINGERPRINT ==> Reach(rs[..n]) < BoundRank(rs[n].bound) || Reach(rs[..n]) >= Top())
  }

  ghost predicate Keen(who: bool, rs: seq<Range>) { if who then Sharp(rs) else Edged(rs) }

  /** What Keen asks of the next range. */
  ghost predicate KeenNext(who: bool, before: nat, r: Range)
  {
    (r.mode == FINGERPRINT || (who && r.mode != SKIP)) ==> before < BoundRank(r.bound) || (!who && before >= Top())
  }

  lemma KeenAppend(who: bool, rs: seq<Range>, r: Range)
    ensures Keen(who, rs + [r]) <==> Keen(who, rs) && KeenNext(who, Reach(rs), r)
  {
    hide Reach, BoundRank, Top;
    assert (rs + [r])[..|rs|] == rs;
  }

  lemma {:induction false} KeenAt(who: bool, rs: seq<Range>, i: nat)
    requires Keen(who, rs) && i < |rs|
    ensures KeenNext(who, Reach(rs[..i]), rs[i])
    decreases |rs|
  {
    hide Reach, BoundRank, Top;
    var n := |rs| - 1;
    if i < n {
      KeenAt(who, rs[..n], i);
      assert rs[..n][..i] == rs[..i];
    }
  }

  lemma {:induction false} BucketsKeen(w: World, who: bool, rep: set<Id>, out: seq<Range>, k: nat, bound: Bound, n: nat)
    requires Sorted(Own(w, who)) && Gapped(w, who, rep, out, k) && k <= BoundRank(bound) && n <= 16
    requires Cut(Own(w, who), BoundRank(bound)) - Cut(Own(w, who), k) >= 32
    requires Keen(who, out)
    ensures var items := Own(w, who);
      Keen(who, out + Buckets(w.hash, items, Cut(items, k), Cut(items, BoundRank(bound)), bound, n))
    decreases n
  {
    hide Reach, Cut, BoundRank, Sorted, Gapped, Bucket, Keen, Top, Own;
    var items := Own(w, who);
    var lower, upper := Cut(items, k), Cut(items, BoundRank(bound));
    if n == 0 {
      assert out + Buckets(w.hash, items, lower, upper, bound, 0) == out;
    } else {
      BucketsKeen(w, who, rep, out, k, bound, n - 1);
      BucketAhead(w, who, rep, out, k, bound, n - 1);
      var rs, r := Buckets(w.hash, items, lower, upper, bound, n - 1), Bucket(w.hash, items, lower, upper, bound, n - 1);
      assert out + Buckets(w.hash, items, lower, upper, bound, n) == (out + rs) + [r];
      KeenAppend(who, out + rs, r);
    }
  }

  /** Each bucket's bound lies beyond the buckets before it. */
  lemma BucketAhead(w: World, who: bool, rep: set<Id>, out: seq<Range>, k: nat, bound: Bound, i: nat)
    requires Sorted(Own(w, who)) && Gapped(w, who, rep, out, k) && k <= BoundRank(bound) && i < 16
    requires Cut(Own(w, who), BoundRank(bound)) - Cut(Own(w, who), k) >= 32
    ensures var items, lower, upper := Own(w, who), Cut(Own(w, who), k), Cut(Own(w, who), BoundRank(bound));
      Reach(out + Buckets(w.hash, items, lower, upper, bound, i)) < BoundRank(Bucket(w.hash, items, lower, upper, bound, i).bound)
  {
    hide Reach, Cut, BoundRank, Sorted, Gapped, Bucket, Own, Offset, Buckets;
    var items := Own(w, who);
    var lower, upper := Cut(items, k), Cut(items, BoundRank(bound));
    BucketEnds(w.hash, items, k, bound, i);
    if i == 0 {
      NoBuckets(w.hash, items, lower, upper, bound, out);
      GappedReach(w, who, rep, out, k);
    } else {
      BucketsEnd(w, who, rep, out, k, bound, i);
      CutOrder(items, Reach(out + Buckets(w.hash, items, lower, upper, bound, i)), BoundRank(Bucket(w.hash, items, lower, upper, bound, i).bound));
    }
  }

  lemma NoBuckets(hash: Hash, items: seq<Item>, lower: nat, upper: nat, bound: Bound, out: seq<Range>)
    requires lower <= upper <= |items| && upper - lower >= 32
    ensures out + Buckets(hash, items, lower, upper, bound, 0) == out
  {
  }

  lemma SplitKeen(w: World, who: bool, rep: set<Id>, out: seq<Range>, k: nat, bound: Bound)
    requires Sorted(Own(w, who)) && Gapped(w, who, rep, out, k) && k < BoundRank(bound) && Keen(who, out)
    requires Cut(Own(w, who), k) <= Cut(Own(w, who), BoundRank(bound))
    ensures var items := Own(w, who);
      Keen(who, out + SplitSpec(w.hash, items, Cut(items, k), Cut(items, BoundRank(bound)), bound))
  {
    hide Reach, Cut, BoundRank, Sorted, Gapped, Keen, Top, Own, Buckets, IdListBytes;
    var items := Own(w, who);
    var lower, upper := Cut(items, k), Cut(items, BoundRank(bound));
    if upper - lower < 32 {
      GappedReach(w, who, rep, out, k);
      KeenAppend(who, out, SplitSpec(w.hash, items, lower, upper, bound)[0]);
    } else {
      BucketsKeen(w, who, rep, out, k, bound, 16);
    }
  }

  /** Past everything, both sides fingerprint nothing. */
  lemma TopMatches(w: World, who: bool, m: seq<Range>, i: nat, rep: set<Id>)
    requires Sorted(w.a) && Sorted(w.b) && Told(w, !who, rep, m) && i < |m| && m[i].mode == FINGERPRINT
    requires Reach(m[..i]) >= Top() && Cut(Own(w, who), Reach(m[..i])) <= Cut(Own(w, who), Reach(m[..i + 1]))
    ensures m[i].payload == Print(w.hash, Own(w, who)[Cut(Own(w, who), Reach(m[..i]))..Cut(Own(w, who), Reach(m[..i + 1]))])
  {
    hide Reach, Cut, BoundRank, Top, Print, Told, Sorted, Own, ToldRange;
    var own, other, k, k' := Own(w, who), Own(w, !who), Reach(m[..i]), Reach(m[..i + 1]);
    assert Sorted(own) && Sorted(other) by { OwnSorted(w); }
    ReachAtMostTop(m[..i]);
    ReachAtMostTop(m[..i + 1]);
    ReachMonotone(m, i, i + 1);
    CutTop(own);
    ToldAt(w, !who, rep, m, i);
    PrintsNothing(w, !who, rep, k, m[i]);
    NothingAtEnd(own);
  }

  lemma OwnSorted(w: World)
    requires Sorted(w.a) && Sorted(w.b)
    ensures Sorted(Own(w, true)) && Sorted(Own(w, false))
  {
    hide Sorted;
  }

  lemma PrintsNothing(w: World, who: bool, rep: set<Id>, before: nat, r: Range)
    requires Sorted(Own(w, who)) && ToldRange(w, who, rep, before, r) && r.mode == FINGERPRINT && before == Top()
    ensures r.payload == Print(w.hash, [])
  {
    hide Cut, BoundRank, Top, Print, Known, Sorted, Own;
    var own := Own(w, who);
    var from: nat :| Describes(w, who, rep, before, r, from);
    CutTop(own);
    BoundAtMostTop(r.bound);
    NothingAtEnd(own);
  }

  lemma NothingAtEnd(s: seq<Item>)
    ensures s[|s|..|s|] == []
  {
  }

  /** A mismatch lies before the end, so its range is not empty. */
  lemma MismatchAhead(w: World, who: bool, m: seq<Range>, i: nat, rep: set<Id>)
    requires Sorted(w.a) && Sorted(w.b) && Told(w, !who, rep, m) && Keen(!who, m) && i < |m| && m[i].mode == FINGERPRINT
    requires Cut(Own(w, who), Reach(m[..i])) <= Cut(Own(w, who), Reach(m[..i + 1]))
    requires m[i].payload != Print(w.hash, Own(w, who)[Cut(Own(w, who), Reach(m[..i]))..Cut(Own(w, who), Reach(m[..i + 1]))])
    ensures Reach(m[..i]) < BoundRank(m[i].bound)
  {
    hide Reach, Cut, BoundRank, Keen, Top, Print, Told, Sorted, Own;
    KeenAt(!who, m, i);
    if Reach(m[..i]) >= Top() { TopMatches(w, who, m, i, rep); }
  }

  // ------------------------------------------------------- what a range gives

  /** The forms an answer's output takes after one range. */
  ghost predicate Form(p: Party, t: Turn, r: Range, upper: nat, out: seq<Range>, closed: bool)
    requires Fits(p, t) && t.prevIdx <= upper <= |p.items|
  {
    || (out == t.out && !closed && !(r.mode == IDLIST && !p.initiator))
    || (r.mode == FINGERPRINT && Print(p.hash, p.items[t.prevIdx..upper]) != r.payload &&
        if closed then out == t.out + Pending(t) + [RestFrom(p, if t.skip then t.prevIdx else t.writtenIdx)]
        else out == t.out + Pending(t) + SplitSpec(p.hash, p.items, t.prevIdx, upper, r.bound))
    || (r.mode == IDLIST && !p.initiator &&
        var mid := ListReply(p, t, r, upper);
        if !closed then !mid.full && out == mid.out
        else out == mid.out + [RestFrom(p, mid.writtenIdx)]
             || (!mid.full && t.skip && out == mid.out + [SkipTo(t.prevBound)] + [RestFrom(p, t.prevIdx)]))
  }

  lemma StepForm(p: Party, t: Turn, r: Range, upper: nat)
    requires Fits(p, t) && Roomy(p, t) && !t.closed && upper == FirstNotBefore(p.items, t.prevIdx, r.bound)
    ensures var o := Step(p, t, r); o.Going? ==> Form(p, t, r, upper, o.turn.out, o.turn.closed)
  {
    hide FirstNotBefore, Print, SplitSpec, EncodedLen, ListReply, RestFrom, AllWritable, PrefixesWithin, Tallied, Exceeded;
    var split := SplitSpec(p.hash, p.items, t.prevIdx, upper, r.bound);
    assert t.out + (Pending(t) + split) == t.out + Pending(t) + split;
    assert t.out + [] == t.out;
    assert !Exceeded(p.limit, EncodedLen(t.out)) by { NotExceeded(p, t); }
    if r.mode == IDLIST && !p.initiator { ListForm(p, t, r, upper); }
  }

  lemma NotExceeded(p: Party, t: Turn)
    requires Roomy(p, t) && !t.closed
    ensures !Exceeded(p.limit, EncodedLen(t.out))
  {
    hide EncodedLen, AllWritable, PrefixesWithin;
  }

  /** A list's reply does not look at the tally, and has nothing left to commit. */
  lemma ListForm(p: Party, t: Turn, r: Range, upper: nat)
    requires t.prevIdx <= upper <= |p.items|
    ensures ListReply(p, t, r, upper).o == []
    ensures forall tally :: ListReply(p, t.(tally := tally), r, upper) == ListReply(p, t, r, upper)
  {
    hide EncodedLen, IdListBytes, ListEnd;
  }

  /** Answers keep their kind of message free of empty ranges. */
  lemma StepKeen(w: World, who: bool, m: seq<Range>, i: nat, t: Turn, rep0: set<Id>, rep: set<Id>, limit: nat)
    requires Ready(w, who, m, i, t, rep0, rep, limit) && Keen(!who, m) && Keen(who, t.out)
    requires Step(Role(w, who, limit), t, m[i]).Going?
    ensures Keen(who, Step(Role(w, who, limit), t, m[i]).turn.out)
  {
    hide Reach, Cut, BoundRank, Sorted, Top, Told, Safe, Shaped, Covered, Ascending, PrintReach, Print, Keen, Step, Roomy, Fair,
         IdsIdentify, CollisionFree, SplitSpec, RestFrom, ListReply, FirstNotBefore, ShortPrefixes, Gapped, KeenNext;
    var p, own, k := Role(w, who, limit), Own(w, who), Reach(m[..i]);
    NextCut(w, who, m, i, t);
    var upper := Cut(own, Reach(m[..i + 1]));
    StepForm(p, t, m[i], upper);
    var t' := Step(p, t, m[i]).turn;
    PendingKeen(who, t);
    if m[i].mode == FINGERPRINT && t'.out != t.out {
      MismatchAhead(w, who, m, i, rep0);
      BoundAhead(w, !who, rep0, m, i);
      PendingGapped(w, who, m, i, t, rep);
      if t'.closed {
        GappedReach(w, who, rep, t.out + Pending(t), k);
        BoundAtMostTop(m[i].bound);
        RestKeen(who, t.out + Pending(t), p, if t.skip then t.prevIdx else t.writtenIdx, k);
      } else {
        SplitKeen(w, who, rep, t.out + Pending(t), k, m[i].bound);
      }
    } else if m[i].mode == IDLIST && !who {
      ListKeen(p, t, m[i], upper);
    }
  }

  lemma PendingKeen(who: bool, t: Turn)
    requires Keen(who, t.out)
    ensures Keen(who, t.out + Pending(t))
  {
    hide Keen, Reach, BoundRank, Top;
    KeenAppend(who, t.out, SkipTo(t.prevBound));
    assert t.out + [] == t.out;
  }

  lemma RestKeen(who: bool, out: seq<Range>, p: Party, from: nat, k: nat)
    requires Keen(who, out) && Reach(out) <= k && from <= |p.items| && (k < Top() || !who)
    ensures Keen(who, out + [RestFrom(p, from)])
  {
    hide Keen, Reach, BoundRank, Top, Print;
    InfinityRank();
    KeenAppend(who, out, RestFrom(p, from));
  }

  /** A responder's list may be empty, and so may what it closes with. */
  lemma ListKeen(p: Party, t: Turn, r: Range, upper: nat)
    requires Fits(p, t) && t.prevIdx <= upper <= |p.items| && Keen(false, t.out)
    ensures var mid := ListReply(p, t, r, upper);
      && Keen(false, mid.out) && Keen(false, mid.out + [RestFrom(p, mid.writtenIdx)])
      && Keen(false, mid.out + [SkipTo(t.prevBound)] + [RestFrom(p, t.prevIdx)])
  {
    hide Keen, Reach, BoundRank, Top, IdListBytes, RestFrom, EncodedLen;
    var mid := ListReply(p, t, r, upper);
    PendingKeen(false, t);
    KeenAppend(false, t.out + Pending(t), mid.out[|mid.out| - 1]);
    RestKeen(false, mid.out, p, mid.writtenIdx, Reach(mid.out));
    KeenAppend(false, mid.out, SkipTo(t.prevBound));
    RestKeen(false, mid.out + [SkipTo(t.prevBound)], p, t.prevIdx, Reach(mid.out + [SkipTo(t.prevBound)]));
  }

  // ------------------------------------------------------ the first open range

  ghost predicate IsLead(rs: seq<Range>, d: nat)
  {
    d < |rs| && rs[d].mode != SKIP && forall j :: 0 <= j < d ==> rs[j].mode == SKIP
  }

  ghost function Count(s: seq<Item>, k: nat, k': nat): int { Cut(s, k') - Cut(s, k) }

  /**
    * Where the answer to a message led by range d leads: beyond that range, or at
    * its start with the whole of it, or with a part that holds items of the
    * answering party; and if still fingerprinted, with a sixteenth of them.
    */
  ghost predicate LedAt(w: World, who: bool, m: seq<Range>, d: nat, out: seq<Range>, e: nat)
    requires d < |m|
  {
    && IsLead(out, e) && Reach(out[..e]) < Reach(out[..e + 1])
    && (|| Reach(m[..d + 1]) <= Reach(out[..e])
        || (Reach(out[..e]) == Reach(m[..d]) && (who ==> m[d].mode == FINGERPRINT)
            && PartOf(Own(w, who), m[d].mode, Reach(m[..d]), Reach(m[..d + 1]), out[e].mode, Reach(out[..e + 1]))))
  }

  /** A range from k to end, answering one from k to k'. */
  ghost predicate PartOf(own: seq<Item>, asked: int, k: nat, k': nat, mode: int, end: nat)
  {
    && end <= k' && (end < k' ==> 0 < Count(own, k, end))
    && (mode == FINGERPRINT ==>
          asked == FINGERPRINT && Count(own, k, k') >= 32 && Count(own, k, end) <= (Count(own, k, k') + 15) / 16)
  }

  ghost predicate Led(w: World, who: bool, m: seq<Range>, d: nat, out: seq<Range>)
    requires d < |m|
  {
    out == [] || exists e: nat :: LedAt(w, who, m, d, out, e)
  }

  /** More ranges do not change where a message leads. */
  lemma LedExtends(w: World, who: bool, m: seq<Range>, d: nat, out: seq<Range>, more: seq<Range>)
    requires d < |m| && out != [] && Led(w, who, m, d, out)
    ensures Led(w, who, m, d, out + more)
  {
    hide Reach, PartOf, Own;
    var e: nat :| LedAt(w, who, m, d, out, e);
    assert (out + more)[..e] == out[..e] && (out + more)[..e + 1] == out[..e + 1];
    assert LedAt(w, who, m, d, out + more, e);
  }

  /** An answer that starts with the pending Skip and an open range leads there. */
  lemma LeadOf(t: Turn, r: Range, more: seq<Range>)
    requires r.mode != SKIP
    ensures var out := Pending(t) + [r] + more; var e := |Pending(t)|;
      && IsLead(out, e) && out[e] == r && out[..e] == Pending(t)
      && Reach(out[..e + 1]) == Max(Reach(Pending(t)), BoundRank(r.bound))
  {
    hide Reach, BoundRank;
    var out := Pending(t) + [r] + more;
    assert out[..|Pending(t)| + 1] == Pending(t) + [r];
    ReachAppend(Pending(t), r);
  }

  /** Where the bound before a written range lies, in the messages that are sent. */
  lemma PrevBound(who: bool, m: seq<Range>, d: nat, i: nat)
    requires Shaped(!who, m) && IsLead(m, d) && d <= i < |m| && 0 < i && (who ==> i == d || m[i].mode == FINGERPRINT)
    ensures i == d ==> BoundRank(m[i - 1].bound) == Reach(m[..i])
    ensures i > d ==> Reach(m[..d + 1]) <= BoundRank(m[i - 1].bound)
  {
    hide Reach, BoundRank, Ascending;
    if Ascending(m) {
      AscendingAt(m, i - 1);
      if i > d { ReachMonotone(m, d + 1, i); }
    } else {
      var n := |m|;
      var base := m[..n - 2];
      assert m[..n - 4][n - 5].mode != SKIP;
      assert d <= n - 5;
      var j := if i <= n - 2 then i - 1 else n - 4;
      assert m[i - 1].bound == base[j].bound;
      AscendingAt(base, j);
      assert base[..j + 1] == m[..j + 1];
      if i > d { ReachMonotone(m, d + 1, j + 1); }
    }
  }

  // --------------------------------------------------- the first thing written

  /** The first split of an answer always fits. */
  lemma FreshSplit(p: Party, t: Turn, r: Range, upper: nat)
    requires Fits(p, t) && Roomy(p, t) && !t.closed && t.out == [] && t.prevIdx <= upper <= |p.items|
    requires |r.bound.prefix| <= 32 && (p.limit > 0 ==> p.limit >= MIN_FRAME)
    ensures var t' := Finish(p, t, SplitReply(p, t, r, upper), r.bound);
      !t'.closed && t'.out == Pending(t) + SplitSpec(p.hash, p.items, t.prevIdx, upper, r.bound)
  {
    hide EncodedLen, SplitSpec, RestFrom, Finish, SplitReply;
    AppendPending(p, t, 32);
    SplitLen(p.hash, p.items, t.prevIdx, upper, r.bound, t.out + Pending(t));
    EmptyLen();
    FinishSplit(p, t, r, upper);
    assert t.out + Pending(t) == Pending(t);
    var o := Pending(t) + SplitSpec(p.hash, p.items, t.prevIdx, upper, r.bound);
    assert t.out + o == o;
  }

  /** The first list of an answer is written whole, or cut after at least one id. */
  lemma FreshList(p: Party, t: Turn, r: Range, upper: nat)
    requires Fits(p, t) && Roomy(p, t) && !t.closed && t.out == [] && t.prevIdx <= upper <= |p.items|
    requires p.limit > 0 ==> p.limit >= MIN_FRAME
    ensures var mid := ListReply(p, t, r, upper);
      && |mid.out| == |Pending(t)| + 1 && mid.out == Pending(t) + [mid.out[|Pending(t)|]]
      && var list := mid.out[|Pending(t)|];
      && list.mode == IDLIST
      && (|| (mid.upper == upper && list.bound == r.bound)
          || (t.prevIdx < mid.upper < upper && list.bound == Bound(p.items[mid.upper].ts, p.items[mid.upper].id)))
  {
    hide EncodedLen, IdListBytes;
    AppendPending(p, t, 32);
    EmptyLen();
    assert t.out + Pending(t) == Pending(t);
  }

  /** The range a responder's first list covers is not empty, and within the range asked about. */
  lemma FreshListReach(w: World, m: seq<Range>, i: nat, t: Turn, mid: Mid, list: Range)
    requires Sorted(w.b) && i < |m| && Reach(m[..i]) < BoundRank(m[i].bound) == Reach(m[..i + 1])
    requires t.prevIdx == Cut(w.b, Reach(m[..i]))
    requires var upper := Cut(w.b, BoundRank(m[i].bound));
      || (mid.upper == upper && list.bound == m[i].bound)
      || (t.prevIdx < mid.upper < upper && list.bound == Bound(w.b[mid.upper].ts, w.b[mid.upper].id))
    ensures Reach(m[..i]) < BoundRank(list.bound)
    ensures PartOf(w.b, m[i].mode, Reach(m[..i]), Reach(m[..i + 1]), IDLIST, BoundRank(list.bound))
  {
    hide Reach, Cut, BoundRank, Sorted, Rank;
    if list.bound != m[i].bound {
      var e := mid.upper;
      FiniteTs(w.b, e);
      ItemBoundRank(w.b[e]);
      CutSplits(w.b, BoundRank(m[i].bound), e);
      RankLess(w.b, t.prevIdx, e);
      CutSplits(w.b, Reach(m[..i]), t.prevIdx);
      CutAtItem(w.b, e);
    }
  }

  /** The reach of the pending Skip, where the answer will lead. */
  lemma PendingFront(w: World, who: bool, m: seq<Range>, d: nat, i: nat, t: Turn, rep: set<Id>)
    requires Inv(w, who, m, i, t, rep) && Shaped(!who, m) && IsLead(m, d) && d <= i < |m| && t.out == []
    requires (who ==> m[i].mode == FINGERPRINT) && Reach(m[..d]) < Reach(m[..d + 1])
    ensures i == d ==> Reach(Pending(t)) == Reach(m[..d])
    ensures i > d ==> Reach(m[..d + 1]) <= Reach(Pending(t))
  {
    hide BoundRank, Cut, Told, Covered, Ascending, PrintReach, Overran;
    assert Reach([]) == 0;
    if t.skip {
      PrevBound(who, m, d, i);
      ReachAppend([], SkipTo(t.prevBound));
      assert [] + [SkipTo(t.prevBound)] == Pending(t);
    } else if i > d {
      ReachMonotone(m, d + 1, i);
    }
  }

  lemma FreshSplitLed(w: World, who: bool, m: seq<Range>, d: nat, i: nat, t: Turn, rep: set<Id>)
    requires Sorted(Own(w, who)) && Inv(w, who, m, i, t, rep) && Shaped(!who, m) && IsLead(m, d) && d <= i < |m| && t.out == []
    requires m[i].mode == FINGERPRINT && Reach(m[..d]) < Reach(m[..d + 1])
    requires Reach(m[..i]) < BoundRank(m[i].bound) == Reach(m[..i + 1])
    requires t.prevIdx == Cut(Own(w, who), Reach(m[..i])) <= Cut(Own(w, who), Reach(m[..i + 1]))
    ensures Led(w, who, m, d, Pending(t) + SplitSpec(w.hash, Own(w, who), t.prevIdx, Cut(Own(w, who), Reach(m[..i + 1])), m[i].bound))
  {
    hide Reach, BoundRank, Cut, Ascending, Shaped, Sorted, SplitSpec, Gapped, Own, PartOf, Inv, IsLead, Led, Pending, Covered;
    var own, k := Own(w, who), Reach(m[..i]);
    var split := SplitSpec(w.hash, own, t.prevIdx, Cut(own, Reach(m[..i + 1])), m[i].bound);
    PendingFront(w, who, m, d, i, t, rep);
    PendingGapped(w, who, m, i, t, rep);
    assert t.out + Pending(t) == Pending(t);
    GappedReach(w, who, rep, Pending(t), k);
    SplitLeads(w, who, k, m[i].bound);
    assert split == [split[0]] + split[1..];
    assert Pending(t) + split == Pending(t) + [split[0]] + split[1..];
    LedBy(w, who, m, d, i, t, split[0], split[1..]);
  }

  lemma LedBy(w: World, who: bool, m: seq<Range>, d: nat, i: nat, t: Turn, r: Range, more: seq<Range>)
    requires d <= i < |m| && m[i].mode == FINGERPRINT && r.mode != SKIP
    requires i == d ==> Reach(Pending(t)) == Reach(m[..d])
    requires i > d ==> Reach(m[..d + 1]) <= Reach(Pending(t))
    requires Reach(Pending(t)) <= Reach(m[..i]) < BoundRank(r.bound)
    requires PartOf(Own(w, who), FINGERPRINT, Reach(m[..i]), Reach(m[..i + 1]), r.mode, BoundRank(r.bound))
    ensures Led(w, who, m, d, Pending(t) + [r] + more)
  {
    hide Reach, BoundRank, Own, PartOf, Pending;
    LeadOf(t, r, more);
    assert LedAt(w, who, m, d, Pending(t) + [r] + more, |Pending(t)|);
  }

  /** The first range of a split starts it, and holds a part of it. */
  lemma SplitLeads(w: World, who: bool, k: nat, bound: Bound)
    requires Sorted(Own(w, who)) && k < BoundRank(bound)
    requires Cut(Own(w, who), k) <= Cut(Own(w, who), BoundRank(bound))
    ensures var own := Own(w, who);
      var r := SplitSpec(w.hash, own, Cut(own, k), Cut(own, BoundRank(bound)), bound)[0];
      r.mode != SKIP && k < BoundRank(r.bound) && PartOf(own, FINGERPRINT, k, BoundRank(bound), r.mode, BoundRank(r.bound))
  {
    hide BoundRank, Cut, Sorted, IdListBytes, Own, Bucket, Print;
    var own := Own(w, who);
    var lower, upper := Cut(own, k), Cut(own, BoundRank(bound));
    if upper - lower >= 32 {
      BucketsIndex(w.hash, own, lower, upper, bound, 16, 0);
      OffsetSteps(upper - lower, 0);
      BucketSays(w.hash, own, k, bound, 0, lower);
    }
  }

  lemma FreshListLed(w: World, m: seq<Range>, d: nat, i: nat, t: Turn, rep: set<Id>, mid: Mid, more: seq<Range>)
    requires Sorted(w.b) && Inv(w, false, m, i, t, rep) && Ascending(m) && IsLead(m, d) && d <= i < |m| && t.out == []
    requires Reach(m[..d]) < Reach(m[..d + 1])
    requires |mid.out| == |Pending(t)| + 1 && mid.out == Pending(t) + [mid.out[|Pending(t)|]]
    requires var list := mid.out[|Pending(t)|];
      && list.mode == IDLIST && Reach(m[..i]) < BoundRank(list.bound)
      && PartOf(w.b, m[i].mode, Reach(m[..i]), Reach(m[..i + 1]), IDLIST, BoundRank(list.bound))
    ensures Led(w, false, m, d, mid.out + more)
  {
    hide Reach, BoundRank, Cut, Told, Covered, Ascending, PrintReach, Sorted, Gapped, PartOf, IsLead, Overran, Pending;
    var list := mid.out[|Pending(t)|];
    PendingFront(w, false, m, d, i, t, rep);
    PendingGapped(w, false, m, i, t, rep);
    assert t.out + Pending(t) == Pending(t);
    GappedReach(w, false, rep, Pending(t), Reach(m[..i]));
    LeadOf(t, list, more);
    assert LedAt(w, false, m, d, mid.out + more, |Pending(t)|);
  }

  /** What the first written range leads with. */
  lemma FreshLed(w: World, who: bool, m: seq<Range>, d: nat, i: nat, t: Turn, rep0: set<Id>, rep: set<Id>, limit: nat)
    requires Ready(w, who, m, i, t, rep0, rep, limit) && Keen(!who, m) && IsLead(m, d) && d <= i && t.out == []
    requires Reach(m[..d]) < Reach(m[..d + 1])
    requires Step(Role(w, who, limit), t, m[i]).Going?
    ensures var t' := Step(Role(w, who, limit), t, m[i]).turn;
      Led(w, who, m, d, t'.out) && (t'.out == [] ==> !t'.closed)
  {
    hide Sound, Sent, Told, Covered, Ascending, PrintReach, Reach, Cut, BoundRank, Keen, Step, Roomy, Fair, Led, IsLead,
         FirstNotBefore, SplitSpec, RestFrom, ListReply, Print;
    var p := Role(w, who, limit);
    var t' := Step(p, t, m[i]).turn;
    if m[i].mode == FINGERPRINT && t'.out != t.out {
      FirstSplit(w, who, m, d, i, t, rep0, rep, limit);
    } else if m[i].mode == IDLIST && !who {
      FirstList(w, m, d, i, t, rep0, rep, limit);
    } else {
      StepForm(p, t, m[i], FirstNotBefore(p.items, t.prevIdx, m[i].bound));
      LedNothing(w, who, m, d);
    }
  }

  lemma FirstSplit(w: World, who: bool, m: seq<Range>, d: nat, i: nat, t: Turn, rep0: set<Id>, rep: set<Id>, limit: nat)
    requires Ready(w, who, m, i, t, rep0, rep, limit) && Keen(!who, m) && IsLead(m, d) && d <= i && t.out == []
    requires Reach(m[..d]) < Reach(m[..d + 1]) && m[i].mode == FINGERPRINT
    requires Step(Role(w, who, limit), t, m[i]).Going? && Step(Role(w, who, limit), t, m[i]).turn.out != t.out
    ensures var t' := Step(Role(w, who, limit), t, m[i]).turn;
      Led(w, who, m, d, t'.out) && (t'.out == [] ==> !t'.closed)
  {
    hide Reach, Cut, BoundRank, Sorted, Told, Safe, Covered, Ascending, PrintReach, Print, Keen, Step, Roomy, Fair,
         IdsIdentify, CollisionFree, SplitSpec, RestFrom, FirstNotBefore, Finish, SplitReply, Led, IsLead, Overran;
    var p := Role(w, who, limit);
    SoundOwn(w, who);
    NextCut(w, who, m, i, t);
    var upper := Cut(Own(w, who), Reach(m[..i + 1]));
    StepForm(p, t, m[i], upper);
    MismatchAhead(w, who, m, i, rep0);
    BoundAhead(w, !who, rep0, m, i);
    StepIs(p, t, m[i], upper);
    FreshSplit(p, t, m[i], upper);
    FreshSplitLed(w, who, m, d, i, t, rep);
  }

  lemma FirstList(w: World, m: seq<Range>, d: nat, i: nat, t: Turn, rep0: set<Id>, rep: set<Id>, limit: nat)
    requires Ready(w, false, m, i, t, rep0, rep, limit) && Keen(true, m) && IsLead(m, d) && d <= i && t.out == []
    requires Reach(m[..d]) < Reach(m[..d + 1]) && m[i].mode == IDLIST
    requires Step(Role(w, false, limit), t, m[i]).Going?
    ensures var t' := Step(Role(w, false, limit), t, m[i]).turn;
      Led(w, false, m, d, t'.out) && (t'.out == [] ==> !t'.closed)
  {
    hide Reach, Cut, BoundRank, Sorted, Told, Safe, Ascending, Keen, Step, Roomy, Fair, Inv,
         IdsIdentify, CollisionFree, ListReply, FirstNotBefore, Led, IsLead, PartOf;
    var p := Role(w, false, limit);
    ReadyFits(w, false, m, i, t, rep0, rep, limit);
    NextCut(w, false, m, i, t);
    var upper := Cut(w.b, Reach(m[..i + 1]));
    ListStarts(p, t, m[i], upper);
    BoundAhead(w, true, rep0, m, i);
    KeenAt(true, m, i);
    var t', mid := Step(p, t, m[i]).turn, ListReply(p, t, m[i], upper);
    FreshList(p, t, m[i], upper);
    FreshListReach(w, m, i, t, mid, mid.out[|Pending(t)|]);
    var more := t'.out[|mid.out|..];
    assert t'.out == mid.out + more;
    FreshListLed(w, m, d, i, t, rep, mid, more);
  }

  lemma ReadyFits(w: World, who: bool, m: seq<Range>, i: nat, t: Turn, rep0: set<Id>, rep: set<Id>, limit: nat)
    requires Ready(w, who, m, i, t, rep0, rep, limit)
    ensures Fits(Role(w, who, limit), t) && !t.closed && t.prevIdx == Cut(Own(w, who), Reach(m[..i]))
  {
    hide Sound, Sent, Told, Covered, Ascending, PrintReach, Reach, Cut, Roomy, Fair;
  }

  /** A responder's answer to a list starts with its own. */
  lemma ListStarts(p: Party, t: Turn, r: Range, upper: nat)
    requires Fits(p, t) && Roomy(p, t) && !t.closed && upper == FirstNotBefore(p.items, t.prevIdx, r.bound)
    requires !p.initiator && r.mode == IDLIST && Step(p, t, r).Going?
    ensures ListReply(p, t, r, upper).out <= Step(p, t, r).turn.out
  {
    hide FirstNotBefore, Step, Roomy, ListReply, RestFrom;
    StepForm(p, t, r, upper);
  }

  lemma LedNothing(w: World, who: bool, m: seq<Range>, d: nat)
    requires d < |m|
    ensures Led(w, who, m, d, [])
  {
  }

  // ------------------------------------------------------------ whole answers

  /** A turn only ever adds to the answer, and a Skip adds nothing. */
  lemma StepExtends(p: Party, t: Turn, r: Range)
    requires Fits(p, t) && Roomy(p, t) && !t.closed
    ensures var o := Step(p, t, r);
      o.Going? ==> t.out <= o.turn.out && (r.mode == SKIP ==> o.turn.out == t.out && !o.turn.closed)
  {
    hide Step, Roomy, Print, SplitSpec, RestFrom, IdListBytes, EncodedLen, ListEnd, FirstNotBefore;
    StepForm(p, t, r, FirstNotBefore(p.items, t.prevIdx, r.bound));
  }

  /** The state of an answer to a message led by range d, after n ranges. */
  ghost predicate Leading(w: World, who: bool, m: seq<Range>, d: nat, n: nat, o: Outcome)
    requires d < |m|
  {
    && o.Going? && Keen(who, o.turn.out)
    && (o.turn.out == [] ==> !o.turn.closed)
    && (if n <= d then o.turn.out == [] else Led(w, who, m, d, o.turn.out))
  }

  lemma LeadStep(w: World, who: bool, m: seq<Range>, d: nat, i: nat, t: Turn, rep0: set<Id>, limit: nat)
    requires Sound(w) && Sent(w, !who, rep0, m) && Keen(!who, m) && IsLead(m, d) && Reach(m[..d]) < Reach(m[..d + 1])
    requires i < |m| && (limit > 0 ==> limit >= MIN_FRAME) && !t.closed && Fits(Role(w, who, limit), t)
    requires At(w, who, m, i, Going(t), rep0, limit) && Leading(w, who, m, d, i, Going(t))
    ensures Leading(w, who, m, d, i + 1, Step(Role(w, who, limit), t, m[i]))
  {
    hide Sound, Sent, Inv, Step, Keen, Roomy, Told, Safe, Shaped, Led, Reach, OnlyIds;
    var p, rep := Role(w, who, limit), if who then t.tally.reported else rep0;
    OneMore(w, who, m, i, t, rep0, limit);
    var t' := Step(p, t, m[i]).turn;
    StepExtends(p, t, m[i]);
    StepKeen(w, who, m, i, t, rep0, rep, limit);
    if i >= d {
      if t.out == [] {
        FreshLed(w, who, m, d, i, t, rep0, rep, limit);
      } else {
        var more := t'.out[|t.out|..];
        assert t'.out == t.out + more;
        LedExtends(w, who, m, d, t.out, more);
      }
    }
  }

  lemma {:induction false} AfterLeading(w: World, who: bool, m: seq<Range>, d: nat, n: nat, reported: set<Id>, rep0: set<Id>, limit: nat)
    requires Sound(w) && Sent(w, !who, rep0, m) && Keen(!who, m) && IsLead(m, d) && Reach(m[..d]) < Reach(m[..d + 1])
    requires n <= |m| && (who ==> reported == rep0) && (limit > 0 ==> limit >= MIN_FRAME)
    ensures Leading(w, who, m, d, n, After(Role(w, who, limit), reported, m, n))
  {
    hide Sound, Sent, At, Step, Leading, Keen, Reach;
    if n == 0 {
      LeadingStart(w, who, m, d, reported);
    } else {
      AfterLeading(w, who, m, d, n - 1, reported, rep0, limit);
      AfterAt(w, who, m, n - 1, reported, rep0, limit);
      var o := After(Role(w, who, limit), reported, m, n - 1);
      LeadingStays(w, who, m, d, n - 1, o);
      if o.Going? && !o.turn.closed { LeadStep(w, who, m, d, n - 1, o.turn, rep0, limit); }
    }
  }

  lemma LeadingStart(w: World, who: bool, m: seq<Range>, d: nat, reported: set<Id>)
    requires d < |m|
    ensures Leading(w, who, m, d, 0, Going(Start(reported)))
  {
  }

  /** A closed answer leads where it does. */
  lemma LeadingStays(w: World, who: bool, m: seq<Range>, d: nat, n: nat, o: Outcome)
    requires d < |m| && Leading(w, who, m, d, n, o)
    ensures o.Going? && (o.turn.closed ==> Leading(w, who, m, d, n + 1, o))
  {
    hide Keen, Led;
  }

  lemma AnswerLeads(w: World, who: bool, m: seq<Range>, d: nat, reported: set<Id>, rep0: set<Id>, limit: nat)
    requires Sound(w) && Sent(w, !who, rep0, m) && Keen(!who, m) && IsLead(m, d) && Reach(m[..d]) < Reach(m[..d + 1])
    requires (who ==> reported == rep0) && (limit > 0 ==> limit >= MIN_FRAME)
    ensures var o := Answer(Role(w, who, limit), reported, m);
      o.Going? && Keen(who, o.turn.out) && Led(w, who, m, d, o.turn.out)
  {
    hide Sound, Sent, After, Keen, Led, Reach;
    AfterLeading(w, who, m, d, |m|, reported, rep0, limit);
  }

  // ---------------------------------------------------- messages of a session

  lemma SharpLead(rs: seq<Range>, d: nat)
    requires Sharp(rs) && IsLead(rs, d)
    ensures Reach(rs[..d]) < Reach(rs[..d + 1])
  {
    hide Sharp, Reach, BoundRank;
    KeenAt(true, rs, d);
    ReachPrefix(rs, d);
  }

  lemma SharpNothing() ensures Sharp([]) { }

  lemma LedLead(w: World, who: bool, m: seq<Range>, d: nat, out: seq<Range>, e: nat)
    requires d < |m| && LedAt(w, who, m, d, out, e)
    ensures IsLead(out, e) && Reach(out[..e]) < Reach(out[..e + 1])
  {
    hide Reach, PartOf;
  }

  lemma FirstSharp(w: World)
    requires Sound(w)
    ensures Sharp(First(w).msg) && IsLead(First(w).msg, 0)
  {
    hide Sorted, IdsIdentify, CollisionFree, Told, Reach, Cut, BoundRank, Top, SplitSpec, Sharp, Open, Gapped;
    CutZero(w.a);
    CutTop(w.a);
    InfinityRank();
    BelowTop(Item(0, seq(32, _ => 0)));
    SharpNothing();
    EmptyTold(w);
    GappedNothing(w);
    SplitKeen(w, true, {}, [], 0, Infinity);
    SplitTold(w, true, {}, [], 0, Infinity);
    assert [] + First(w).msg == First(w).msg;
  }
}
