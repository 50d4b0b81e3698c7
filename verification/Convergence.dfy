/**
  * How fast unlimited sessions end (nip77/reconcile.go:48-127, 166-192): each
  * round divides the responder's items inside any open fingerprint by sixteen.
  */
module Convergence {
  import opened Items
  import opened Fingerprint
  import opened Codec
  import opened Split
  import opened Frame
  import opened Reconcile
  import opened FrameBound
  import opened Telling
  import opened Safety
  import opened Answers
  import opened Session

  /** Every Fingerprint range holds at most b of these items; -1 allows no Fingerprint range. */
  ghost predicate Narrow(s: seq<Item>, rs: seq<Range>, b: int)
  {
    rs == [] ||
    var n := |rs| - 1;
    Narrow(s, rs[..n], b) && (rs[n].mode == FINGERPRINT ==> Cut(s, Reach(rs)) - Cut(s, Reach(rs[..n])) <= b)
  }

  lemma NarrowAppend(s: seq<Item>, rs: seq<Range>, r: Range, b: int)
    ensures Narrow(s, rs + [r], b) <==>
      Narrow(s, rs, b) && (r.mode == FINGERPRINT ==> Cut(s, Reach(rs + [r])) - Cut(s, Reach(rs)) <= b)
  {
    hide Cut, Reach;
    assert (rs + [r])[..|rs|] == rs;
  }

  lemma {:induction false} NarrowAt(s: seq<Item>, rs: seq<Range>, b: int, i: nat)
    requires Narrow(s, rs, b) && i < |rs| && rs[i].mode == FINGERPRINT
    ensures Cut(s, Reach(rs[..i + 1])) - Cut(s, Reach(rs[..i])) <= b
    decreases |rs|
  {
    hide Cut, Reach;
    var n := |rs| - 1;
    if i < n {
      NarrowAt(s, rs[..n], b, i);
      assert rs[..n][..i] == rs[..i] && rs[..n][..i + 1] == rs[..i + 1];
    } else {
      assert rs[..n + 1] == rs;
    }
  }

  lemma {:induction false} NarrowAny(s: seq<Item>, rs: seq<Range>)
    ensures Narrow(s, rs, |s|)
  {
    hide Cut, Reach;
    if rs != [] { NarrowAny(s, rs[..|rs| - 1]); }
  }

  /** A split's buckets lie inside the range, and hold a sixteenth of our own items in it. */
  lemma {:induction false} BucketsNarrow(w: World, who: bool, rep: set<Id>, out: seq<Range>, k: nat, bound: Bound,
                                         n: nat, b: int, c: int)
    requires Sorted(w.a) && Sorted(w.b) && Gapped(w, who, rep, out, k) && Reach(out) == k <= BoundRank(bound) && n <= 16
    requires var num := Cut(Own(w, who), BoundRank(bound)) - Cut(Own(w, who), k); num >= 32 && (num + 15) / 16 <= b
    requires Cut(Own(w, !who), BoundRank(bound)) - Cut(Own(w, !who), k) <= c
    requires Narrow(Own(w, who), out, b) && Narrow(Own(w, !who), out, c)
    ensures var items := Own(w, who);
      var rs := Buckets(w.hash, items, Cut(items, k), Cut(items, BoundRank(bound)), bound, n);
      Narrow(items, out + rs, b) && Narrow(Own(w, !who), out + rs, c)
    decreases n
  {
    hide Cut, Reach, Sorted, Gapped, BoundRank, Narrow, Bucket, Offset, Ascending, Print;
    var items, other := Own(w, who), Own(w, !who);
    var lower, upper := Cut(items, k), Cut(items, BoundRank(bound));
    if n == 0 {
      assert out + Buckets(w.hash, items, lower, upper, bound, n) == out;
    } else {
      BucketsNarrow(w, who, rep, out, k, bound, n - 1, b, c);
      var rs, r := Buckets(w.hash, items, lower, upper, bound, n - 1), Bucket(w.hash, items, lower, upper, bound, n - 1);
      assert out + Buckets(w.hash, items, lower, upper, bound, n) == (out + rs) + [r];
      BucketsTold(w, who, rep, out, k, bound, n);
      BucketSays(w.hash, items, k, bound, n - 1, lower + Offset(upper - lower, n - 1));
      BeforeBucket(w, who, rep, out, k, bound, n - 1);
      NarrowAppend(items, out + rs, r, b);
      NarrowAppend(other, out + rs, r, c);
      CutMonotone(other, k, Reach(out + rs));
      CutMonotone(other, BoundRank(r.bound), BoundRank(bound));
    }
  }

  /** Where bucket n starts. */
  lemma BeforeBucket(w: World, who: bool, rep: set<Id>, out: seq<Range>, k: nat, bound: Bound, n: nat)
    requires Sorted(Own(w, who)) && Gapped(w, who, rep, out, k) && Reach(out) == k <= BoundRank(bound) && n < 16
    requires Cut(Own(w, who), BoundRank(bound)) - Cut(Own(w, who), k) >= 32
    ensures var items, lower, upper := Own(w, who), Cut(Own(w, who), k), Cut(Own(w, who), BoundRank(bound));
      var at := Reach(out + Buckets(w.hash, items, lower, upper, bound, n));
      k <= at && Cut(items, at) == lower + Offset(upper - lower, n)
  {
    hide Cut, Reach, Sorted, Gapped, BoundRank, Bucket, Offset, Ascending, Own;
    var items, lower, upper := Own(w, who), Cut(Own(w, who), k), Cut(Own(w, who), BoundRank(bound));
    if n == 0 {
      OffsetSteps(upper - lower, 0);
      assert out + Buckets(w.hash, items, lower, upper, bound, 0) == out;
    } else {
      BucketsTold(w, who, rep, out, k, bound, n);
    }
  }

  /** What is left of b items in an open range after its holder splits it; below 32 they are listed. */
  function Shrunk(b: int): int { if b < 32 then -1 else (b + 15) / 16 }

  lemma SplitNarrow(w: World, who: bool, rep: set<Id>, out: seq<Range>, k: nat, bound: Bound, b: int, c: int)
    requires Sorted(w.a) && Sorted(w.b) && Gapped(w, who, rep, out, k) && Reach(out) == k <= BoundRank(bound)
    requires Cut(Own(w, who), k) <= Cut(Own(w, who), BoundRank(bound))
    requires Cut(Own(w, who), BoundRank(bound)) - Cut(Own(w, who), k) <= b
    requires Cut(Own(w, !who), BoundRank(bound)) - Cut(Own(w, !who), k) <= c
    requires Narrow(Own(w, who), out, Shrunk(b)) && Narrow(Own(w, !who), out, c)
    ensures var items := Own(w, who);
      var rs := SplitSpec(w.hash, items, Cut(items, k), Cut(items, BoundRank(bound)), bound);
      Narrow(items, out + rs, Shrunk(b)) && Narrow(Own(w, !who), out + rs, c)
  {
    hide Cut, Reach, Sorted, Gapped, BoundRank, Narrow, Buckets, IdListBytes;
    var items := Own(w, who);
    var num := Cut(items, BoundRank(bound)) - Cut(items, k);
    if num < 32 {
      var r := SplitSpec(w.hash, items, Cut(items, k), Cut(items, BoundRank(bound)), bound)[0];
      NarrowAppend(items, out, r, Shrunk(b));
      NarrowAppend(Own(w, !who), out, r, c);
    } else {
      BucketsNarrow(w, who, rep, out, k, bound, 16, Shrunk(b), c);
    }
  }

  // ------------------------------------------------------------- one answer

  /** With ascending bounds, writing the pending Skip stops exactly where the range starts. */
  lemma PendingReach(w: World, who: bool, m: seq<Range>, i: nat, t: Turn, rep: set<Id>)
    requires Inv(w, who, m, i, t, rep) && Ascending(m) && i < |m|
    ensures Reach(t.out + Pending(t)) == Reach(m[..i])
  {
    hide Reach, Cut, Told, Covered, Ascending, BoundRank, PrintReach;
    if t.skip {
      AscendingAt(m, i - 1);
      ReachAppend(t.out, SkipTo(t.prevBound));
    } else {
      assert t.out + Pending(t) == t.out;
    }
  }

  lemma PendingNarrow(s: seq<Item>, t: Turn, b: int)
    requires Narrow(s, t.out, b)
    ensures Narrow(s, t.out + Pending(t), b)
  {
    hide Narrow;
    if t.skip {
      NarrowAppend(s, t.out, SkipTo(t.prevBound), b);
    } else {
      assert t.out + Pending(t) == t.out;
    }
  }

  /** What one range adds to an unlimited answer. */
  ghost predicate Grows(p: Party, t: Turn, r: Range, out: seq<Range>)
    requires t.prevIdx <= |p.items|
  {
    || out == t.out
    || (r.mode == FINGERPRINT
        && var upper := FirstNotBefore(p.items, t.prevIdx, r.bound);
        out == t.out + Pending(t) + SplitSpec(p.hash, p.items, t.prevIdx, upper, r.bound))
    || (r.mode == IDLIST && !p.initiator
        && |out| == |t.out + Pending(t)| + 1 && out[..|out| - 1] == t.out + Pending(t) && out[|out| - 1].mode == IDLIST)
  }

  lemma StepGrows(p: Party, t: Turn, r: Range)
    requires Fits(p, t) && p.limit == 0 && !t.closed
    ensures var o := Step(p, t, r); o.Going? ==> !o.turn.closed && Grows(p, t, r, o.turn.out)
  {
    hide FirstNotBefore, Print, SplitSpec, IdListBytes, EncodedLen, Diff, ListedIds, ListEnd;
    var upper := FirstNotBefore(p.items, t.prevIdx, r.bound);
    var split := SplitSpec(p.hash, p.items, t.prevIdx, upper, r.bound);
    assert t.out + (Pending(t) + split) == t.out + Pending(t) + split;
  }

  /** The state of an unlimited answer after n ranges. */
  ghost predicate Narrowed(w: World, who: bool, o: Outcome, b: int, c: int)
  {
    o.Going? && !o.turn.closed && Narrow(Own(w, who), o.turn.out, Shrunk(b)) && Narrow(Own(w, !who), o.turn.out, c)
  }

  lemma StepNarrowed(w: World, who: bool, m: seq<Range>, i: nat, t: Turn, rep: set<Id>, rep0: set<Id>, b: int, c: int)
    requires Sound(w) && Sent(w, !who, rep0, m) && Ascending(m) && i < |m|
    requires Inv(w, who, m, i, t, rep) && Narrowed(w, who, Going(t), b, c)
    requires Narrow(Own(w, who), m, b) && Narrow(Own(w, !who), m, c)
    requires Fits(Role(w, who, 0), t)
    requires Step(Role(w, who, 0), t, m[i]).Going?
    ensures Narrowed(w, who, Step(Role(w, who, 0), t, m[i]), b, c)
  {
    hide Cut, Reach, Sorted, BoundRank, Narrow, SplitSpec, Told, Safe, Shaped, Covered, Ascending, Orderly, PrintReach, Step,
         IdsIdentify, CollisionFree, FirstNotBefore, ShortPrefixes, Gapped;
    var p, k := Role(w, who, 0), Reach(m[..i]);
    StepGrows(p, t, m[i]);
    var out := Step(p, t, m[i]).turn.out;
    if out != t.out {
      PendingNarrow(Own(w, who), t, Shrunk(b));
      PendingNarrow(Own(w, !who), t, c);
      if m[i].mode == FINGERPRINT {
        PendingReach(w, who, m, i, t, rep);
        PendingGapped(w, who, m, i, t, rep);
        NextCut(w, who, m, i, t);
        BoundAhead(w, !who, rep0, m, i);
        NarrowAt(Own(w, who), m, b, i);
        NarrowAt(Own(w, !who), m, c, i);
        SplitNarrow(w, who, rep, t.out + Pending(t), k, m[i].bound, b, c);
      } else {
        var n := |out| - 1;
        assert out == (t.out + Pending(t)) + [out[n]];
        NarrowAppend(Own(w, who), t.out + Pending(t), out[n], Shrunk(b));
        NarrowAppend(Own(w, !who), t.out + Pending(t), out[n], c);
      }
    }
  }

  lemma {:induction false} AfterNarrowed(w: World, who: bool, m: seq<Range>, n: nat, reported: set<Id>, rep0: set<Id>, b: int, c: int)
    requires Sound(w) && Sent(w, !who, rep0, m) && Ascending(m) && n <= |m| && (who ==> reported == rep0)
    requires Narrow(Own(w, who), m, b) && Narrow(Own(w, !who), m, c)
    ensures Narrowed(w, who, After(Role(w, who, 0), reported, m, n), b, c)
  {
    hide Sound, Sent, At, Step, Narrow, Own, Shrunk, Ascending;
    if n == 0 {
      StartNarrowed(w, who, reported, b, c);
    } else {
      AfterNarrowed(w, who, m, n - 1, reported, rep0, b, c);
      AfterAt(w, who, m, n - 1, reported, rep0, 0);
      OneMoreNarrowed(w, who, m, n - 1, After(Role(w, who, 0), reported, m, n - 1).turn, rep0, b, c);
    }
  }

  lemma OneMoreNarrowed(w: World, who: bool, m: seq<Range>, i: nat, t: Turn, rep0: set<Id>, b: int, c: int)
    requires Sound(w) && Sent(w, !who, rep0, m) && Ascending(m) && i < |m|
    requires Narrow(Own(w, who), m, b) && Narrow(Own(w, !who), m, c)
    requires At(w, who, m, i, Going(t), rep0, 0) && Fits(Role(w, who, 0), t) && Narrowed(w, who, Going(t), b, c)
    ensures Narrowed(w, who, Step(Role(w, who, 0), t, m[i]), b, c)
  {
    hide Sound, Sent, Inv, Step, Narrow, Fair, Roomy, Told, Safe, Shaped, Shrunk;
    OneMore(w, who, m, i, t, rep0, 0);
    StepNarrowed(w, who, m, i, t, if who then t.tally.reported else rep0, rep0, b, c);
  }

  lemma StartNarrowed(w: World, who: bool, reported: set<Id>, b: int, c: int)
    ensures Narrowed(w, who, Going(Start(reported)), b, c)
  {
    hide Narrow, Shrunk;
    NarrowNothing(Own(w, who), Shrunk(b));
    NarrowNothing(Own(w, !who), c);
  }

  lemma NarrowNothing(s: seq<Item>, b: int)
    ensures Narrow(s, [], b)
  {
  }

  /** One unlimited answer: ascending, our own items per open range divided, theirs no more. */
  lemma AnswerNarrowed(w: World, who: bool, m: seq<Range>, reported: set<Id>, rep0: set<Id>, b: int, c: int)
    requires Sound(w) && Sent(w, !who, rep0, m) && Ascending(m) && (who ==> reported == rep0)
    requires Narrow(Own(w, who), m, b) && Narrow(Own(w, !who), m, c)
    ensures var o := Answer(Role(w, who, 0), reported, m);
      o.Going? && Ascending(o.turn.out)
      && Narrow(Own(w, who), o.turn.out, Shrunk(b)) && Narrow(Own(w, !who), o.turn.out, c)
  {
    hide Sound, Sent, After, Narrow, Fair, Roomy, Ascending, Reach, Cut, Told, Covered, PrintReach;
    AfterNarrowed(w, who, m, |m|, reported, rep0, b, c);
    AfterAt(w, who, m, |m|, reported, rep0, 0);
  }

  /** An initiator reading no Fingerprint has nothing to say. */
  lemma {:induction false} Silent(w: World, m: seq<Range>, n: nat, reported: set<Id>, limit: nat)
    requires n <= |m| && Narrow(w.b, m, -1) && Sorted(w.b) && (limit > 0 ==> limit >= MIN_FRAME)
    ensures var o := After(Role(w, true, limit), reported, m, n); o.Going? ==> o.turn.out == [] && !o.turn.closed
  {
    hide Narrow, Cut, Reach, Sorted, Step;
    if n > 0 {
      Silent(w, m, n - 1, reported, limit);
      if m[n - 1].mode == FINGERPRINT {
        NarrowAt(w.b, m, -1, n - 1);
        ReachMonotone(m, n - 1, n);
        CutMonotone(w.b, Reach(m[..n - 1]), Reach(m[..n]));
      }
      var o := After(Role(w, true, limit), reported, m, n - 1);
      if o.Going? { SilentStep(Role(w, true, limit), o.turn, m[n - 1]); }
    }
  }

  lemma SilentStep(p: Party, t: Turn, r: Range)
    requires Fits(p, t) && p.initiator && t.out == [] && !t.closed && r.mode != FINGERPRINT
    requires p.limit > 0 ==> p.limit >= MIN_FRAME
    ensures var o := Step(p, t, r); o.Going? ==> o.turn.out == [] && !o.turn.closed
  {
    hide FirstNotBefore, EncodedLen, Diff, ListedIds, RestFrom;
    EmptyLen();
    assert t.out + [] == t.out;
  }

  // ---------------------------------------------------------- whole sessions

  const UNLIMITED := Limits(0, 0)

  lemma ReplyNarrows(w: World, s: State, b: int)
    requires Sound(w) && Good(w, s) && Narrow(w.b, s.msg, b)
    ensures var o := ReplyTo(w, UNLIMITED, s);
      && o.Going? && Sent(w, false, s.tally.reported, o.turn.out)
      && Ascending(o.turn.out) && Narrow(w.b, o.turn.out, Shrunk(b))
  {
    hide Sound, Answer, Fair, Told, Safe, ShortPrefixes, Narrow, Ascending, Orderly, Shrunk;
    NarrowAny(w.a, s.msg);
    AnswerSent(w, false, s.msg, {}, s.tally.reported, 0);
    AnswerNarrowed(w, false, s.msg, {}, s.tally.reported, b, |w.a|);
  }

  lemma NextNarrows(w: World, s: State, reply: seq<Range>, b: int)
    requires Sound(w) && Sent(w, false, s.tally.reported, reply) && Ascending(reply) && Narrow(w.b, reply, b)
    ensures var o := NextTo(w, UNLIMITED, s, reply);
      o.Going? && Narrow(w.b, o.turn.out, b) && (b == -1 ==> o.turn.out == [])
  {
    hide IdsIdentify, CollisionFree, Sorted, After, Sent, Narrow, Ascending, Shrunk;
    NarrowAny(w.a, reply);
    AnswerNarrowed(w, true, reply, s.tally.reported, s.tally.reported, |w.a|, b);
    if b == -1 { Silent(w, reply, |reply|, s.tally.reported, 0); }
  }

  lemma RoundNarrows(w: World, s: State, b: int)
    requires Sound(w) && Good(w, s) && Narrow(w.b, s.msg, b)
    ensures var r := Round(w, UNLIMITED, s);
      r.Some? && Good(w, r.value) && Narrow(w.b, r.value.msg, Shrunk(b)) && (b < 32 ==> r.value.msg == [])
  {
    hide Sound, Good, Narrow, Answer, Sent, Ascending, ReplyTo, NextTo;
    RoundGood(w, UNLIMITED, s);
    ReplyNarrows(w, s, b);
    NextNarrows(w, s, ReplyTo(w, UNLIMITED, s).turn.out, Shrunk(b));
  }

  /** How many rounds b items per open range can last. */
  function Depth(b: nat): (n: nat)
    ensures n > 0
  {
    if b < 32 then 1 else 1 + Depth((b + 15) / 16)
  }

  lemma {:induction false} EndsWithin(w: World, k: nat, b: nat)
    requires Sound(w) && Rounds(w, UNLIMITED, k).Some?
    requires Good(w, Rounds(w, UNLIMITED, k).value) && Narrow(w.b, Rounds(w, UNLIMITED, k).value.msg, b)
    ensures var s := Rounds(w, UNLIMITED, k + Depth(b)); s.Some? && s.value.msg == []
    decreases b
  {
    hide Sound, Good, Narrow, Round;
    RoundNarrows(w, Rounds(w, UNLIMITED, k).value, b);
    assert Rounds(w, UNLIMITED, k + 1) == Round(w, UNLIMITED, Rounds(w, UNLIMITED, k).value);
    if b >= 32 { EndsWithin(w, k + 1, (b + 15) / 16); }
  }

  lemma {:induction false} StaysEnded(w: World, l: Limits, k: nat, n: nat)
    requires k <= n && Rounds(w, l, k).Some? && Rounds(w, l, k).value.msg == []
    ensures Rounds(w, l, n).Some? && Rounds(w, l, n).value.msg == []
    decreases n
  {
    hide Round, First;
    if k < n {
      StaysEnded(w, l, k, n - 1);
      RoundEnded(w, l, Rounds(w, l, n - 1).value);
    }
  }

  lemma RoundEnded(w: World, l: Limits, s: State)
    requires s.msg == []
    ensures var r := Round(w, l, s); r.Some? && r.value.msg == []
  {
    hide Answer;
    NothingToAnswer(Role(w, false, l.b), {});
    NothingToAnswer(Role(w, true, l.a), s.tally.reported);
  }

  lemma NothingToAnswer(p: Party, reported: set<Id>)
    ensures Answer(p, reported, []) == Going(Start(reported))
  {
  }

  /**
    * With unlimited frames every session is over, and exact, after Depth(|b|)
    * rounds: the number of base-16 digits of the responder's set, about.
    */
  lemma UnlimitedConverges(w: World, n: nat)
    requires Sound(w) && n >= Depth(|w.b|)
    ensures var s := Rounds(w, UNLIMITED, n);
      && s.Some? && Complete(s.value.msg)
      && multiset(s.value.tally.have) == multiset(OnlyIds(w.a, w.b))
      && s.value.tally.need == multiset(OnlyIds(w.b, w.a))
  {
    hide Sound, Good, Narrow, Round, Rounds, OnlyIds;
    RunSafe(w, UNLIMITED, 0);
    NarrowAny(w.b, Rounds(w, UNLIMITED, 0).value.msg);
    EndsWithin(w, 0, |w.b|);
    StaysEnded(w, UNLIMITED, Depth(|w.b|), n);
    CompleteExact(w, UNLIMITED, n);
  }

  ghost function Pow16(n: nat): nat { if n == 0 then 1 else 16 * Pow16(n - 1) }

  /** The rounds grow with the logarithm of the set: sixteen times the items is one round more. */
  lemma {:induction false} DepthLogarithmic(b: nat, n: nat)
    requires n >= 1 && b <= 31 * Pow16(n - 1)
    ensures Depth(b) <= n
  {
    if b >= 32 {
      DepthLogarithmic((b + 15) / 16, n - 1);
    }
  }
}
