/**
  * Every session ends, whatever the frame limits (nip77/reconcile.go:31-127): each
  * round moves the first open range past some item, or divides it by sixteen. So
  * the rounds are bounded by the items, times the logarithm of the responder's.
  */
module RoundBound {
  import opened Words
  import opened Items
  import opened Codec
  import opened Split
  import opened Reconcile
  import opened FrameBound
  import opened Telling
  import opened Safety
  import opened Answers
  import opened Session
  import opened Convergence
  import opened Progress
  import opened Occupancy

  // --------------------------------------------------------------- the measure

  /** The items of both parties that rank below k. */
  ghost function Below(w: World, k: nat): nat { Cut(w.a, k) + Cut(w.b, k) }

  /** The items of both parties settled before the first open range. */
  ghost function Passed(w: World, rs: seq<Range>, d: nat): nat
    requires d <= |rs|
  {
    Below(w, Reach(rs[..d]))
  }

  ghost function Between(s: seq<Item>, k: nat, k': nat): nat { if Cut(s, k) <= Cut(s, k') then Cut(s, k') - Cut(s, k) else 0 }

  /** How often the range can still be split by the responder. */
  ghost function Splits(w: World, rs: seq<Range>, d: nat): nat
    requires d < |rs|
  {
    if rs[d].mode == FINGERPRINT then Depth(Between(w.b, Reach(rs[..d]), Reach(rs[..d + 1]))) else 0
  }

  ghost predicate Ahead(w: World, rs: seq<Range>, d: nat, rs': seq<Range>, e: nat)
    requires d < |rs|
  {
    && IsLead(rs', e)
    && (|| Passed(w, rs, d) < Passed(w, rs', e)
        || (Passed(w, rs, d) == Passed(w, rs', e) && Splits(w, rs', e) < Splits(w, rs, d)))
  }

  lemma BelowMonotone(w: World, k: nat, k': nat)
    requires Sorted(w.a) && Sorted(w.b) && k <= k'
    ensures Cut(w.a, k) <= Cut(w.a, k') && Cut(w.b, k) <= Cut(w.b, k') && Below(w, k) <= Below(w, k')
  {
    hide Sorted, Cut;
    CutMonotone(w.a, k, k');
    CutMonotone(w.b, k, k');
  }

  lemma {:induction false} DepthMonotone(b: nat, c: nat)
    requires b <= c
    ensures Depth(b) <= Depth(c)
  {
    if b >= 32 { DepthMonotone((b + 15) / 16, (c + 15) / 16); }
  }

  // ---------------------------------------------------------------- one round

  /** Passing the whole of an occupied range passes some item. */
  lemma PassesRange(w: World, m: seq<Range>, d: nat, k: nat)
    requires Sorted(w.a) && Sorted(w.b) && d < |m| && (m[d].mode == FINGERPRINT || m[d].mode == IDLIST)
    requires OccupiedNext(w, true, Reach(m[..d]), m[d]) && BoundRank(m[d].bound) == Reach(m[..d + 1]) <= k < Top()
    ensures Passed(w, m, d) < Below(w, k)
  {
    hide Sorted, Cut, Reach, BoundRank, Top;
    ReachMonotone(m, d, d + 1);
    BelowMonotone(w, Reach(m[..d]), Reach(m[..d + 1]));
    BelowMonotone(w, Reach(m[..d + 1]), k);
  }

  /** A range that is still open starts before the end. */
  lemma LeadBelowTop(rs: seq<Range>, d: nat)
    requires d < |rs| && Reach(rs[..d]) < Reach(rs[..d + 1])
    ensures Reach(rs[..d]) < Top()
  {
    hide Reach, Top;
    ReachAtMostTop(rs[..d + 1]);
  }

  /** Two answers in turn move the first open range on. */
  lemma TwoAnswers(w: World, m: seq<Range>, d: nat, reply: seq<Range>, e: nat, next: seq<Range>, f: nat)
    requires Sorted(w.a) && Sorted(w.b) && d < |m| && (m[d].mode == FINGERPRINT || m[d].mode == IDLIST)
    requires OccupiedNext(w, true, Reach(m[..d]), m[d]) && BoundRank(m[d].bound) == Reach(m[..d + 1])
    requires LedAt(w, false, m, d, reply, e) && LedAt(w, true, reply, e, next, f)
    ensures Ahead(w, m, d, next, f)
  {
    hide Sorted, Reach, Cut, BoundRank, Top, OccupiedNext, Splits, PartOf;
    var F, E, E1, G := Reach(m[..d]), Reach(m[..d + 1]), Reach(reply[..e + 1]), Reach(next[..f]);
    LeadBelowTop(next, f);
    if E <= G {
      PassesRange(w, m, d, G);
    } else if E1 <= G {
      PassesPart(w, m[d].mode, F, E, reply[e].mode, E1, G);
    } else {
      DividesRange(w, m, d, reply, e, next, f);
    }
  }

  lemma PassesPart(w: World, asked: int, k: nat, k': nat, mode: int, end: nat, g: nat)
    requires Sorted(w.a) && Sorted(w.b) && k < end < k' && end <= g && PartOf(w.b, asked, k, k', mode, end)
    ensures Below(w, k) < Below(w, g)
  {
    hide Sorted, Cut;
    BelowMonotone(w, k, end);
    BelowMonotone(w, end, g);
  }

  /** Staying in place, the responder's items in the range are divided by sixteen. */
  lemma DividesRange(w: World, m: seq<Range>, d: nat, reply: seq<Range>, e: nat, next: seq<Range>, f: nat)
    requires Sorted(w.a) && Sorted(w.b) && d < |m|
    requires LedAt(w, false, m, d, reply, e) && LedAt(w, true, reply, e, next, f)
    requires Reach(next[..f]) < Reach(reply[..e + 1]) && Reach(next[..f]) < Reach(m[..d + 1])
    ensures Passed(w, m, d) == Passed(w, next, f) && Splits(w, next, f) < Splits(w, m, d)
  {
    hide Sorted, Reach, Cut, PartOf, Between, Depth;
    var F, E, E1, E2 := Reach(m[..d]), Reach(m[..d + 1]), Reach(reply[..e + 1]), Reach(next[..f + 1]);
    AsksFingerprint(w.a, reply[e].mode, F, E1, next[f].mode, E2);
    AsksFingerprint(w.b, m[d].mode, F, E, reply[e].mode, E1);
    FewerSplits(w, m[d].mode, F, E, E1, E2);
  }

  lemma AsksFingerprint(own: seq<Item>, asked: int, k: nat, k': nat, mode: int, end: nat)
    requires PartOf(own, asked, k, k', mode, end)
    ensures end <= k' && (mode == FINGERPRINT ==> asked == FINGERPRINT)
  {
    hide Cut;
  }

  lemma FewerSplits(w: World, asked: int, k: nat, k': nat, end: nat, end': nat)
    requires Sorted(w.a) && Sorted(w.b) && k <= end' <= end <= k' && PartOf(w.b, asked, k, k', FINGERPRINT, end)
    ensures Depth(Between(w.b, k, end')) < Depth(Between(w.b, k, k'))
  {
    hide Sorted, Cut;
    BelowMonotone(w, k, end');
    BelowMonotone(w, end', end);
    BelowMonotone(w, end, k');
    DepthMonotone(Between(w.b, k, end'), (Between(w.b, k, k') + 15) / 16);
  }

  /** The run's messages, as they are between rounds. */
  ghost predicate Kept(w: World, s: State) { Good(w, s) && Sharp(s.msg) && Occupied(w, true, s.msg) }

  lemma RoundAhead(w: World, l: Limits, s: State, d: nat)
    requires Sound(w) && Allowed(l) && Kept(w, s) && IsLead(s.msg, d)
    ensures var r := Round(w, l, s);
      && r.Some? && Kept(w, r.value)
      && (r.value.msg == [] || exists f: nat :: Ahead(w, s.msg, d, r.value.msg, f))
  {
    hide Sorted, IdsIdentify, CollisionFree, Answer, OnlyIds, Fair, Sent, Sharp, Edged, Reach, LedAt, Ahead, Occupied, Intact;
    RoundGood(w, l, s);
    RoundOccupied(w, l, s);
    SharpLead(s.msg, d);
    var rep := s.tally.reported;
    AnswerSent(w, false, s.msg, {}, rep, l.b);
    AnswerLeads(w, false, s.msg, d, {}, rep, l.b);
    var reply := ReplyTo(w, l, s).turn.out;
    if reply == [] {
      NothingToAnswer(Role(w, true, l.a), rep);
      SharpNothing();
    } else {
      var e: nat :| LedAt(w, false, s.msg, d, reply, e);
      LedLead(w, false, s.msg, d, reply, e);
      AnswerLeads(w, true, reply, e, rep, rep, l.a);
      var next := NextTo(w, l, s, reply).turn.out;
      if next != [] {
        var f: nat :| LedAt(w, true, reply, e, next, f);
        LeadOccupied(w, s, d);
        TwoAnswers(w, s.msg, d, reply, e, next, f);
      }
    }
  }

  lemma LeadOccupied(w: World, s: State, d: nat)
    requires Kept(w, s) && IsLead(s.msg, d)
    ensures OccupiedNext(w, true, Reach(s.msg[..d]), s.msg[d]) && BoundRank(s.msg[d].bound) == Reach(s.msg[..d + 1])
    ensures s.msg[d].mode == FINGERPRINT || s.msg[d].mode == IDLIST
  {
    hide Told, Safe, Shaped, ShortPrefixes, Fair, Sharp, Reach, BoundRank, OccupiedNext;
    OccupiedAt(w, true, s.msg, d);
    BoundAhead(w, true, s.tally.reported, s.msg, d);
  }

  // ---------------------------------------------------------------- all rounds

  /** As many rounds as p items to pass and q splits in place can take, at most depth splits for each item. */
  function Rest(depth: nat, p: nat, q: nat): nat { p * (depth + 1) + q + 1 }

  lemma RestFalls(depth: nat, p: nat, q: nat, p': nat, q': nat)
    requires q' <= depth && (p' < p || (p' == p && q' < q))
    ensures Rest(depth, p', q') < Rest(depth, p, q)
  {
    if p' < p { assert (p' + 1) * (depth + 1) <= p * (depth + 1); }
  }

  /** The rounds a session may take: its items, times the logarithm of the responder's. */
  ghost function RoundLimit(w: World): nat { (|w.a| + |w.b| + 1) * (Depth(|w.b|) + 1) }

  lemma Measured(w: World, rs: seq<Range>, d: nat)
    requires Sorted(w.a) && Sorted(w.b) && d < |rs|
    ensures Passed(w, rs, d) <= |w.a| + |w.b| && Splits(w, rs, d) <= Depth(|w.b|)
  {
    hide Sorted, Cut, Reach;
    DepthMonotone(Between(w.b, Reach(rs[..d]), Reach(rs[..d + 1])), |w.b|);
  }

  lemma {:induction false} EndsFrom(w: World, l: Limits, k: nat, s: State, d: nat) returns (n: nat)
    requires Sound(w) && Allowed(l) && Rounds(w, l, k) == Some(s) && Kept(w, s) && IsLead(s.msg, d)
    requires Passed(w, s.msg, d) <= |w.a| + |w.b|
    ensures n <= k + Rest(Depth(|w.b|), |w.a| + |w.b| - Passed(w, s.msg, d), Splits(w, s.msg, d))
    ensures Rounds(w, l, n).Some? && Rounds(w, l, n).value.msg == []
    decreases |w.a| + |w.b| - Passed(w, s.msg, d), Splits(w, s.msg, d)
  {
    hide IdsIdentify, CollisionFree, Sorted, Kept, Round, First, Passed, Splits, Rest, IsLead;
    LeadIndex(s.msg, d);
    RoundAhead(w, l, s, d);
    var s' := Round(w, l, s).value;
    assert Rounds(w, l, k + 1) == Some(s');
    AtLeastOne(Depth(|w.b|), |w.a| + |w.b| - Passed(w, s.msg, d), Splits(w, s.msg, d));
    if s'.msg == [] {
      n := k + 1;
    } else {
      var f: nat :| Ahead(w, s.msg, d, s'.msg, f);
      assert f < |s'.msg| by { LeadIndex(s'.msg, f); }
      Measured(w, s'.msg, f);
      var all := |w.a| + |w.b|;
      RestFalls(Depth(|w.b|), all - Passed(w, s.msg, d), Splits(w, s.msg, d), all - Passed(w, s'.msg, f), Splits(w, s'.msg, f));
      n := EndsFrom(w, l, k + 1, s', f);
    }
  }

  lemma LeadIndex(rs: seq<Range>, d: nat)
    requires IsLead(rs, d)
    ensures d < |rs|
  {
  }

  lemma AtLeastOne(depth: nat, p: nat, q: nat)
    ensures Rest(depth, p, q) >= 1
  {
  }

  /**
    * Whatever the two frame limits, after RoundLimit(w) rounds every session has
    * reached a complete message, and the caller has been told exactly the two
    * differences, each id once.
    */
  lemma EverySessionConverges(w: World, l: Limits, n: nat)
    requires Sound(w) && Allowed(l) && n >= RoundLimit(w)
    ensures var s := Rounds(w, l, n);
      && s.Some? && Complete(s.value.msg)
      && multiset(s.value.tally.have) == multiset(OnlyIds(w.a, w.b))
      && s.value.tally.need == multiset(OnlyIds(w.b, w.a))
  {
    hide IdsIdentify, CollisionFree, Sorted, Good, Sharp, Rounds, OnlyIds, IsLead, Occupied, Passed, Splits;
    RunSafe(w, l, 0);
    FirstSharp(w);
    FirstOccupied(w);
    assert Rounds(w, l, 0) == Some(First(w)) by { RoundsZero(w, l); }
    assert 0 < |First(w).msg| by { LeadIndex(First(w).msg, 0); }
    Measured(w, First(w).msg, 0);
    var k := EndsFrom(w, l, 0, First(w), 0);
    WithinLimit(w, Passed(w, First(w).msg, 0), Splits(w, First(w).msg, 0));
    StaysEnded(w, l, k, n);
    CompleteExact(w, l, n);
  }

  lemma WithinLimit(w: World, p: nat, q: nat)
    requires p <= |w.a| + |w.b| && q <= Depth(|w.b|)
    ensures Rest(Depth(|w.b|), |w.a| + |w.b| - p, q) <= RoundLimit(w)
  {
    hide Depth;
    var all, d := |w.a| + |w.b|, Depth(|w.b|);
    assert (all - p) * (d + 1) <= all * (d + 1);
    assert (all + 1) * (d + 1) == all * (d + 1) + d + 1;
  }

  lemma RoundsZero(w: World, l: Limits) ensures Rounds(w, l, 0) == Some(First(w)) { }
}
