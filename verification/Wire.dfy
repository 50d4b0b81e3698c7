/**
  * Sessions over the wire (nip77/encoding.go:11-154 with nip77/reconcile.go):
  * which messages of a session come out of FromBytes as they went into ToBytes.
  */
module Wire {
  import opened Words
  import opened Items
  import opened Fingerprint
  import opened Codec
  import opened Split
  import opened Reconcile
  import opened FrameBound
  import opened Telling
  import opened Safety
  import opened Answers
  import opened Session
  import opened Convergence
  import opened Occupancy
  import opened RoundBound

  // ------------------------------------------------------- collisions by index

  lemma {:induction false} NoCollisionAt(rs: seq<Range>, last: U64, i: nat)
    requires NoCollision(rs, last) && i < |rs|
    ensures !Collides(rs[i].bound.ts, LastTs(rs[..i], last))
  {
    hide Collides, NextTs;
    if i > 0 {
      NoCollisionAt(rs[1..], NextTs(rs[0].bound.ts, last), i - 1);
      assert rs[..i][1..] == rs[1..][..i - 1];
    }
  }

  lemma {:induction false} CollisionFreeAll(rs: seq<Range>, last: U64)
    requires forall i :: 0 <= i < |rs| ==> !Collides(rs[i].bound.ts, LastTs(rs[..i], last))
    ensures NoCollision(rs, last)
  {
    hide Collides, NextTs;
    if rs != [] {
      var next := NextTs(rs[0].bound.ts, last);
      assert rs[..0] == [] && !Collides(rs[0].bound.ts, LastTs(rs[..0], last));
      forall i | 0 <= i < |rs[1..]| ensures !Collides(rs[1..][i].bound.ts, LastTs(rs[1..][..i], next)) {
        assert rs[..i + 1][1..] == rs[1..][..i];
        assert !Collides(rs[i + 1].bound.ts, LastTs(rs[..i + 1], last));
      }
      CollisionFreeAll(rs[1..], next);
    }
  }

  /** The last finite timestamp written is no later than any bound not yet passed. */
  lemma {:induction false} LastTsBelow(rs: seq<Range>, i: nat, b: Bound)
    requires i <= |rs| && Reach(rs[..i]) <= BoundRank(b)
    ensures LastTs(rs[..i], 0) <= b.ts
    decreases i
  {
    hide Reach, BoundRank, LastTs;
    if i == 0 {
      assert LastTs(rs[..0], 0) == 0 by { LastTsNone(); assert rs[..0] == []; }
    } else {
      ReachPrefix(rs, i - 1);
      assert rs[..i] == rs[..i - 1] + [rs[i - 1]];
      LastTsAppend(rs[..i - 1], rs[i - 1], 0);
      if rs[i - 1].bound.ts == INFINITE {
        LastTsBelow(rs, i - 1, b);
      } else {
        RankOrdersTimestamps(rs[i - 1].bound, b);
      }
    }
  }

  lemma LastTsNone() ensures LastTs([], 0) == 0 { }

  /** Where bounds ascend, nothing collides. */
  lemma AscendingNoCollision(rs: seq<Range>, i: nat)
    requires i < |rs| && Reach(rs[..i]) <= BoundRank(rs[i].bound)
    ensures !Collides(rs[i].bound.ts, LastTs(rs[..i], 0))
  {
    hide Reach, BoundRank, LastTs;
    LastTsBelow(rs, i, rs[i].bound);
  }

  lemma {:induction false} AscendingStep(rs: seq<Range>, i: nat)
    requires Ascending(rs) && i < |rs|
    ensures Reach(rs[..i]) <= BoundRank(rs[i].bound)
  {
    hide Reach, BoundRank;
    AscendingAt(rs, i);
    ReachPrefix(rs, i);
  }

  // ------------------------------------------------------------- sent messages

  /**
    * The repeated Skip of an overrun answer falls back by exactly one second, and
    * so is written as the offset that stands for infinity.
    */
  ghost predicate Garbled(rs: seq<Range>)
  {
    var n := |rs|;
    && Overran(rs) && rs[n - 3].bound.ts != INFINITE
    && rs[n - 3].bound.ts == rs[n - 2].bound.ts + 1
  }

  lemma OverranCollision(rs: seq<Range>)
    requires Overran(rs)
    ensures NoCollision(rs, 0) <==> !Garbled(rs)
  {
    hide Reach, BoundRank, LastTs, NoCollision, Ascending;
    var n := |rs|;
    var skip, list := rs[n - 2], rs[n - 3];
    assert rs[..n - 3] == rs[..n - 4] + [rs[n - 4]] && rs[..n - 2] == rs[..n - 3] + [list];
    LastTsAppend(rs[..n - 4], rs[n - 4], 0);
    LastTsAppend(rs[..n - 3], list, 0);
    assert Collides(skip.bound.ts, LastTs(rs[..n - 2], 0)) <==> Garbled(rs) by {
      AscendingStep(rs[..n - 2], n - 3);
      assert rs[..n - 2][..n - 3] == rs[..n - 3];
      ReachPrefix(rs, n - 4);
      RankOrdersTimestamps(rs[n - 4].bound, list.bound);
      LastTsBelow(rs, n - 4, skip.bound) by { AscendingStep(rs[..n - 2], n - 4); assert rs[..n - 2][..n - 4] == rs[..n - 4]; }
    }
    if NoCollision(rs, 0) {
      NoCollisionAt(rs, 0, n - 2);
    } else if !Garbled(rs) {
      forall i | 0 <= i < n ensures !Collides(rs[i].bound.ts, LastTs(rs[..i], 0)) {
        if i < n - 2 {
          AscendingStep(rs[..n - 2], i);
          assert rs[..n - 2][..i] == rs[..i];
          AscendingNoCollision(rs, i);
        }
      }
      CollisionFreeAll(rs, 0);
    }
  }

  lemma ShapedCollision(who: bool, rs: seq<Range>)
    requires Shaped(who, rs)
    ensures NoCollision(rs, 0) <==> !Garbled(rs)
    ensures Ascending(rs) ==> !Garbled(rs)
  {
    hide Reach, BoundRank, LastTs, NoCollision, Overran, Collides;
    if Ascending(rs) {
      forall i | 0 <= i < |rs| ensures !Collides(rs[i].bound.ts, LastTs(rs[..i], 0)) {
        AscendingStep(rs, i);
        AscendingNoCollision(rs, i);
      }
      CollisionFreeAll(rs, 0);
      if Overran(rs) { OverranCollision(rs); }
    } else {
      OverranCollision(rs);
    }
  }

  lemma SentWellFormed(w: World, who: bool, rep: set<Id>, rs: seq<Range>)
    requires Sound(w) && Told(w, who, rep, rs) && ShortPrefixes(rs)
    ensures WellFormedMessage(Message(VERSION, rs))
  {
    hide Sorted, IdsIdentify, CollisionFree, Told, Reach, Cut, BoundRank, Known, Print, IdListBytes, IsIdList;
    forall i | 0 <= i < |rs| ensures WellFormed(rs[i]) {
      ToldAt(w, who, rep, rs, i);
      if rs[i].mode == IDLIST {
        var from: nat :| Describes(w, who, rep, Reach(rs[..i]), rs[i], from);
        IdListRoundTrip(Own(w, who)[from..Cut(Own(w, who), BoundRank(rs[i].bound))]);
      }
    }
  }

  /** What the peer hears of a message. */
  function Heard(rs: seq<Range>): Option<seq<Range>>
  {
    var bytes := Encode(Message(VERSION, rs));
    if bytes.None? then None
    else
      var m := Decode(bytes.value);
      if m.None? then None else Some(m.value.ranges)
  }

  /**
    * A message of a session is heard as it was sent, unless it is the garbled one;
    * an initiator's always is.
    */
  lemma HeardAsSent(w: World, who: bool, rep: set<Id>, rs: seq<Range>)
    requires Sound(w) && Sent(w, who, rep, rs)
    ensures Heard(rs) == Some(rs) <==> !Garbled(rs)
    ensures who ==> Heard(rs) == Some(rs)
  {
    hide Sound, Told, Safe, ShortPrefixes, Encode, Decode, Garbled, NoCollision, Overran, WellFormedMessage;
    SentWellFormed(w, who, rep, rs);
    ShapedCollision(who, rs);
    WireRoundTrip(Message(VERSION, rs));
    DecodedVersion(Encode(Message(VERSION, rs)).value);
  }

  lemma DecodedVersion(data: Bytes)
    ensures Decode(data).Some? ==> Decode(data).value.version == VERSION
  {
    hide ReadRanges;
  }

  // ------------------------------------------------------------------ sessions

  /** A round in which both messages travel as bytes. */
  ghost function WireRound(w: World, l: Limits, s: State): Option<State>
  {
    var asked := Heard(s.msg);
    if asked.None? then None
    else
      var reply := ReplyTo(w, l, s.(msg := asked.value));
      if reply.Failed? then None
      else
        var answered := Heard(reply.turn.out);
        if answered.None? then None
        else
          var next := NextTo(w, l, s, answered.value);
          if next.Failed? then None
          else
            var t := next.turn.tally;
            Some(State(next.turn.out, Tally(t.reported, s.tally.have + t.have, s.tally.need + t.need)))
  }

  ghost function WireRounds(w: World, l: Limits, n: nat): Option<State>
  {
    if n == 0 then Some(First(w))
    else
      var s := WireRounds(w, l, n - 1);
      if s.None? then None else WireRound(w, l, s.value)
  }

  /** An answer that repeats no Skip behind a finite bound is not garbled. */
  lemma IntactNotGarbled(rs: seq<Range>)
    requires Shaped(false, rs) && Intact(rs)
    ensures !Garbled(rs)
  {
    hide Ascending, Overran;
    ShapedCollision(false, rs);
  }

  lemma WireRoundSame(w: World, l: Limits, s: State)
    requires Sound(w) && Allowed(l) && Good(w, s) && Occupied(w, true, s.msg)
    ensures ReplyTo(w, l, s).Going? && !Garbled(ReplyTo(w, l, s).turn.out)
    ensures WireRound(w, l, s) == Round(w, l, s)
  {
    hide Sound, Told, Safe, Shaped, ShortPrefixes, Answer, Fair, Heard, Garbled, Occupied, Intact;
    AnswerSent(w, false, s.msg, {}, s.tally.reported, l.b);
    RoundOccupied(w, l, s);
    IntactNotGarbled(ReplyTo(w, l, s).turn.out);
    HeardAsSent(w, true, s.tally.reported, s.msg);
    HeardAsSent(w, false, s.tally.reported, ReplyTo(w, l, s).turn.out);
    assert s.(msg := s.msg) == s;
  }

  /** No message that a run reaches gets a garbled reply, whatever the limits. */
  lemma NoReplyGarbled(w: World, l: Limits, n: nat)
    requires Sound(w) && Allowed(l)
    ensures Rounds(w, l, n).Some?
    ensures var o := ReplyTo(w, l, Rounds(w, l, n).value); o.Going? && !Garbled(o.turn.out)
  {
    hide Sound, Good, Rounds, Garbled, ReplyTo, Occupied;
    RunSafe(w, l, n);
    RunOccupied(w, l, n);
    WireRoundSame(w, l, Rounds(w, l, n).value);
  }

  /** Over the wire a session is the session, for every pair of limits. */
  lemma {:induction false} WireSessionSame(w: World, l: Limits, n: nat)
    requires Sound(w) && Allowed(l)
    ensures WireRounds(w, l, n) == Rounds(w, l, n)
  {
    hide Sound, Round, WireRound, Rounds, WireRounds;
    StartSame(w, l);
    if n > 0 {
      WireSessionSame(w, l, n - 1);
      NextSame(w, l, n - 1);
      NextRounds(w, l, n - 1);
    }
  }

  lemma StartSame(w: World, l: Limits) ensures WireRounds(w, l, 0) == Rounds(w, l, 0) { }

  lemma NextRounds(w: World, l: Limits, n: nat)
    requires Rounds(w, l, n).Some? && WireRounds(w, l, n) == Rounds(w, l, n)
    ensures Rounds(w, l, n + 1) == Round(w, l, Rounds(w, l, n).value)
    ensures WireRounds(w, l, n + 1) == WireRound(w, l, Rounds(w, l, n).value)
  {
    hide Round, WireRound, First;
  }

  lemma NextSame(w: World, l: Limits, n: nat)
    requires Sound(w) && Allowed(l)
    ensures Rounds(w, l, n).Some? && WireRound(w, l, Rounds(w, l, n).value) == Round(w, l, Rounds(w, l, n).value)
  {
    hide Sound, Good, Rounds, Garbled, ReplyTo, Occupied, Intact, WireRound, Round;
    RunSafe(w, l, n);
    RunOccupied(w, l, n);
    WireRoundSame(w, l, Rounds(w, l, n).value);
  }

  /** Every session over the wire converges to exactly the two differences, whatever the frame limits. */
  lemma EveryWireSessionConverges(w: World, l: Limits, n: nat)
    requires Sound(w) && Allowed(l) && n >= RoundLimit(w)
    ensures var s := WireRounds(w, l, n);
      && s.Some? && Complete(s.value.msg)
      && multiset(s.value.tally.have) == multiset(OnlyIds(w.a, w.b))
      && s.value.tally.need == multiset(OnlyIds(w.b, w.a))
  {
    hide Sound, Rounds, WireRounds, OnlyIds, RoundLimit;
    EverySessionConverges(w, l, n);
    WireSessionSame(w, l, n);
  }

  /** With unlimited frames it does so in logarithmically many rounds. */
  lemma UnlimitedOverWire(w: World, n: nat)
    requires Sound(w) && n >= Depth(|w.b|)
    ensures var s := WireRounds(w, UNLIMITED, n);
      && s.Some? && Complete(s.value.msg)
      && multiset(s.value.tally.have) == multiset(OnlyIds(w.a, w.b))
      && s.value.tally.need == multiset(OnlyIds(w.b, w.a))
  {
    hide Sound, Rounds, WireRounds, OnlyIds;
    WireSessionSame(w, UNLIMITED, n);
    UnlimitedConverges(w, n);
  }
}
