/**
  * Whole sessions (nip77/negentropy.go:70-88, nip77/reconcile.go:18-130): the
  * initiator's first message, then rounds of a reply and an answer to it.
  */
module Session {
  import opened Words
  import opened Items
  import opened Fingerprint
  import opened Codec
  import opened Split
  import opened Reconcile
  import opened FrameBound
  import opened Telling
  import opened Safety
  import opened Answers
  import opened Varints

  /** The initiator's message in flight, and everything it has told its caller. */
  datatype State = State(msg: seq<Range>, tally: Tally)

  /** The effective frame limits of initiator and responder, 0 for none. */
  datatype Limits = Limits(a: nat, b: nat)

  ghost predicate Allowed(l: Limits)
  {
    (l.a > 0 ==> l.a >= MIN_FRAME) && (l.b > 0 ==> l.b >= MIN_FRAME)
  }

  ghost function First(w: World): State
  {
    State(SplitSpec(w.hash, w.a, 0, |w.a|, Infinity), Tally({}, [], multiset{}))
  }

  ghost function ReplyTo(w: World, l: Limits, s: State): Outcome { Answer(Role(w, false, l.b), {}, s.msg) }

  ghost function NextTo(w: World, l: Limits, s: State, reply: seq<Range>): Outcome
  {
    Answer(Role(w, true, l.a), s.tally.reported, reply)
  }

  /** The responder replies and the initiator answers the reply; None if either fails. */
  ghost function Round(w: World, l: Limits, s: State): Option<State>
  {
    var reply := ReplyTo(w, l, s);
    if reply.Failed? then None
    else
      var next := NextTo(w, l, s, reply.turn.out);
      if next.Failed? then None
      else
        var t := next.turn.tally;
        Some(State(next.turn.out, Tally(t.reported, s.tally.have + t.have, s.tally.need + t.need)))
  }

  ghost function Rounds(w: World, l: Limits, n: nat): Option<State>
  {
    if n == 0 then Some(First(w))
    else
      var s := Rounds(w, l, n - 1);
      if s.None? then None else Round(w, l, s.value)
  }

  predicate Complete(rs: seq<Range>) { forall i :: 0 <= i < |rs| ==> rs[i].mode == SKIP }

  /** IsComplete. */
  method IsComplete(m: Message) returns (done: bool)
    ensures done <==> Complete(m.ranges)
  {
    for i := 0 to |m.ranges|
      invariant forall j :: 0 <= j < i ==> m.ranges[j].mode == SKIP
    {
      if m.ranges[i].mode != SKIP { return false; }
    }
    done := true;
  }

  /** What every reached state satisfies. */
  ghost predicate Good(w: World, s: State)
  {
    Sent(w, true, s.tally.reported, s.msg) && Fair(w, {}, s.tally)
  }

  lemma FirstGood(w: World)
    requires Sound(w)
    ensures Good(w, First(w))
  {
    hide Sorted, IdsIdentify, CollisionFree, Told, Reach, Cut, BoundRank, Top, SplitSpec, Open, Ascending, Rank;
    CutZero(w.a);
    CutTop(w.a);
    InfinityRank();
    assert Told(w, true, {}, []) && Ascending([]) && Reach([]) == 0 by { EmptyTold(w); }
    GappedNothing(w);
    SplitTold(w, true, {}, [], 0, Infinity);
    var rs := First(w).msg;
    assert [] + rs == rs;
    GappedReach(w, true, {}, rs, Top());
    CoveredRegion(w, [], rs, 0, Top(), {});
    forall x | Odd(w, x) ensures Open(rs, x) { BelowTop(x); }
    SplitShort(w.hash, w.a, 0, |w.a|, Infinity, 32);
  }

  lemma EmptyTold(w: World) ensures Told(w, true, {}, []) && Ascending([]) && Reach([]) == 0 { }

  lemma GappedNothing(w: World)
    requires Reach([]) == 0 && Told(w, true, {}, [])
    ensures Gapped(w, true, {}, [], 0) && Covered(w, [], 0, {})
  {
    hide Cut, Reach, Told, Rank, Open;
  }

  lemma RoundGood(w: World, l: Limits, s: State)
    requires Sound(w) && Allowed(l) && Good(w, s)
    ensures var r := Round(w, l, s); r.Some? && Good(w, r.value)
  {
    hide Sound, Sent, Answer, OnlyIds, Fair;
    AnswerSent(w, false, s.msg, {}, s.tally.reported, l.b);
    var reply := ReplyTo(w, l, s).turn.out;
    AnswerSent(w, true, reply, s.tally.reported, s.tally.reported, l.a);
    FairJoin(w, s.tally, NextTo(w, l, s, reply).turn.tally);
  }

  lemma FairJoin(w: World, s: Tally, t: Tally)
    requires Fair(w, {}, s) && Fair(w, s.reported, t)
    ensures Fair(w, {}, Tally(t.reported, s.have + t.have, s.need + t.need))
  {
    hide OnlyIds;
    assert s.reported - {} == s.reported && t.reported - {} == t.reported;
    var gained := t.reported - s.reported;
    assert t.reported == s.reported + gained;
    assert multiset(t.reported) == multiset(s.reported) + multiset(gained);
    assert multiset(s.have + t.have) == multiset(s.have) + multiset(t.have);
  }

  /**
    * Safety of every run, for every pair of frame limits: no round fails, and
    * after each one every difference is reported or lies in a range still open,
    * while everything reported is a true difference reported once.
    */
  lemma {:induction false} RunSafe(w: World, l: Limits, n: nat)
    requires Sound(w) && Allowed(l)
    ensures Rounds(w, l, n).Some? && Good(w, Rounds(w, l, n).value)
  {
    hide Sound, Good, Round;
    if n == 0 {
      FirstGood(w);
    } else {
      RunSafe(w, l, n - 1);
      RoundGood(w, l, Rounds(w, l, n - 1).value);
    }
  }

  lemma {:induction false} CompleteNotOpen(rs: seq<Range>, x: Item)
    requires Complete(rs)
    ensures !Open(rs, x)
  {
    hide Reach, Rank;
    if rs != [] { CompleteNotOpen(rs[..|rs| - 1], x); }
  }

  /** A run that completes has told the caller exactly the two differences, each id once. */
  lemma CompleteExact(w: World, l: Limits, n: nat)
    requires Sound(w) && Allowed(l)
    ensures Rounds(w, l, n).Some?
    ensures var s := Rounds(w, l, n).value;
      Complete(s.msg) ==>
        && multiset(s.tally.have) == multiset(OnlyIds(w.a, w.b))
        && s.tally.need == multiset(OnlyIds(w.b, w.a))
  {
    hide Rounds, Complete, Told, Shaped, Open;
    RunSafe(w, l, n);
    var s := Rounds(w, l, n).value;
    if Complete(s.msg) {
      forall x | Odd(w, x) ensures x.id in s.tally.reported {
        CompleteNotOpen(s.msg, x);
      }
      OnlyDisjoint(w);
      assert s.tally.reported - {} == s.tally.reported;
      Apportioned(s.tally, OnlyIds(w.a, w.b), OnlyIds(w.b, w.a));
    }
  }

  lemma OnlyDisjoint(w: World)
    requires IdsIdentify(w)
    ensures OnlyIds(w.a, w.b) !! OnlyIds(w.b, w.a)
  {
    forall id | id in OnlyIds(w.a, w.b) && id in OnlyIds(w.b, w.a) ensures false {
      var x :| x in w.a && x !in w.b && x.id == id;
      var y :| y in w.b && y !in w.a && y.id == id;
      assert Holds(w, x) && Holds(w, y);
    }
  }

  lemma Apportioned(t: Tally, a: set<Id>, b: set<Id>)
    requires multiset(t.have) + t.need == multiset(t.reported) && a !! b
    requires a <= t.reported && b <= t.reported
    requires forall id :: id in multiset(t.have) ==> id in a
    requires forall id :: id in t.need ==> id in b
    ensures multiset(t.have) == multiset(a) && t.need == multiset(b)
  {
    forall id: Id ensures multiset(t.have)[id] == multiset(a)[id] && t.need[id] == multiset(b)[id] {
      assert (multiset(t.have) + t.need)[id] == multiset(t.reported)[id];
    }
  }

  // ------------------------------------------------------------- not vacuous

  /** A hash that keeps the count: enough to tell one item from none. */
  function CountHash(bs: Bytes): Digest
  {
    if |bs| > 32 then seq(32, _ => bs[32]) else seq(32, _ => 0)
  }

  /** The hypotheses of the theorems can be met with a difference to be found. */
  lemma HypothesesHold(x: Item)
    requires x.ts < INFINITE
    ensures Sound(World(CountHash, [x], [])) && Odd(World(CountHash, [x], []), x)
  {
    var w := World(CountHash, [x], []);
    PrintsDiffer(x);
    assert SortedTo(w.a, 0) && SortedTo(w.b, 0);
    forall k: nat, k': nat, from: nat | k <= k' ensures Tells(w, k, k', from) {
      if from <= Cut(w.a, k') { SlicesOfOne(x, from, Cut(w.a, k')); }
      assert w.b[Cut(w.b, k)..Cut(w.b, k)] == [];
    }
    assert x in w.a && x !in w.b;
  }

  lemma SlicesOfOne(x: Item, i: nat, j: nat)
    requires i <= j <= 1
    ensures var t := [x][i..j]; t == [] || t == [x]
  {
  }

  lemma PrintsDiffer(x: Item)
    ensures Print(CountHash, [x]) != Print(CountHash, [])
  {
    VarintSmall(0);
    VarintSmall(1);
    var one, none := LittleBytes(IdSum([x]), WIDTH) + Varint(1), LittleBytes(IdSum([]), WIDTH) + Varint(0);
    assert one[32] == 1 && none[32] == 0;
    assert Print(CountHash, [x])[0] == 1 && Print(CountHash, [])[0] == 0;
  }
}
