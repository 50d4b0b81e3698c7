/**
  * A reply that is garbled on the wire (nip77/reconcile.go:87-119 with
  * nip77/encoding.go:23-31): the closing branch repeats a Skip after an empty id
  * list that overran the frame, and one second back is written as infinity. The
  * message answered is a foreign peer's: truthful, but one that no run reaches.
  */
module Overrun {
  import opened Words
  import opened Items
  import opened Varints
  import opened Fingerprint
  import opened Codec
  import opened Split
  import opened Frame
  import opened Reconcile
  import opened FrameBound
  import opened Telling
  import opened Safety
  import opened Answers
  import opened Session
  import opened Occupancy
  import opened Wire

  function Zeros(): (bs: Bytes)
    ensures |bs| == 32
  {
    seq(32, _ => 0)
  }

  function Listed(i: nat): Item
    requires i < 119
  {
    Item(0, [i] + seq(31, _ => 0))
  }

  /** The responder's 119 items, all of timestamp 0. */
  function Held(): (s: seq<Item>)
    ensures |s| == 119
  {
    seq(119, i requires 0 <= i < 119 => Listed(i))
  }

  function At(ts: U64): Bound { Bound(ts, Zeros()) }

  function Nothing(ts: U64): Range { Range(At(ts), IDLIST, [0]) }

  /** A peer without items lists nothing up to second 1, settles up to 2, and lists nothing up to 3. */
  function Asked(): seq<Range> { [Nothing(1), SkipTo(At(2)), Nothing(3)] }

  ghost function Responder(hash: Hash): Party { Party(hash, Held(), false, 4096) }

  lemma AllBefore(from: nat, ts: U64)
    requires from <= 119 && 0 < ts < INFINITE
    ensures FirstNotBefore(Held(), from, At(ts)) == 119
    decreases 119 - from
  {
    if from < 119 { AllBefore(from + 1, ts); }
  }

  lemma NoneListed()
    ensures ListedIds([0]) == Some([])
    ensures IdListBytes([]) == [0]
  {
    VarintRoundTrip(0, []);
    VarintSmall(0);
    assert Varint(0) + [] == [0];
  }

  /** The size of a range whose bound is one or two seconds on. */
  lemma NearRange(ts: U64, last: U64, mode: int, payload: Bytes)
    requires 0 <= ts - last <= 2 && ts < INFINITE && Writable(Range(At(ts), mode, payload)) && mode != FINGERPRINT
    ensures |RangeBytes(Range(At(ts), mode, payload), last)| == 35 + (if mode == IDLIST then |payload| else 0)
  {
    RangeLenIsEncoded(Range(At(ts), mode, payload), last);
    VarintSmall(1 + ts - last);
    VarintSmall(32);
  }

  ghost function Whole(): Range { Range(At(1), IDLIST, IdListBytes(Held())) }

  lemma WholeSize()
    ensures EncodedLen([Whole()]) == 3845
    ensures EncodedLen([Whole(), SkipTo(At(2))]) == 3880
    ensures EncodedLen([Whole(), SkipTo(At(2)), Nothing(3)]) == 3916
  {
    hide EncodedLen, RangeBytes, IdListBytes, LastTs;
    var one, two, three := [Whole()], [Whole(), SkipTo(At(2))], [Whole(), SkipTo(At(2)), Nothing(3)];
    assert one == [] + [Whole()] && two == one + [SkipTo(At(2))] && three == two + [Nothing(3)];
    EmptyLen();
    LastTsNone();
    ListSize119();
    EncodedLenAppend([], Whole());
    NearRange(1, 0, IDLIST, IdListBytes(Held()));
    LastTsAppend([], Whole(), 0);
    EncodedLenAppend(one, SkipTo(At(2)));
    NearRange(2, 1, SKIP, []);
    LastTsAppend(one, SkipTo(At(2)), 0);
    EncodedLenAppend(two, Nothing(3));
    NearRange(3, 2, IDLIST, [0]);
  }

  lemma ListSize119()
    ensures |IdListBytes(Held())| == 3809
  {
    VarintSmall(119);
    hide Varint, Held;
  }

  lemma {:induction false} ListAll(i: nat)
    requires i <= 119
    ensures ListEnd(4096, 1, 0, i, 119) == 119
    decreases 119 - i
  {
    if i < 119 { ListAll(i + 1); }
  }

  /** The three turns of the responder's answer. */
  lemma FirstTurn(hash: Hash)
    ensures var o := After(Responder(hash), {}, Asked(), 1);
      o.Going? && var t := o.turn;
      !t.closed && !t.skip && t.prevIdx == 119 && t.writtenIdx == 119 && t.prevBound == At(1) && t.out == [Whole()]
  {
    hide Held, EncodedLen, IdListBytes, ListedIds, Diff, FirstNotBefore, Reply, Finish, At, After;
    var p, t := Responder(hash), Start({});
    AllBefore(0, 1);
    NoneListed();
    AfterNone(p, {}, Asked());
    AfterNext(p, {}, Asked(), 0, t, 119);
    WholeFits(p, t.(tally := Diff(false, p.items[0..119], IdSet([]), t.tally)));
  }

  /** The first list is written whole. */
  lemma WholeFits(p: Party, t: Turn)
    requires p.items == Held() && !p.initiator && p.limit == 4096 && t.prevIdx == 0 && t.writtenIdx == 0 && !t.skip && t.out == []
    ensures Finish(p, t, Reply(p, t, Nothing(1), 119), At(1)) == Turn(119, At(1), 119, false, [Whole()], t.tally, false)
  {
    hide Held, EncodedLen, IdListBytes, ListEnd, RestFrom, At;
    EmptyLen();
    ListAll(0);
    WholeSize();
    assert t.out + Pending(t) == [];
    assert p.items[0..119] == p.items;
    assert [] + [Whole()] == [Whole()] && [Whole()] + [] == [Whole()];
  }

  lemma SecondTurn(hash: Hash, rs: seq<Range>, n: nat)
    requires rs == Asked() && n == 2
    ensures var o := After(Responder(hash), {}, rs, n);
      o.Going? && var t := o.turn;
      !t.closed && t.skip && t.prevIdx == 119 && t.writtenIdx == 119 && t.prevBound == At(2) && t.out == [Whole()]
  {
    hide Held, EncodedLen, IdListBytes, FirstNotBefore, RestFrom, After;
    FirstTurn(hash);
    var p := Responder(hash);
    var t := After(p, {}, Asked(), 1).turn;
    AllBefore(119, 2);
    WholeSize();
    AfterNext(p, {}, Asked(), 1, t, 119);
    assert t.out + [] == t.out;
  }

  lemma ThirdTurn(hash: Hash, rs: seq<Range>, n: nat)
    requires rs == Asked() && n == 3
    ensures var o := After(Responder(hash), {}, rs, n);
      o.Going? && o.turn.closed
      && o.turn.out == [Whole(), SkipTo(At(2)), Nothing(3), SkipTo(At(2)), RestFrom(Responder(hash), 119)]
  {
    hide Held, EncodedLen, IdListBytes, FirstNotBefore, RestFrom, After, Diff, ListedIds;
    SecondTurn(hash, rs, 2);
    var p := Responder(hash);
    var t := After(p, {}, Asked(), 2).turn;
    AllBefore(119, 3);
    NoneListed();
    WholeSize();
    AfterNext(p, {}, Asked(), 2, t, 119);
    assert t.out + Pending(t) == [Whole(), SkipTo(At(2))];
    assert p.items[119..119] == [];
    assert [Whole(), SkipTo(At(2))] + [Nothing(3)] + [] == [Whole(), SkipTo(At(2)), Nothing(3)];
  }

  ghost function Answered(hash: Hash): seq<Range>
  {
    [Whole(), SkipTo(At(2)), Nothing(3), SkipTo(At(2)), RestFrom(Responder(hash), 119)]
  }

  lemma AnsweredGarbled(hash: Hash)
    ensures Garbled(Answered(hash))
  {
    hide Held, IdListBytes, Ascending, Print, Zeros, Reach, BoundRank;
    ThreeAscend(Whole());
    var out := Answered(hash);
    assert out[..3] == [Whole(), SkipTo(At(2)), Nothing(3)] && out[..1] == [Whole()];
  }

  lemma AnsweredWellFormed(hash: Hash)
    ensures WellFormedMessage(Message(VERSION, Answered(hash)))
  {
    hide Held, WellFormed, Print, IdListBytes, Zeros;
    WholeWellFormed();
    NothingWellFormed(3);
    SkipWellFormed(2);
    RestWellFormed(hash);
  }

  lemma WholeWellFormed()
    ensures WellFormed(Whole())
  {
    hide Held, IdListBytes, IsIdList, Zeros;
    IdListRoundTrip(Held());
  }

  lemma NothingWellFormed(ts: U64)
    ensures WellFormed(Nothing(ts))
  {
    hide IdListBytes, IsIdList, Zeros;
    NoneListed();
    IdListRoundTrip([]);
  }

  lemma SkipWellFormed(ts: U64)
    ensures WellFormed(SkipTo(At(ts)))
  {
    hide Zeros;
  }

  lemma RestWellFormed(hash: Hash)
    ensures WellFormed(RestFrom(Responder(hash), 119))
  {
    hide Held, Print;
  }

  /** The message answered is truthful about a peer without items, and leaves every difference open. */
  lemma AskedIsSent(hash: Hash)
    ensures Sent(World(hash, [], Held()), true, {}, Asked())
  {
    hide Held, Told, Open, Ascending, Reach, BoundRank, Rank;
    var w, rs := World(hash, [], Held()), Asked();
    ThreeAscend(Nothing(1));
    AskedTold(hash);
    assert [Nothing(1)] == [] + [Nothing(1)];
    forall x | Odd(w, x) ensures Open(rs, x) {
      HeldEarly(x);
      BeforeIsRank(x, At(1));
      NothingAscends();
      OpenAppend([], Nothing(1), x);
      OpenExtends([Nothing(1)], rs[1..], x);
      assert rs == [Nothing(1)] + rs[1..];
    }
  }

  /** Its third range holds none of the responder's items. */
  lemma AskedUnoccupied(w: World)
    requires w.b == Held() && Sorted(Held())
    ensures !Occupied(w, true, Asked())
  {
    hide Held, Occupied, Reach, BoundRank, Rank, Top, Sorted, Cut;
    var rs := Asked();
    ThreeAscend(Nothing(1));
    assert rs[..2] == [Nothing(1), SkipTo(At(2))];
    AllHeldBefore(2);
    AllHeldBefore(3);
    BelowInfinity(At(3));
    if Occupied(w, true, rs) { OccupiedAt(w, true, rs, 2); }
  }

  lemma AllHeldBefore(ts: U64)
    requires Sorted(Held()) && 0 < ts < INFINITE
    ensures Cut(Held(), BoundRank(At(ts))) == 119
  {
    hide Held, Sorted, Cut, Rank, BoundRank;
    AllBefore(0, ts);
    CutZero(Held());
    FirstNotBeforeIsCut(Held(), 0, At(ts));
  }

  /** No run against this responder reaches it, whatever the initiator's items and the limits. */
  lemma AskedIsForeign(w: World, l: Limits, n: nat)
    requires Sound(w) && Allowed(l) && w.b == Held()
    ensures Rounds(w, l, n).Some? && Rounds(w, l, n).value.msg != Asked()
  {
    hide Held, Sorted, Rounds, Occupied, ReplyTo, Intact, IdsIdentify, CollisionFree, Asked;
    RunOccupied(w, l, n);
    AskedUnoccupied(w);
  }

  lemma HeldEarly(x: Item)
    requires x in Held()
    ensures Before(x, At(1))
  {
  }

  lemma AskedTold(hash: Hash)
    ensures Told(World(hash, [], Held()), true, {}, Asked())
  {
    hide Held, Told, Reach, BoundRank, Ascending, IdListBytes;
    var w, rs := World(hash, [], Held()), Asked();
    var one, two := [Nothing(1)], [Nothing(1), SkipTo(At(2))];
    assert one == [] + [Nothing(1)] && two == one + [SkipTo(At(2))] && rs == two + [Nothing(3)];
    NoneListed();
    NothingAscends();
    ThreeAscend(Nothing(1));
    RankOrdersAt(2, 3);
    assert Told(w, true, {}, []) by { NothingTold(w); }
    TellsNothing(w, 0, 1);
    TellsNothing(w, BoundRank(At(2)), 3);
    ToldAppend(w, true, {}, [], Nothing(1));
    ToldAppend(w, true, {}, one, SkipTo(At(2)));
    ToldAppend(w, true, {}, two, Nothing(3));
  }

  lemma NothingTold(w: World) ensures Told(w, true, {}, []) { }

  lemma TellsNothing(w: World, before: nat, ts: U64)
    requires w.a == [] && before <= BoundRank(At(ts)) && IdListBytes([]) == [0]
    ensures ToldRange(w, true, {}, before, Nothing(ts))
  {
    hide BoundRank, IdListBytes;
    assert w.a[0..0] == [];
    assert Describes(w, true, {}, before, Nothing(ts), 0);
  }

  /** The answer to this message is not heard as it was sent. */
  lemma GarbledReply(hash: Hash)
    ensures var o := Answer(Responder(hash), {}, Asked());
      o.Going? && Garbled(o.turn.out) && Heard(o.turn.out) != Some(o.turn.out)
  {
    hide Held, After, Heard, NoCollision, Garbled, WellFormedMessage, Overran, RestFrom;
    ThirdTurn(hash, Asked(), 3);
    AnsweredGarbled(hash);
    AnsweredWellFormed(hash);
    GarbledOverran(Answered(hash));
    OverranCollision(Answered(hash));
    NotHeard(Answered(hash));
  }

  lemma GarbledOverran(rs: seq<Range>)
    requires Garbled(rs)
    ensures Overran(rs)
  {
  }

  lemma NotHeard(rs: seq<Range>)
    requires WellFormedMessage(Message(VERSION, rs)) && !NoCollision(rs, 0)
    ensures Heard(rs) != Some(rs)
  {
    hide WellFormedMessage, NoCollision, Encode, Decode;
    WireRoundTrip(Message(VERSION, rs));
    DecodedVersion(Encode(Message(VERSION, rs)).value);
  }

  lemma ThreeAscend(first: Range)
    requires first.bound == At(1)
    ensures Ascending([first, SkipTo(At(2)), Nothing(3)])
    ensures Reach([first]) == BoundRank(At(1)) && Reach([first, SkipTo(At(2))]) == BoundRank(At(2))
  {
    hide BoundRank, Reach, Ascending;
    var one, two, three := [first], [first, SkipTo(At(2))], [first, SkipTo(At(2)), Nothing(3)];
    assert one == [] + [first] && two == one + [SkipTo(At(2))] && three == two + [Nothing(3)];
    NothingAscends();
    AscendingAppend([], first);
    ReachAppend([], first);
    RankOrdersAt(1, 2);
    AscendingAppend(one, SkipTo(At(2)));
    ReachAppend(one, SkipTo(At(2)));
    RankOrdersAt(2, 3);
    AscendingAppend(two, Nothing(3));
  }

  lemma NothingAscends() ensures Reach([]) == 0 && Ascending([]) { }

  lemma RankOrdersAt(a: U64, b: U64)
    requires a < b < INFINITE
    ensures BoundRank(At(a)) <= BoundRank(At(b))
  {
    hide BoundRank;
    if BoundRank(At(b)) < BoundRank(At(a)) { RankOrdersTimestamps(At(b), At(a)); }
  }
}
