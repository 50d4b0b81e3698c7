/**
  * The NIP-98 replay cache (nip98/seen.go) behind the freshness check of verify
  * (nip98/auth.go:166-178, 231-237). Times and durations are nanoseconds; the
  * checks of a request that look at neither the clock nor the cache are one flag.
  */
module Replay {
  import opened Words

  const SECOND: int := 1_000_000_000
  const DEFAULT_WINDOW: int := 60_000_000_000
  const GC_EVERY: int := 10_000_000_000
  const MAX_UNIX: int := 0x3FFF_FFFF_FFFF_FFFF
  const DEFAULT_SEEN_MAX: int := 0x10_0000
  /** time.Time's zero value, the year 1. */
  const ZERO_TIME: int := -62_135_596_800_000_000_000

  type Duration = I64

  // ------------------------------------------------------------------ cache

  datatype Cache = Cache(max: nat, ids: map<string, int>, nextGC: int)

  datatype Verdict = Accepted | Replayed | Full | Refused

  /** The ids not yet forgotten at now. */
  function Live(ids: map<string, int>, now: int): map<string, int>
  {
    map id | id in ids && now < ids[id] :: ids[id]
  }

  function Swept(c: Cache, now: int): Cache { c.(ids := Live(c.ids, now), nextGC := now + GC_EVERY) }

  /** Use. */
  function Used(c: Cache, id: string, forgetAt: int, now: int): (Cache, Verdict)
  {
    if id in c.ids && now < c.ids[id] then (c, Replayed)
    else
      var s := if now >= c.nextGC || |c.ids| >= c.max then Swept(c, now) else c;
      if id !in s.ids && |s.ids| >= s.max then (s, Full)
      else (s.(ids := s.ids[id := forgetAt]), Accepted)
  }

  lemma LiveFewer(ids: map<string, int>, now: int)
    ensures |Live(ids, now)| <= |ids|
  {
    assert Live(ids, now).Keys <= ids.Keys;
    FewerKeys(Live(ids, now).Keys, ids.Keys);
    assert |Live(ids, now).Keys| == |Live(ids, now)| && |ids.Keys| == |ids|;
  }

  lemma FewerKeys(a: set<string>, b: set<string>)
    requires a <= b
    ensures |a| <= |b|
  {
    assert b == a + (b - a);
  }

  /** Exactly when each verdict is given; the cache never outgrows its capacity. */
  lemma UseVerdicts(c: Cache, id: string, forgetAt: int, now: int)
    requires |c.ids| <= c.max
    ensures var (c', v) := Used(c, id, forgetAt, now);
      && (v == Replayed <==> id in Live(c.ids, now))
      && (v == Full <==> id !in Live(c.ids, now) && |Live(c.ids, now)| >= c.max)
      && (v == Accepted <==> id !in Live(c.ids, now) && |Live(c.ids, now)| < c.max)
      && |c'.ids| <= c'.max && c'.max == c.max
      && (v == Full ==> |Live(c.ids, now)| == c.max)
  {
    LiveFewer(c.ids, now);
    var s := if now >= c.nextGC || |c.ids| >= c.max then Swept(c, now) else c;
    if id in s.ids {
      assert s.ids[id := forgetAt].Keys == s.ids.Keys;
    } else {
      assert s.ids[id := forgetAt].Keys == s.ids.Keys + {id};
    }
    assert |s.ids.Keys| == |s.ids| && |s.ids[id := forgetAt].Keys| == |s.ids[id := forgetAt]|;
    if id in c.ids && !(now < c.ids[id]) && |Live(c.ids, now)| == |c.ids| {
      StrictlyFewer(c.ids, now, id);
    }
  }

  lemma StrictlyFewer(ids: map<string, int>, now: int, id: string)
    requires id in ids && ids[id] <= now
    ensures |Live(ids, now)| < |ids|
  {
    assert Live(ids, now).Keys <= ids.Keys - {id};
    FewerKeys(Live(ids, now).Keys, ids.Keys - {id});
    assert |Live(ids, now).Keys| == |Live(ids, now)| && |ids.Keys| == |ids|;
  }

  /** SeenIDs. */
  class SeenIDs {
    var max: nat
    var ids: map<string, int>
    var nextGC: int
    var gcEvery: int

    ghost predicate Valid() reads this { max > 0 && |ids| <= max && gcEvery == GC_EVERY }

    ghost function Value(): Cache reads this { Cache(max, ids, nextGC) }

    /** NewSeenIDs. */
    constructor (capacity: int)
      ensures Valid() && Value() == Cache(if capacity <= 0 then 1048576 else capacity, map[], ZERO_TIME)
    {
      max := if capacity <= 0 then DEFAULT_SEEN_MAX else capacity;
      ids := map[];
      nextGC := ZERO_TIME;
      gcEvery := GC_EVERY;
    }

    /** sweep. */
    method Sweep(now: int)
      requires gcEvery == GC_EVERY
      modifies this`ids, this`nextGC
      ensures Value() == Swept(old(Value()), now)
    {
      var left := ids.Keys;
      while left != {}
        invariant left <= old(ids).Keys
        invariant forall id :: id in ids <==> id in old(ids) && (id in left || now < old(ids)[id])
        invariant forall id :: id in ids ==> ids[id] == old(ids)[id]
        invariant nextGC == old(nextGC)
        decreases left
      {
        var id :| id in left;
        if now >= ids[id] { ids := ids - {id}; }
        left := left - {id};
      }
      assert ids == Live(old(ids), now);
      nextGC := now + gcEvery;
    }

    /** Use. */
    method Use(id: string, forgetAt: int, now: int) returns (v: Verdict)
      requires Valid()
      modifies this`ids, this`nextGC
      ensures Valid() && (Value(), v) == Used(old(Value()), id, forgetAt, now)
    {
      UseVerdicts(Value(), id, forgetAt, now);
      if id in ids && now < ids[id] { return Replayed; }
      if now >= nextGC || |ids| >= max { Sweep(now); }
      if id !in ids && |ids| >= max { return Full; }
      ids := ids[id := forgetAt];
      v := Accepted;
    }
  }

  // --------------------------------------------------------------- requests

  /** A request: its event's id and time, the handler's window, the clock, and whether every other check passes. */
  datatype Request = Request(id: string, createdAt: U64, window: Duration, now: int, valid: bool)

  function Window(q: Request): (w: Duration)
    ensures w > 0
  {
    if q.window <= 0 then DEFAULT_WINDOW else q.window
  }

  function Seconds(q: Request): nat { Window(q) / SECOND }

  /** The freshness window: whole seconds, either way. */
  predicate Fresh(q: Request)
  {
    q.createdAt <= MAX_UNIX && q.now / SECOND - Seconds(q) <= q.createdAt <= q.now / SECOND + Seconds(q)
  }

  /** When the id may be forgotten; the addition is on a time.Duration. */
  function ForgetAt(q: Request): int { q.createdAt * SECOND + Signed64(Window(q) + SECOND) }

  /** verify, with the shared cache. */
  function Verified(c: Cache, q: Request): (Cache, Verdict)
  {
    if q.valid && Fresh(q) then Used(c, q.id, ForgetAt(q), q.now) else (c, Refused)
  }

  /** A request gets past the clock exactly when the rest of it is valid and its event is dated within the window's seconds. */
  lemma RefusedExactly(c: Cache, q: Request)
    ensures var w := if q.window <= 0 then 60 else q.window / 1_000_000_000;
      Verified(c, q).1 == Refused <==> !q.valid || q.createdAt >= 0x4000_0000_0000_0000
                                       || q.createdAt < q.now / 1_000_000_000 - w || q.createdAt > q.now / 1_000_000_000 + w
    ensures Verified(c, q).1 == Refused ==> Verified(c, q).0 == c
  {
  }

  /** What is accepted is valid, is dated no further than the window and a second from the clock, and is remembered past both. */
  lemma AcceptedIsFresh(c: Cache, q: Request)
    requires Verified(c, q).1 == Accepted
    ensures q.valid
    ensures q.now - Window(q) - 1_000_000_000 < q.createdAt * 1_000_000_000 <= q.now + Window(q)
    ensures Window(q) + 1_000_000_000 < 0x8000_0000_0000_0000 ==>
      q.id in Verified(c, q).0.ids && Verified(c, q).0.ids[q.id] == q.createdAt * 1_000_000_000 + Window(q) + 1_000_000_000
  {
    SecondsBelow(q.now);
    SecondsBelow(Window(q));
  }

  /** Once ten seconds have passed since the last sweep, a request that is not a replay leaves only unexpired ids beside its own. */
  lemma SweptWhenDue(c: Cache, id: string, forgetAt: int, now: int, other: string)
    requires now >= c.nextGC && other != id
    ensures var (c', v) := Used(c, id, forgetAt, now);
      v != Replayed ==> c'.nextGC == now + 10_000_000_000 && (other in c'.ids <==> other in c.ids && now < c.ids[other])
  {
  }

  /** The steps of verify that look at the clock and the cache, in its order. */
  method VerifyRequest(seen: SeenIDs, q: Request) returns (v: Verdict)
    requires seen.Valid()
    modifies seen
    ensures seen.Valid() && (seen.Value(), v) == Verified(old(seen.Value()), q)
  {
    var window := q.window;
    if window <= 0 { window := DEFAULT_WINDOW; }
    var now, w := q.now / SECOND, window / SECOND;
    if q.createdAt > MAX_UNIX || q.createdAt < now - w || q.createdAt > now + w { return Refused; }
    if !q.valid { return Refused; }
    v := seen.Use(q.id, q.createdAt * SECOND + Signed64(window + SECOND), q.now);
  }

  /** The cache after the first n requests. */
  function After(max: nat, qs: seq<Request>, n: nat): Cache
    requires n <= |qs|
  {
    if n == 0 then Cache(max, map[], ZERO_TIME) else Verified(After(max, qs, n - 1), qs[n - 1]).0
  }

  function VerdictAt(max: nat, qs: seq<Request>, i: nat): Verdict
    requires i < |qs|
  {
    Verified(After(max, qs, i), qs[i]).1
  }

  /** In lock order, no clock reading is more than d behind an earlier one. */
  ghost predicate ClockWithin(qs: seq<Request>, d: nat) { forall i, j :: 0 <= i < j < |qs| ==> qs[i].now <= qs[j].now + d }

  /** An id is a hash: it determines its event. */
  ghost predicate IdsIdentify(qs: seq<Request>)
  {
    forall i, j :: 0 <= i < |qs| && 0 <= j < |qs| && qs[i].id == qs[j].id ==> qs[i].createdAt == qs[j].createdAt
  }

  /** A first window outlasts the whole seconds of a second by d, and leaves room to add a second. */
  predicate Tolerates(q: Request, r: Request, d: nat)
  {
    Seconds(r) * SECOND + d <= Window(q) && Window(q) + SECOND < 0x8000_0000_0000_0000
  }

  /** While an event is fresh under a tolerated window, no clock reached the time its id may be forgotten. */
  lemma FreshIsHeld(q: Request, r: Request, d: nat)
    requires Tolerates(q, r, d) && q.createdAt == r.createdAt && Fresh(r)
    ensures r.now + d < ForgetAt(q)
  {
    SecondsBelow(r.now);
  }

  lemma SecondsBelow(t: int)
    ensures t / SECOND * SECOND <= t < (t / SECOND + 1) * SECOND
  {
  }

  ghost predicate Held(c: Cache, q: Request) { q.id in c.ids && c.ids[q.id] == ForgetAt(q) }

  /** What Used does to another id. */
  lemma UsedElsewhere(c: Cache, id: string, forgetAt: int, now: int, other: string)
    requires other != id && other in c.ids && now < c.ids[other]
    ensures var c' := Used(c, id, forgetAt, now).0; other in c'.ids && c'.ids[other] == c.ids[other]
  {
  }

  /** An accepted id is held while no clock reaches the time it may be forgotten. */
  lemma {:induction false} HeldThrough(max: nat, qs: seq<Request>, i: nat, n: nat)
    requires i < n <= |qs| && VerdictAt(max, qs, i) == Accepted
    requires forall k :: i < k < n ==> qs[k].now < ForgetAt(qs[i])
    ensures Held(After(max, qs, n), qs[i])
    decreases n
  {
    hide Fresh, ForgetAt;
    if i < n - 1 {
      HeldThrough(max, qs, i, n - 1);
      var r, c := qs[n - 1], After(max, qs, n - 1);
      if r.valid && Fresh(r) && r.id != qs[i].id { UsedElsewhere(c, r.id, ForgetAt(r), r.now, qs[i].id); }
    }
  }

  /** Replay safety: over every run whose clocks and windows keep within d, no event is accepted twice. */
  lemma NoReplay(max: nat, qs: seq<Request>, d: nat, i: nat, j: nat)
    requires i < j < |qs| && ClockWithin(qs, d) && IdsIdentify(qs) && Tolerates(qs[i], qs[j], d)
    requires VerdictAt(max, qs, i) == Accepted && VerdictAt(max, qs, j) == Accepted
    ensures qs[i].id != qs[j].id
  {
    hide After, Fresh, ForgetAt, Tolerates;
    if qs[i].id == qs[j].id {
      FreshIsHeld(qs[i], qs[j], d);
      HeldThrough(max, qs, i, j);
    }
  }

  /** Over every run the cache stays within its capacity, and a full verdict means so many unexpired ids. */
  lemma {:induction false} RunBounded(max: nat, qs: seq<Request>, n: nat)
    requires n <= |qs|
    ensures |After(max, qs, n).ids| <= max && After(max, qs, n).max == max
    ensures n < |qs| && VerdictAt(max, qs, n) == Full ==> |Live(After(max, qs, n).ids, qs[n].now)| == max
  {
    hide Fresh, ForgetAt, Used, Live;
    if n > 0 {
      RunBounded(max, qs, n - 1);
      var q, c := qs[n - 1], After(max, qs, n - 1);
      UseVerdicts(c, q.id, ForgetAt(q), q.now);
    }
    if n < |qs| { UseVerdicts(After(max, qs, n), qs[n].id, ForgetAt(qs[n]), qs[n].now); }
  }

  // ------------------------------------------------------ exactly how much

  /** A request for an event made at second 0 and heard at time now. */
  function At(id: string, window: Duration, now: int): Request { Request(id, 0, window, now, true) }

  /** A window as a request has it. */
  function With(window: Duration): Request { At("", window, 0) }

  ghost predicate Twice(max: nat, qs: seq<Request>, i: nat, j: nat)
    requires i < j < |qs|
  {
    qs[i].id == qs[j].id && VerdictAt(max, qs, i) == Accepted && VerdictAt(max, qs, j) == Accepted
  }

  ghost predicate Run(qs: seq<Request>, d: nat) { IdsIdentify(qs) && ClockWithin(qs, d) }

  /** In no run with clocks within d is an event accepted under window v accepted again under window u. */
  ghost predicate SafeAcross(v: Duration, u: Duration, d: nat)
  {
    forall max: nat, qs: seq<Request>, i: nat, j: nat ::
      i < j < |qs| && Run(qs, d) && qs[i].window == v && qs[j].window == u ==> !Twice(max, qs, i, j)
  }

  /** In no run under the one window w with clocks within d is an event accepted twice. */
  ghost predicate SafeUnder(w: Duration, d: nat)
  {
    forall max: nat, qs: seq<Request>, i: nat, j: nat ::
      i < j < |qs| && Run(qs, d) && (forall q :: q in qs ==> q.window == w) ==> !Twice(max, qs, i, j)
  }

  /** A shared cache and clocks read before its lock are safe exactly when the first window outlasts the second's seconds by d. */
  lemma SharedWindows(v: Duration, u: Duration, d: nat)
    ensures SafeAcross(v, u, d) <==> Tolerates(With(v), With(u), d)
  {
    hide Twice, Tolerates, Run;
    if Tolerates(With(v), With(u), d) {
      forall max: nat, qs: seq<Request>, i: nat, j: nat |
        i < j < |qs| && Run(qs, d) && qs[i].window == v && qs[j].window == u
        ensures !Twice(max, qs, i, j)
      {
        NotTwice(max, qs, d, i, j);
      }
    } else {
      var qs, j := AcceptedTwice(v, u, d);
    }
  }

  lemma NotTwice(max: nat, qs: seq<Request>, d: nat, i: nat, j: nat)
    requires i < j < |qs| && Run(qs, d) && Tolerates(With(qs[i].window), With(qs[j].window), d)
    ensures !Twice(max, qs, i, j)
  {
    hide VerdictAt;
    assert Tolerates(qs[i], qs[j], d);
    if Twice(max, qs, i, j) { NoReplay(max, qs, d, i, j); }
  }

  /** Under one window: clocks may disagree by its fraction of a second, and not more. */
  lemma OneWindow(w: Duration, d: nat)
    ensures SafeUnder(w, d) <==> d <= Window(With(w)) % SECOND && Window(With(w)) + SECOND < 0x8000_0000_0000_0000
  {
    hide Twice, Run;
    SharedWindows(w, w, d);
    if Tolerates(With(w), With(w), d) {
      forall max: nat, qs: seq<Request>, i: nat, j: nat |
        i < j < |qs| && Run(qs, d) && (forall q :: q in qs ==> q.window == w)
        ensures !Twice(max, qs, i, j)
      {
        assert qs[i] in qs && qs[j] in qs;
      }
    } else {
      var qs, j := AcceptedTwice(w, w, d);
    }
  }

  /** The default window is whole seconds: safe exactly when the clock does not go back in lock order. */
  lemma DefaultWindow(d: nat)
    ensures SafeUnder(0, d) <==> d == 0
  {
    hide SafeUnder;
    OneWindow(0, d);
  }

  /** The last moment an event made at second 0 is fresh. */
  function LastFresh(window: Duration): int { (Seconds(With(window)) + 1) * SECOND - 1 }

  /** Otherwise an event is accepted twice: the second time at the last moment it is fresh. */
  lemma AcceptedTwice(v: Duration, u: Duration, d: nat) returns (qs: seq<Request>, j: nat)
    requires !Tolerates(With(v), With(u), d)
    ensures 0 < j < |qs| && Run(qs, d) && qs[0].window == v && qs[j].window == u && Twice(2, qs, 0, j)
    ensures forall q :: q in qs ==> q.window == v || q.window == u
  {
    if ForgetAt(With(v)) <= LastFresh(u) {
      qs, j := [At("x", v, 0), At("x", u, LastFresh(u))], 1;
      ForgottenOnce(v, u);
    } else {
      qs, j := Swept4(v, u), 3;
      assert Run(qs, d);
      SweptOnce(v, u);
    }
  }

  /** Forgotten while still fresh under the longer window. */
  lemma ForgottenOnce(v: Duration, u: Duration)
    requires ForgetAt(With(v)) <= LastFresh(u)
    ensures var qs := [At("x", v, 0), At("x", u, LastFresh(u))];
      VerdictAt(2, qs, 0) == Accepted && VerdictAt(2, qs, 1) == Accepted
  {
    var q, r := At("x", v, 0), At("x", u, LastFresh(u));
    var qs := [q, r];
    assert LastFresh(u) / SECOND == Seconds(With(u));
    assert Fresh(q) && Fresh(r);
    assert After(2, qs, 0) == Cache(2, map[], ZERO_TIME);
    assert After(2, qs, 1) == Cache(2, map["x" := ForgetAt(q)], GC_EVERY);
  }

  /** Swept by a reading ahead of the clock that is heard next. */
  function Ahead(v: Duration): Request
  {
    var now := Window(With(v)) + SECOND;
    Request("y", now / SECOND, v, now, true)
  }

  function Swept4(v: Duration, u: Duration): seq<Request>
  {
    [At("x", v, 0), At("z", v, 0), Ahead(v), At("x", u, LastFresh(u))]
  }

  lemma SweptOnce(v: Duration, u: Duration)
    requires LastFresh(u) < ForgetAt(With(v))
    ensures var qs := Swept4(v, u); VerdictAt(2, qs, 0) == Accepted && VerdictAt(2, qs, 3) == Accepted
  {
    hide Used;
    var qs := Swept4(v, u);
    var f := ForgetAt(With(v));
    NotWrapped(v, u);
    assert Fresh(qs[0]) && Fresh(qs[1]);
    assert Fresh(qs[2]);
    assert LastFresh(u) / SECOND == Seconds(With(u));
    assert Fresh(qs[3]);
    assert After(2, qs, 0) == Cache(2, map[], ZERO_TIME);
    FirstTaken("x", f);
    assert After(2, qs, 1) == Cache(2, map["x" := f], GC_EVERY);
    SecondTaken(f);
    assert After(2, qs, 2) == Cache(2, map["x" := f, "z" := f], GC_EVERY);
    BothSwept(f, ForgetAt(qs[2]));
    assert After(2, qs, 3) == Cache(2, map["y" := ForgetAt(qs[2])], f + GC_EVERY);
    TakenAgain(f, ForgetAt(qs[2]), LastFresh(u), ForgetAt(qs[3]));
  }

  lemma NotWrapped(v: Duration, u: Duration)
    requires LastFresh(u) < ForgetAt(With(v))
    ensures ForgetAt(With(v)) == Window(With(v)) + SECOND
  {
  }

  lemma FirstTaken(id: string, f: int)
    ensures Used(Cache(2, map[], ZERO_TIME), id, f, 0) == (Cache(2, map[id := f], GC_EVERY), Accepted)
  {
    assert Live(map[], 0) == map[];
  }

  lemma SecondTaken(f: int)
    ensures Used(Cache(2, map["x" := f], GC_EVERY), "z", f, 0) == (Cache(2, map["x" := f, "z" := f], GC_EVERY), Accepted)
  {
    assert |map["x" := f]| == 1;
  }

  lemma BothSwept(f: int, g: int)
    ensures Used(Cache(2, map["x" := f, "z" := f], GC_EVERY), "y", g, f) == (Cache(2, map["y" := g], f + GC_EVERY), Accepted)
  {
    var ids := map["x" := f, "z" := f];
    assert ids.Keys == {"x", "z"} && |ids| == |ids.Keys|;
    assert Live(ids, f) == map[];
  }

  lemma TakenAgain(f: int, g: int, now: int, h: int)
    requires now < f + GC_EVERY
    ensures Used(Cache(2, map["y" := g], f + GC_EVERY), "x", h, now).1 == Accepted
  {
    assert |map["y" := g]| == 1;
  }
}
