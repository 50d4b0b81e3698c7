/**
  * Verifying identity claims (nipIC/evaluate.go). Events come parsed; the attestation
  * source is one that answers the same question the same way; times are nanoseconds.
  */
module Claims {
  import opened Words
  import opened Text

  const MAX_FUTURE: int := 900_000_000_000

  datatype Ref = Ref(eventId: string, relay: string)

  datatype Attestation = Attestation(id: string, pubkey: string, createdAt: U64, connectionKey: string, userPubkey: string,
                                     platform: string, userId: string, username: string, expiresAt: Option<int>)

  /** A fetched event: its id, and its attestation when it parses as one. */
  datatype Fetched = Fetched(id: string, attestation: Option<Attestation>)

  datatype Profile = Profile(userId: string, username: string)

  /** A 35521: one that does not parse (whether it carries the key, and the pubkey if its signature holds), or a claim. */
  datatype Event = Malformed(hasKey: bool, signer: string)
    | Claim(pubkey: string, connectionKey: string, platform: string, refs: seq<Ref>, profile: Option<Profile>)

  /** None stands for an error or nothing found. */
  datatype Source = Source(fetch: Ref -> Option<Fetched>, current: (string, string) -> Option<string>,
                           deleted: (string, string) -> Option<bool>)

  /** What a verifier goes by. */
  datatype Judge = Judge(key: string, source: Source, trusted: string -> bool, now: int)

  datatype State = Unverified | Verified | Spoofed

  datatype Verdict = Verdict(state: State, pubkey: string, attestation: Option<Attestation>)

  // ------------------------------------------------------------ one reference

  /** time.Unix(int64(x), 0). */
  function UnixTime(n: U64): int { Signed64(n) * 1_000_000_000 }

  /** deepCheck, then contentMismatch: the attestation when the reference counts. */
  function Checked(j: Judge, c: Event, ref: Ref): (r: Option<Attestation>)
    requires c.Claim?
    ensures var f := j.source.fetch(ref);
      && (r.Some? <==> f.Some? && f.value.id == ref.eventId && f.value.attestation.Some? && Vouches(j, c, f.value.attestation.value))
      && (r.Some? ==> r == f.value.attestation)
  {
    var f := j.source.fetch(ref);
    if f.None? || f.value.id != ref.eventId || f.value.attestation.None? then None
    else
      var a := f.value.attestation.value;
      if !j.trusted(a.pubkey) || a.pubkey == c.pubkey then None
      else if a.connectionKey != c.connectionKey || a.platform != c.platform || a.userPubkey != c.pubkey then None
      else if a.expiresAt.Some? && j.now >= a.expiresAt.value then None
      else if UnixTime(a.createdAt) > j.now + MAX_FUTURE then None
      else if j.source.deleted(a.pubkey, a.id) != Some(false) then None
      else if j.source.current(a.pubkey, c.connectionKey) != Some(a.id) then None
      else if ContentMismatch(c.profile, a) then None
      else Some(a)
  }

  /** a is a trusted other's, for this claim's key, platform and author, in force, and names no other account. */
  predicate Vouches(j: Judge, c: Event, a: Attestation)
    requires c.Claim?
  {
    && j.trusted(a.pubkey) && a.pubkey != c.pubkey && a.userPubkey == c.pubkey
    && a.connectionKey == c.connectionKey && a.platform == c.platform
    && (a.expiresAt.None? || j.now < a.expiresAt.value) && Signed64(a.createdAt) * 1_000_000_000 <= j.now + 900_000_000_000
    && j.source.deleted(a.pubkey, a.id) == Some(false) && j.source.current(a.pubkey, c.connectionKey) == Some(a.id)
    && (c.profile.Some? ==> c.profile.value.userId in {"", a.userId} && c.profile.value.username in {"", a.username})
  }

  predicate ContentMismatch(p: Option<Profile>, a: Attestation)
  {
    p.Some? && ((p.value.userId != "" && p.value.userId != a.userId) || (p.value.username != "" && p.value.username != a.username))
  }

  predicate Newer(a: Attestation, b: Attestation)
  {
    if a.createdAt != b.createdAt then a.createdAt > b.createdAt else Less(a.id, b.id)
  }

  lemma NewerTotal(a: Attestation, b: Attestation)
    ensures Newer(a, b) || Newer(b, a) || (a.id == b.id && a.createdAt == b.createdAt)
    ensures !(Newer(a, b) && Newer(b, a))
  {
    LessTotal(a.id, b.id);
  }

  lemma NewerTransitive(a: Attestation, b: Attestation, c: Attestation)
    requires !Newer(b, a) && !Newer(c, b)
    ensures !Newer(c, a)
  {
    hide Less;
    LessTotal(a.id, b.id);
    LessTotal(b.id, c.id);
    LessTotal(a.id, c.id);
    if Less(a.id, b.id) && Less(b.id, c.id) { LessTransitive(a.id, b.id, c.id); }
  }

  // ----------------------------------------------------------------- newest

  function Later(x: Option<Attestation>, y: Option<Attestation>): Option<Attestation>
  {
    if y.None? then x else if x.None? || Newer(y.value, x.value) then y else x
  }

  /** The newest attestation among a claim's first n references. */
  function Best(j: Judge, c: Event, n: nat): (r: Option<Attestation>)
    requires c.Claim? && n <= |c.refs|
    ensures r.Some? ==> r.value.userPubkey == c.pubkey && r.value.platform == c.platform
  {
    if n == 0 then None else Later(Best(j, c, n - 1), Checked(j, c, c.refs[n - 1]))
  }

  predicate Relevant(j: Judge, ev: Event) { if ev.Malformed? then ev.hasKey else ev.connectionKey == j.key }

  /** A claim's own attestation, when it is about the key. */
  function Own(j: Judge, ev: Event): Option<Attestation>
  {
    if ev.Claim? && Relevant(j, ev) then Best(j, ev, |ev.refs|) else None
  }

  /** The newest over the first n claims. */
  function Winner(j: Judge, evs: seq<Event>, n: nat): Option<Attestation>
    requires n <= |evs|
  {
    if n == 0 then None else Later(Winner(j, evs, n - 1), Own(j, evs[n - 1]))
  }

  /** a counts for some claim. */
  ghost predicate Counts(j: Judge, ev: Event, a: Attestation)
  {
    ev.Claim? && Relevant(j, ev) && exists r :: r in ev.refs && Checked(j, ev, r) == Some(a)
  }

  ghost predicate CountsIn(j: Judge, evs: seq<Event>, a: Attestation) { exists ev :: ev in evs && Counts(j, ev, a) }

  /** No attestation that counts is newer. */
  ghost predicate Newest(j: Judge, evs: seq<Event>, a: Attestation)
  {
    CountsIn(j, evs, a) && forall b :: CountsIn(j, evs, b) ==> !Newer(b, a)
  }

  /** The newest is the latest, and of those dated alike the one of the lowest id. */
  lemma NewestIsLatest(j: Judge, evs: seq<Event>, a: Attestation, b: Attestation)
    requires Newest(j, evs, a) && CountsIn(j, evs, b)
    ensures b.createdAt <= a.createdAt && (b.createdAt == a.createdAt ==> !Less(b.id, a.id))
  {
    hide CountsIn, Less;
  }

  lemma {:induction false} BestIsNewest(j: Judge, c: Event, n: nat)
    requires c.Claim? && n <= |c.refs|
    ensures var b := Best(j, c, n);
      && (b.Some? ==> exists r :: r in c.refs && Checked(j, c, r) == b)
      && (forall i :: 0 <= i < n && Checked(j, c, c.refs[i]).Some? ==> b.Some? && !Newer(Checked(j, c, c.refs[i]).value, b.value))
  {
    hide Checked, Newer;
    if n > 0 {
      BestIsNewest(j, c, n - 1);
      LaterIsNewest(Best(j, c, n - 1), Checked(j, c, c.refs[n - 1]));
      forall i | 0 <= i < n - 1 && Checked(j, c, c.refs[i]).Some? ensures !Newer(Checked(j, c, c.refs[i]).value, Best(j, c, n).value) {
        NewerTransitive(Best(j, c, n).value, Best(j, c, n - 1).value, Checked(j, c, c.refs[i]).value);
      }
    }
  }

  lemma LaterIsNewest(x: Option<Attestation>, y: Option<Attestation>)
    ensures var z := Later(x, y);
      && (z == x || z == y) && (z.None? ==> x.None? && y.None?)
      && (x.Some? ==> !Newer(x.value, z.value)) && (y.Some? ==> !Newer(y.value, z.value))
  {
    hide Newer;
    if x.Some? { NewerTotal(x.value, x.value); }
    if y.Some? { NewerTotal(y.value, y.value); }
    if x.Some? && y.Some? { NewerTotal(x.value, y.value); }
  }

  lemma {:induction false} WinnerIsNewest(j: Judge, evs: seq<Event>, n: nat)
    requires n <= |evs|
    ensures var w := Winner(j, evs, n);
      && (w.Some? ==> exists i :: 0 <= i < n && Own(j, evs[i]) == w)
      && (forall i :: 0 <= i < n && Own(j, evs[i]).Some? ==> w.Some? && !Newer(Own(j, evs[i]).value, w.value))
  {
    hide Own, Newer;
    if n > 0 {
      WinnerIsNewest(j, evs, n - 1);
      LaterIsNewest(Winner(j, evs, n - 1), Own(j, evs[n - 1]));
      forall i | 0 <= i < n - 1 && Own(j, evs[i]).Some? ensures !Newer(Own(j, evs[i]).value, Winner(j, evs, n).value) {
        NewerTransitive(Winner(j, evs, n).value, Winner(j, evs, n - 1).value, Own(j, evs[i]).value);
      }
    }
  }

  /** The winner is the newest attestation that counts for any claim. */
  lemma WinnerOverall(j: Judge, evs: seq<Event>)
    ensures var w := Winner(j, evs, |evs|);
      && (w.None? <==> forall a :: !CountsIn(j, evs, a))
      && (w.Some? ==> Newest(j, evs, w.value))
  {
    hide Checked, Newer, Winner, Best;
    WinnerIsNewest(j, evs, |evs|);
    var w := Winner(j, evs, |evs|);
    if w.Some? {
      var i :| 0 <= i < |evs| && Own(j, evs[i]) == w;
      BestIsNewest(j, evs[i], |evs[i].refs|);
      assert Counts(j, evs[i], w.value);
      assert CountsIn(j, evs, w.value);
    }
    forall a | CountsIn(j, evs, a) ensures w.Some? && !Newer(a, w.value) {
      var ev :| ev in evs && Counts(j, ev, a);
      var i :| 0 <= i < |evs| && evs[i] == ev;
      var r :| r in ev.refs && Checked(j, ev, r) == Some(a);
      var k :| 0 <= k < |ev.refs| && ev.refs[k] == r;
      BestIsNewest(j, ev, |ev.refs|);
      NewerTransitive(w.value, Own(j, ev).value, a);
    }
  }

  // --------------------------------------------------------------- verdicts

  /** A claim's verdict before the winner is known. */
  function Draft(j: Judge, ev: Event): Verdict
  {
    if ev.Malformed? then Verdict(Spoofed, ev.signer, None)
    else
      var a := Own(j, ev);
      Verdict(if a.Some? then Verified else Spoofed, ev.pubkey, a)
  }

  function Drafts(j: Judge, evs: seq<Event>, n: nat): seq<Verdict>
    requires n <= |evs|
  {
    if n == 0 then []
    else Drafts(j, evs, n - 1) + (if Relevant(j, evs[n - 1]) then [Draft(j, evs[n - 1])] else [])
  }

  /** A verified claim by another pubkey than the winner's is spoofed. */
  function Settled(v: Verdict, winner: Option<Attestation>): Verdict
  {
    if v.state == Verified && winner.Some? && v.pubkey != winner.value.userPubkey then v.(state := Spoofed) else v
  }

  function SettledAll(vs: seq<Verdict>, winner: Option<Attestation>): seq<Verdict>
  {
    seq(|vs|, i requires 0 <= i < |vs| => Settled(vs[i], winner))
  }

  /** Evaluate. */
  function Evaluated(j: Judge, evs: seq<Event>): seq<Verdict>
  {
    var vs := Drafts(j, evs, |evs|);
    if vs == [] then [Verdict(Unverified, "", None)] else SettledAll(vs, Winner(j, evs, |evs|))
  }

  /** The verdict on one claim among others. */
  function VerdictOn(j: Judge, evs: seq<Event>, ev: Event): Verdict
  {
    Settled(Draft(j, ev), Winner(j, evs, |evs|))
  }

  lemma {:induction false} DraftsFrom(j: Judge, evs: seq<Event>, n: nat)
    requires n <= |evs|
    ensures forall v :: v in Drafts(j, evs, n) ==> exists i :: 0 <= i < n && Relevant(j, evs[i]) && v == Draft(j, evs[i])
    ensures forall i :: 0 <= i < n && Relevant(j, evs[i]) ==> Draft(j, evs[i]) in Drafts(j, evs, n)
  {
    hide Draft, Relevant;
    if n > 0 { DraftsFrom(j, evs, n - 1); }
  }

  ghost predicate NoneAbout(j: Judge, evs: seq<Event>) { forall ev :: ev in evs ==> !Relevant(j, ev) }

  ghost predicate GivenFor(j: Judge, evs: seq<Event>, v: Verdict)
  {
    exists ev :: ev in evs && Relevant(j, ev) && v == VerdictOn(j, evs, ev)
  }

  /** Evaluate gives exactly the verdicts on the claims about the key. */
  lemma EvaluatedFrom(j: Judge, evs: seq<Event>, v: Verdict)
    ensures v in Evaluated(j, evs) <==> if NoneAbout(j, evs) then v == Verdict(Unverified, "", None) else GivenFor(j, evs, v)
  {
    hide Draft, Relevant, Winner, Drafts, Settled;
    DraftsFrom(j, evs, |evs|);
    var vs, w := Drafts(j, evs, |evs|), Winner(j, evs, |evs|);
    if vs == [] {
      forall ev | ev in evs ensures !Relevant(j, ev) { var i :| 0 <= i < |evs| && evs[i] == ev; }
    } else {
      assert vs[0] in vs;
      var i :| 0 <= i < |evs| && Relevant(j, evs[i]) && vs[0] == Draft(j, evs[i]);
      SettledFrom(vs, w, v);
      if v in SettledAll(vs, w) {
        var d :| d in vs && v == Settled(d, w);
        var k :| 0 <= k < |evs| && Relevant(j, evs[k]) && d == Draft(j, evs[k]);
        assert v == VerdictOn(j, evs, evs[k]);
      }
      forall ev | ev in evs && Relevant(j, ev) && v == VerdictOn(j, evs, ev) ensures v in SettledAll(vs, w) {
        var k :| 0 <= k < |evs| && evs[k] == ev;
        assert Draft(j, evs[k]) in vs;
      }
    }
  }

  lemma SettledFrom(vs: seq<Verdict>, w: Option<Attestation>, v: Verdict)
    ensures v in SettledAll(vs, w) <==> exists d :: d in vs && v == Settled(d, w)
  {
    hide Settled;
    if v in SettledAll(vs, w) {
      var i :| 0 <= i < |vs| && SettledAll(vs, w)[i] == v;
      assert vs[i] in vs;
    }
    forall d | d in vs && v == Settled(d, w) ensures v in SettledAll(vs, w) {
      var i :| 0 <= i < |vs| && vs[i] == d;
      assert SettledAll(vs, w)[i] == v;
    }
  }

  /** One winner: every verified verdict carries the pubkey the newest attestation names. */
  lemma OneWinner(j: Judge, evs: seq<Event>, v: Verdict)
    requires v in Evaluated(j, evs) && v.state == Verified
    ensures var w := Winner(j, evs, |evs|);
      && w.Some? && v.pubkey == w.value.userPubkey && Newest(j, evs, w.value)
      && v.attestation.Some? && v.attestation.value.userPubkey == v.pubkey && CountsIn(j, evs, v.attestation.value)
  {
    hide Newer, Winner, Best, Checked, Evaluated;
    EvaluatedFrom(j, evs, v);
    WinnerOverall(j, evs);
    var ev :| ev in evs && Relevant(j, ev) && v == VerdictOn(j, evs, ev);
    BestIsNewest(j, ev, |ev.refs|);
    assert Counts(j, ev, v.attestation.value);
    assert CountsIn(j, evs, v.attestation.value);
  }

  /** Some claim is verified exactly when some attestation counts. */
  lemma SomeoneVerified(j: Judge, evs: seq<Event>)
    ensures (exists v :: v in Evaluated(j, evs) && v.state == Verified) <==> exists a :: CountsIn(j, evs, a)
  {
    hide Newer, Best, Checked, Evaluated, Winner;
    WinnerOverall(j, evs);
    forall v | v in Evaluated(j, evs) && v.state == Verified ensures exists a :: CountsIn(j, evs, a) { OneWinner(j, evs, v); }
    if Winner(j, evs, |evs|).Some? {
      WinnerIsNewest(j, evs, |evs|);
      var i :| 0 <= i < |evs| && Own(j, evs[i]) == Winner(j, evs, |evs|);
      var v := VerdictOn(j, evs, evs[i]);
      EvaluatedFrom(j, evs, v);
      assert v in Evaluated(j, evs) && v.state == Verified;
    }
  }

  // -------------------------------------------------------------- any order

  /** An attestation's id is a hash: it determines the attestation. */
  ghost predicate Identified(s: Source)
  {
    forall q, r :: s.fetch(q).Some? && s.fetch(r).Some? && s.fetch(q).value.attestation.Some? && s.fetch(r).value.attestation.Some?
                   && s.fetch(q).value.attestation.value.id == s.fetch(r).value.attestation.value.id
                   ==> s.fetch(q).value.attestation == s.fetch(r).value.attestation
  }

  /** The same claim, its references in any order and number. */
  ghost predicate SameClaim(c: Event, d: Event)
  {
    if c.Malformed? || d.Malformed? then c == d
    else c.(refs := []) == d.(refs := []) && forall r :: r in c.refs <==> r in d.refs
  }

  ghost predicate Within(evs: seq<Event>, fvs: seq<Event>) { forall c :: c in evs ==> exists d :: d in fvs && SameClaim(c, d) }

  /** The same claims, in any order and number. */
  ghost predicate SameClaims(evs: seq<Event>, fvs: seq<Event>) { Within(evs, fvs) && Within(fvs, evs) }

  lemma CheckedSame(j: Judge, c: Event, d: Event, r: Ref)
    requires c.Claim? && d.Claim? && c.(refs := []) == d.(refs := [])
    ensures Checked(j, c, r) == Checked(j, d, r)
  {
    assert c.pubkey == c.(refs := []).pubkey && d.pubkey == d.(refs := []).pubkey;
    assert c.connectionKey == c.(refs := []).connectionKey && d.connectionKey == d.(refs := []).connectionKey;
    assert c.platform == c.(refs := []).platform && d.platform == d.(refs := []).platform;
    assert c.profile == c.(refs := []).profile && d.profile == d.(refs := []).profile;
  }

  lemma CountsSame(j: Judge, c: Event, d: Event, a: Attestation)
    requires SameClaim(c, d)
    ensures Counts(j, c, a) ==> Counts(j, d, a)
    ensures Relevant(j, c) == Relevant(j, d)
  {
    hide Checked;
    if c.Claim? && d.Claim? {
      assert c.connectionKey == c.(refs := []).connectionKey && d.connectionKey == d.(refs := []).connectionKey;
      if Counts(j, c, a) {
        var r :| r in c.refs && Checked(j, c, r) == Some(a);
        CheckedSame(j, c, d, r);
      }
    }
  }

  lemma CountsInWithin(j: Judge, evs: seq<Event>, fvs: seq<Event>, a: Attestation)
    requires Within(evs, fvs) && CountsIn(j, evs, a)
    ensures CountsIn(j, fvs, a)
  {
    hide Counts, SameClaim;
    var c :| c in evs && Counts(j, c, a);
    var d :| d in fvs && SameClaim(c, d);
    CountsSame(j, c, d, a);
  }

  /** Two newest of the same attestations are one. */
  lemma NewestIsOne(j: Judge, evs: seq<Event>, fvs: seq<Event>, a: Attestation, b: Attestation)
    requires Identified(j.source) && CountsIn(j, evs, a) && CountsIn(j, fvs, b) && !Newer(a, b) && !Newer(b, a)
    ensures a == b
  {
    hide Newer;
    NewerTotal(a, b);
    CountedIsFetched(j, evs, a);
    CountedIsFetched(j, fvs, b);
  }

  lemma CountedIsFetched(j: Judge, evs: seq<Event>, a: Attestation)
    requires CountsIn(j, evs, a)
    ensures exists r :: j.source.fetch(r).Some? && j.source.fetch(r).value.attestation == Some(a)
  {
    var ev :| ev in evs && Counts(j, ev, a);
    var r :| r in ev.refs && Checked(j, ev, r) == Some(a);
    assert j.source.fetch(r).Some? && j.source.fetch(r).value.attestation == Some(a);
  }

  lemma WinnerSame(j: Judge, evs: seq<Event>, fvs: seq<Event>)
    requires Identified(j.source) && SameClaims(evs, fvs)
    ensures Winner(j, evs, |evs|) == Winner(j, fvs, |fvs|)
  {
    hide Winner, Newer, CountsIn, Within, Identified;
    WinnerOverall(j, evs);
    WinnerOverall(j, fvs);
    forall a | CountsIn(j, evs, a) ensures CountsIn(j, fvs, a) { CountsInWithin(j, evs, fvs, a); }
    forall a | CountsIn(j, fvs, a) ensures CountsIn(j, evs, a) { CountsInWithin(j, fvs, evs, a); }
    if Winner(j, evs, |evs|).Some? {
      NewestIsOne(j, evs, fvs, Winner(j, evs, |evs|).value, Winner(j, fvs, |fvs|).value);
    }
  }

  lemma DraftSame(j: Judge, c: Event, d: Event)
    requires Identified(j.source) && SameClaim(c, d)
    ensures Relevant(j, c) == Relevant(j, d) && Draft(j, c) == Draft(j, d)
  {
    hide Newer, Identified, Checked;
    if c.Claim? && d.Claim? {
      assert c.connectionKey == c.(refs := []).connectionKey && d.connectionKey == d.(refs := []).connectionKey;
      assert c.pubkey == c.(refs := []).pubkey && d.pubkey == d.(refs := []).pubkey;
      if Relevant(j, c) {
        assert Within([c], [d]) && Within([d], [c]) by { SameClaimFlips(c, d); }
        WinnerSame(j, [c], [d]);
        OwnIsWinner(j, c);
        OwnIsWinner(j, d);
      }
    }
  }

  lemma SameClaimFlips(c: Event, d: Event)
    requires SameClaim(c, d)
    ensures SameClaim(d, c)
  {
  }

  lemma OwnIsWinner(j: Judge, c: Event)
    ensures Winner(j, [c], |[c]|) == Own(j, c)
  {
    hide Own;
    assert Winner(j, [c], 0) == None;
  }

  /**
    * What Verified promises: one of the claim's own references counts, and the
    * newest attestation that counts for any claim names the claim's pubkey.
    */
  lemma VerifiedMeans(j: Judge, evs: seq<Event>, c: Event)
    requires Identified(j.source) && c in evs && c.Claim? && Relevant(j, c)
    ensures VerdictOn(j, evs, c).state == Verified <==>
      (exists a :: Counts(j, c, a)) && (exists b :: Newest(j, evs, b) && b.userPubkey == c.pubkey)
    ensures VerdictOn(j, evs, c).state in {Verified, Spoofed} && VerdictOn(j, evs, c).pubkey == c.pubkey
  {
    hide Winner, Identified, Best, Checked, Newer;
    WinnerOverall(j, evs);
    BestIsNewest(j, c, |c.refs|);
    OwnCounts(j, c);
    var w := Winner(j, evs, |evs|);
    if w.Some? {
      forall b | Newest(j, evs, b) ensures b == w.value { NewestIsOne(j, evs, evs, b, w.value); }
    }
    if Own(j, c).Some? { assert CountsIn(j, evs, Own(j, c).value); }
  }

  /** A claim for another key changes nothing, nor does an event that neither parses nor carries the key. */
  lemma ForeignIgnored(j: Judge, a: seq<Event>, ev: Event, b: seq<Event>)
    requires if ev.Claim? then ev.connectionKey != j.key else !ev.hasKey
    ensures Evaluated(j, a + [ev] + b) == Evaluated(j, a + b)
  {
    hide Own, Draft;
    ForeignAdds(j, a, ev, b, |b|);
  }

  lemma {:induction false} ForeignAdds(j: Judge, a: seq<Event>, ev: Event, b: seq<Event>, n: nat)
    requires n <= |b| && if ev.Claim? then ev.connectionKey != j.key else !ev.hasKey
    ensures Drafts(j, a + [ev] + b, |a| + 1 + n) == Drafts(j, a + b, |a| + n)
    ensures Winner(j, a + [ev] + b, |a| + 1 + n) == Winner(j, a + b, |a| + n)
  {
    hide Draft, Best, Newer;
    if n == 0 {
      SamePrefix(j, a + [ev] + b, a + b, |a|);
    } else {
      ForeignAdds(j, a, ev, b, n - 1);
    }
  }

  lemma {:induction false} SamePrefix(j: Judge, evs: seq<Event>, fvs: seq<Event>, n: nat)
    requires n <= |evs| && n <= |fvs| && forall i :: 0 <= i < n ==> evs[i] == fvs[i]
    ensures Drafts(j, evs, n) == Drafts(j, fvs, n) && Winner(j, evs, n) == Winner(j, fvs, n)
  {
    hide Draft, Own, Relevant, Newer;
    if n > 0 { SamePrefix(j, evs, fvs, n - 1); }
  }

  /** An event for the key that does not parse is spoofed, in its signer's name. */
  lemma MalformedIsSpoofed(j: Judge, evs: seq<Event>, ev: Event)
    requires ev in evs && ev.Malformed? && ev.hasKey
    ensures Verdict(Spoofed, ev.signer, None) in Evaluated(j, evs)
  {
    hide Evaluated, Winner;
    var v := VerdictOn(j, evs, ev);
    assert GivenFor(j, evs, v);
    assert !NoneAbout(j, evs);
    EvaluatedFrom(j, evs, v);
  }

  /** A claim has an attestation of its own exactly when one of its references counts. */
  lemma OwnCounts(j: Judge, c: Event)
    requires c.Claim? && Relevant(j, c)
    ensures Own(j, c).Some? <==> exists a :: Counts(j, c, a)
    ensures Own(j, c).Some? ==> Counts(j, c, Own(j, c).value)
  {
    hide Best, Checked, Newer;
    BestIsNewest(j, c, |c.refs|);
    forall a | Counts(j, c, a) ensures Own(j, c).Some? {
      var r :| r in c.refs && Checked(j, c, r) == Some(a);
      var i :| 0 <= i < |c.refs| && c.refs[i] == r;
    }
    if Own(j, c).Some? { assert Counts(j, c, Own(j, c).value); }
  }

  /** Reordering or repeating claims, or a claim's references, changes no verdict. */
  lemma AnyOrder(j: Judge, evs: seq<Event>, fvs: seq<Event>, c: Event, d: Event)
    requires Identified(j.source) && SameClaims(evs, fvs) && SameClaim(c, d)
    ensures VerdictOn(j, evs, c) == VerdictOn(j, fvs, d)
  {
    hide Winner, Identified, Within, Draft, Settled;
    WinnerSame(j, evs, fvs);
    DraftSame(j, c, d);
  }

  /** So the verdicts given are the same ones. */
  lemma SameVerdicts(j: Judge, evs: seq<Event>, fvs: seq<Event>, v: Verdict)
    requires Identified(j.source) && SameClaims(evs, fvs)
    ensures v in Evaluated(j, evs) <==> v in Evaluated(j, fvs)
  {
    hide Evaluated, SameClaims, Identified;
    if v in Evaluated(j, evs) { VerdictsWithin(j, evs, fvs, v); }
    if v in Evaluated(j, fvs) { SameClaimsFlip(evs, fvs); VerdictsWithin(j, fvs, evs, v); }
  }

  lemma SameClaimsFlip(evs: seq<Event>, fvs: seq<Event>)
    requires SameClaims(evs, fvs)
    ensures SameClaims(fvs, evs)
  {
  }

  /** About the key there are claims in both, or in neither. */
  lemma NoneRelevant(j: Judge, evs: seq<Event>, fvs: seq<Event>)
    requires Within(fvs, evs) && NoneAbout(j, evs)
    ensures NoneAbout(j, fvs)
  {
    hide SameClaim, Relevant;
    forall d | d in fvs ensures !Relevant(j, d) {
      var c :| c in evs && SameClaim(d, c);
      RelevantSame(j, d, c);
    }
  }

  lemma RelevantSame(j: Judge, c: Event, d: Event)
    requires SameClaim(c, d)
    ensures Relevant(j, c) == Relevant(j, d)
  {
    if c.Claim? && d.Claim? {
      assert c.connectionKey == c.(refs := []).connectionKey && d.connectionKey == d.(refs := []).connectionKey;
    }
  }

  lemma VerdictsWithin(j: Judge, evs: seq<Event>, fvs: seq<Event>, v: Verdict)
    requires Identified(j.source) && SameClaims(evs, fvs) && v in Evaluated(j, evs)
    ensures v in Evaluated(j, fvs)
  {
    hide Evaluated, Identified, Within, NoneAbout, GivenFor;
    EvaluatedFrom(j, evs, v);
    EvaluatedFrom(j, fvs, v);
    if NoneAbout(j, evs) {
      NoneRelevant(j, evs, fvs);
    } else {
      GivenSame(j, evs, fvs, v);
    }
  }

  lemma GivenSame(j: Judge, evs: seq<Event>, fvs: seq<Event>, v: Verdict)
    requires Identified(j.source) && SameClaims(evs, fvs) && GivenFor(j, evs, v)
    ensures GivenFor(j, fvs, v) && !NoneAbout(j, fvs)
  {
    hide VerdictOn, Identified, SameClaim, Relevant;
    var c :| c in evs && Relevant(j, c) && v == VerdictOn(j, evs, c);
    var d :| d in fvs && SameClaim(c, d);
    RelevantSame(j, c, d);
    AnyOrder(j, evs, fvs, c, d);
  }

  // ----------------------------------------------------------------- the code

  /** The references of one claim. */
  method ConsiderRefs(j: Judge, c: Event) returns (a: Option<Attestation>)
    requires c.Claim?
    ensures a == Best(j, c, |c.refs|)
  {
    hide Checked, Newer;
    a := None;
    for i := 0 to |c.refs|
      invariant a == Best(j, c, i)
    {
      var att := Checked(j, c, c.refs[i]);
      if att.None? { continue; }
      if a.None? || Newer(att.value, a.value) { a := att; }
    }
  }

  /** Evaluate. */
  method Evaluate(j: Judge, claims: seq<Event>) returns (out: seq<Verdict>)
    ensures out == Evaluated(j, claims)
  {
    hide Best, Newer;
    out := [];
    var winner: Option<Attestation> := None;
    for i := 0 to |claims|
      invariant out == Drafts(j, claims, i) && winner == Winner(j, claims, i)
    {
      var ev := claims[i];
      if ev.Malformed? {
        if ev.hasKey { out := out + [Verdict(Spoofed, ev.signer, None)]; }
        continue;
      }
      if ev.connectionKey != j.key { continue; }
      var v := Verdict(Spoofed, ev.pubkey, None);
      var a := ConsiderRefs(j, ev);
      v := v.(attestation := a);
      if v.attestation.Some? {
        v := v.(state := Verified);
        if winner.None? || Newer(v.attestation.value, winner.value) { winner := v.attestation; }
      }
      out := out + [v];
    }
    if out == [] { return [Verdict(Unverified, "", None)]; }
    out := SpoofOthers(out, winner);
  }

  /** The last loop of Evaluate, which rewrites states in place. */
  method SpoofOthers(vs: seq<Verdict>, winner: Option<Attestation>) returns (out: seq<Verdict>)
    ensures out == SettledAll(vs, winner)
  {
    out := vs;
    for i := 0 to |vs|
      invariant |out| == |vs|
      invariant forall k :: 0 <= k < |vs| ==> out[k] == if k < i then Settled(vs[k], winner) else vs[k]
    {
      if out[i].state == Verified && winner.Some? && out[i].pubkey != winner.value.userPubkey {
        out := out[i := out[i].(state := Spoofed)];
      }
    }
  }
}
