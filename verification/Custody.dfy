/** Who held value is released to (nipAZ/custody.go). */
module Custody {
  import opened Words
  import opened Text
  import opened Claims

  /** A request's p: a pubkey, or a connection key scoped to a platform. */
  datatype Identity = Identity(value: string, platform: string)

  datatype Resolved = Pubkey(pubkey: string) | Unresolved | BadIdentity | BadIA

  /** The attestations and the trust a server has, if any. */
  datatype Server = Server(source: Option<Source>, trust: Option<string -> bool>, now: int)

  function Narrowed(trust: string -> bool, ia: string): (f: string -> bool)
    ensures forall author :: f(author) <==> (ia == "" || author == ia) && trust(author)
  {
    author => (ia == "" || author == ia) && trust(author)
  }

  function JudgeFor(s: Server, key: string, ia: string): Judge
    requires s.source.Some? && s.trust.Some?
  {
    Judge(key, s.source.value, Narrowed(s.trust.value, ia), s.now)
  }

  predicate Resolves(v: Verdict, platform: string)
  {
    v.state == Verified && v.attestation.Some? && v.attestation.value.platform == platform
  }

  /** The first verdict that resolves an identity on the platform. */
  function FirstResolved(vs: seq<Verdict>, platform: string): (r: Resolved)
    ensures r.Unresolved? <==> forall i :: 0 <= i < |vs| ==> !Resolves(vs[i], platform)
    ensures !r.Unresolved? ==> exists i :: 0 <= i < |vs| && Resolves(vs[i], platform) && r == Pubkey(vs[i].pubkey)
  {
    if vs == [] then Unresolved
    else if Resolves(vs[0], platform) then
      Pubkey(vs[0].pubkey)
    else
      var r := FirstResolved(vs[1..], platform);
      assert forall i :: 0 <= i < |vs| - 1 ==> vs[1..][i] == vs[i + 1];
      assert forall i :: 1 <= i < |vs| ==> vs[i] == vs[1..][i - 1];
      r
  }

  /** ResolveIdentity. */
  function ResolveIdentity(s: Server, id: Identity, ia: string, claims: seq<Event>): Resolved
  {
    if id.value == "" then Unresolved
    else if !LowerHex(id.value, 64) then BadIdentity
    else if id.platform == "" then Pubkey(id.value)
    else if ia != "" && !LowerHex(ia, 64) then BadIA
    else if s.source.None? || s.trust.None? then Unresolved
    else FirstResolved(Evaluated(JudgeFor(s, id.value, ia), claims), id.platform)
  }

  /** SweepAllowed. */
  predicate SweepAllowed(s: Server, key: Identity, ia: string, claimant: string, claims: seq<Event>)
  {
    if key.value == "" then false
    else if key.platform == "" then ia == "" && claimant == key.value
    else ResolveIdentity(s, key, ia, claims) == Pubkey(claimant)
  }

  /** Which fault is given, and that a pubkey resolves to itself without a lookup. */
  lemma ResolveFaults(s: Server, id: Identity, ia: string, claims: seq<Event>)
    ensures var r := ResolveIdentity(s, id, ia, claims);
      && (r == BadIdentity <==> id.value != "" && !LowerHex(id.value, 64))
      && (r == BadIA <==> LowerHex(id.value, 64) && id.platform != "" && ia != "" && !LowerHex(ia, 64))
      && (id.value == "" || (id.platform != "" && (s.source.None? || s.trust.None?) && !r.BadIdentity? && !r.BadIA?) ==> r == Unresolved)
      && (id.platform == "" && LowerHex(id.value, 64) ==> r == Pubkey(id.value))
  {
    hide FirstResolved, Evaluated, LowerHex;
    HexNotEmpty(id.value);
    if s.source.Some? && s.trust.Some? { FoundOrNot(Evaluated(JudgeFor(s, id.value, ia), claims), id.platform); }
  }

  lemma FoundOrNot(vs: seq<Verdict>, platform: string)
    ensures FirstResolved(vs, platform).Unresolved? || FirstResolved(vs, platform).Pubkey?
  {
  }

  /** Whatever resolves a connection key is the pubkey the newest counting attestation names. */
  lemma ResolvedIsWinner(s: Server, id: Identity, ia: string, claims: seq<Event>)
    requires id.platform != "" && ResolveIdentity(s, id, ia, claims).Pubkey?
    ensures s.source.Some? && s.trust.Some?
    ensures var j := JudgeFor(s, id.value, ia);
      var w := Winner(j, claims, |claims|);
      w.Some? && ResolveIdentity(s, id, ia, claims) == Pubkey(w.value.userPubkey)
  {
    hide Evaluated, Winner, CountsIn, LowerHex;
    var j := JudgeFor(s, id.value, ia);
    var vs := Evaluated(j, claims);
    var i :| 0 <= i < |vs| && Resolves(vs[i], id.platform) && FirstResolved(vs, id.platform) == Pubkey(vs[i].pubkey);
    OneWinner(j, claims, vs[i]);
  }

  /** c is about the key on the platform, is p's, and one of its references counts. */
  ghost predicate ClaimedBy(j: Judge, platform: string, p: string, c: Event)
  {
    c.Claim? && Relevant(j, c) && c.platform == platform && c.pubkey == p && exists a :: Counts(j, c, a)
  }

  /** p is the pubkey the newest counting attestation names, and claims the key on the platform itself. */
  ghost predicate Released(j: Judge, claims: seq<Event>, platform: string, p: string)
  {
    && (exists c :: c in claims && ClaimedBy(j, platform, p, c))
    && (exists b :: Newest(j, claims, b) && b.userPubkey == p)
  }

  /** A connection key resolves to p exactly when p is so released, to a server that can look. */
  lemma ResolvesExactly(s: Server, id: Identity, ia: string, claims: seq<Event>, p: string)
    requires id.platform != "" && (s.source.Some? ==> Identified(s.source.value))
    ensures ResolveIdentity(s, id, ia, claims) == Pubkey(p) <==>
      && LowerHex(id.value, 64) && (ia != "" ==> LowerHex(ia, 64)) && s.source.Some? && s.trust.Some?
      && Released(JudgeFor(s, id.value, ia), claims, id.platform, p)
  {
    hide Evaluated, LowerHex, FirstResolved, Released, Identified;
    HexNotEmpty(id.value);
    if s.source.Some? && s.trust.Some? {
      FirstIsReleased(JudgeFor(s, id.value, ia), claims, id.platform, p);
    }
  }

  lemma HexNotEmpty(v: string)
    ensures LowerHex(v, 64) ==> v != ""
  {
  }

  lemma FirstIsReleased(j: Judge, claims: seq<Event>, platform: string, p: string)
    requires Identified(j.source)
    ensures FirstResolved(Evaluated(j, claims), platform) == Pubkey(p) <==> Released(j, claims, platform, p)
  {
    hide Evaluated, Released, Identified, FirstResolved;
    var vs := Evaluated(j, claims);
    if FirstResolved(vs, platform) == Pubkey(p) {
      var i :| 0 <= i < |vs| && Resolves(vs[i], platform) && FirstResolved(vs, platform) == Pubkey(vs[i].pubkey);
      assert vs[i] in vs;
      VerifiedIsReleased(j, claims, platform, vs[i]);
    }
    if Released(j, claims, platform, p) {
      var v := ReleasedIsVerified(j, claims, platform, p);
      var k :| 0 <= k < |vs| && vs[k] == v;
      assert Resolves(vs[k], platform);
      var i :| 0 <= i < |vs| && Resolves(vs[i], platform) && FirstResolved(vs, platform) == Pubkey(vs[i].pubkey);
      assert vs[i] in vs;
      SharedPubkey(j, claims, v, vs[i]);
    }
  }

  lemma VerifiedIsReleased(j: Judge, claims: seq<Event>, platform: string, v: Verdict)
    requires Identified(j.source) && v in Evaluated(j, claims) && Resolves(v, platform)
    ensures Released(j, claims, platform, v.pubkey)
  {
    hide Evaluated, Winner, Identified, Newest, Counts, Best;
    EvaluatedFrom(j, claims, v);
    var c :| c in claims && Relevant(j, c) && v == VerdictOn(j, claims, c);
    VerifiedMeans(j, claims, c);
    assert ClaimedBy(j, platform, v.pubkey, c);
  }

  lemma ReleasedIsVerified(j: Judge, claims: seq<Event>, platform: string, p: string) returns (v: Verdict)
    requires Identified(j.source) && Released(j, claims, platform, p)
    ensures v in Evaluated(j, claims) && Resolves(v, platform) && v.pubkey == p
  {
    hide Evaluated, Winner, Identified, Newest, Counts, Best;
    var c :| c in claims && ClaimedBy(j, platform, p, c);
    VerifiedMeans(j, claims, c);
    v := VerdictOn(j, claims, c);
    assert GivenFor(j, claims, v);
    assert !NoneAbout(j, claims);
    EvaluatedFrom(j, claims, v);
  }

  /** And an attestation that is its author's current one for the key releases it: the named author's, when one is named. */
  lemma ReleasedByCurrent(s: Server, id: Identity, ia: string, claims: seq<Event>)
    requires id.platform != "" && ResolveIdentity(s, id, ia, claims).Pubkey?
    ensures s.source.Some? && s.trust.Some?
    ensures exists a ::
      && CountsIn(JudgeFor(s, id.value, ia), claims, a)
      && a.userPubkey == ResolveIdentity(s, id, ia, claims).pubkey
      && (ia != "" ==> a.pubkey == ia) && s.trust.value(a.pubkey)
      && s.source.value.current(a.pubkey, id.value) == Some(a.id)
  {
    hide Evaluated, Winner, LowerHex, FirstResolved;
    ResolvedIsWinner(s, id, ia, claims);
    var j := JudgeFor(s, id.value, ia);
    var w := Winner(j, claims, |claims|).value;
    WinnerOverall(j, claims);
    var ev :| ev in claims && Counts(j, ev, w);
    var r :| r in ev.refs && Checked(j, ev, r) == Some(w);
    assert j.trusted(w.pubkey);
  }

  /** The same claims in any order and number resolve alike. */
  lemma ResolveAnyOrder(s: Server, id: Identity, ia: string, evs: seq<Event>, fvs: seq<Event>)
    requires SameClaims(evs, fvs) && (s.source.Some? ==> Identified(s.source.value))
    ensures ResolveIdentity(s, id, ia, evs) == ResolveIdentity(s, id, ia, fvs)
  {
    hide Evaluated, SameClaims, Identified, LowerHex, Winner;
    if s.source.Some? && s.trust.Some? {
      var j := JudgeFor(s, id.value, ia);
      var a, b := FirstResolved(Evaluated(j, evs), id.platform), FirstResolved(Evaluated(j, fvs), id.platform);
      ResolvedWithin(j, evs, fvs, id.platform);
      SameClaimsFlip(evs, fvs);
      ResolvedWithin(j, fvs, evs, id.platform);
    }
  }

  lemma ResolvedWithin(j: Judge, evs: seq<Event>, fvs: seq<Event>, platform: string)
    requires SameClaims(evs, fvs) && Identified(j.source)
    ensures var a, b := FirstResolved(Evaluated(j, evs), platform), FirstResolved(Evaluated(j, fvs), platform);
      !a.Unresolved? ==> a == b
  {
    hide Evaluated, SameClaims, Identified, CountsIn, Winner, Newer, FirstResolved;
    var vs, us := Evaluated(j, evs), Evaluated(j, fvs);
    if !FirstResolved(vs, platform).Unresolved? {
      var i :| 0 <= i < |vs| && Resolves(vs[i], platform) && FirstResolved(vs, platform) == Pubkey(vs[i].pubkey);
      assert vs[i] in vs;
      SameVerdicts(j, evs, fvs, vs[i]);
      var k :| 0 <= k < |us| && us[k] == vs[i];
      var m :| 0 <= m < |us| && Resolves(us[m], platform) && FirstResolved(us, platform) == Pubkey(us[m].pubkey);
      assert us[k] in us && us[m] in us && Resolves(us[m], platform);
      SharedPubkey(j, fvs, us[k], us[m]);
    }
  }

  lemma SharedPubkey(j: Judge, evs: seq<Event>, u: Verdict, v: Verdict)
    requires u in Evaluated(j, evs) && v in Evaluated(j, evs) && u.state == Verified && v.state == Verified
    ensures u.pubkey == v.pubkey
  {
    hide Evaluated, CountsIn, Winner, Newer;
    OneWinner(j, evs, u);
    OneWinner(j, evs, v);
  }

  /** Whether value may be swept does not depend on the order of the claims, and at most one claimant may. */
  lemma SweepAnyOrder(s: Server, key: Identity, ia: string, p: string, q: string, evs: seq<Event>, fvs: seq<Event>)
    requires SameClaims(evs, fvs) && (s.source.Some? ==> Identified(s.source.value))
    ensures SweepAllowed(s, key, ia, p, evs) == SweepAllowed(s, key, ia, p, fvs)
    ensures SweepAllowed(s, key, ia, p, evs) && SweepAllowed(s, key, ia, q, fvs) ==> p == q
  {
    hide ResolveIdentity, SameClaims, Identified;
    ResolveAnyOrder(s, key, ia, evs, fvs);
  }

  /**
    * Who held value may be swept to. For a pubkey: that pubkey, and no author may be
    * named. For a connection key: exactly the one it is released to, under the author named.
    */
  lemma SweepExactly(s: Server, key: Identity, ia: string, claimant: string, claims: seq<Event>)
    requires s.source.Some? ==> Identified(s.source.value)
    ensures SweepAllowed(s, key, ia, claimant, claims) <==>
      if key.platform == "" then key.value != "" && ia == "" && claimant == key.value
      else && LowerHex(key.value, 64) && (ia != "" ==> LowerHex(ia, 64)) && s.source.Some? && s.trust.Some?
           && Released(JudgeFor(s, key.value, ia), claims, key.platform, claimant)
  {
    hide Released, LowerHex, Identified, ResolveIdentity;
    HexNotEmpty(key.value);
    if key.platform != "" { ResolvesExactly(s, key, ia, claims, claimant); }
  }

  /** With an author named, it is an attestation of that author, current for the key, that names the claimant. */
  lemma SweepNeedsAuthor(s: Server, key: Identity, ia: string, claimant: string, claims: seq<Event>)
    requires key.platform != "" && SweepAllowed(s, key, ia, claimant, claims)
    ensures s.source.Some? && s.trust.Some?
    ensures exists a :: && CountsIn(JudgeFor(s, key.value, ia), claims, a) && a.userPubkey == claimant && (ia != "" ==> a.pubkey == ia)
                        && s.trust.value(a.pubkey) && s.source.value.current(a.pubkey, key.value) == Some(a.id)
  {
    hide ResolveIdentity, CountsIn;
    ReleasedByCurrent(s, key, ia, claims);
  }

  /** The search of ResolveIdentity over Evaluate's verdicts. */
  method FindResolved(j: Judge, platform: string, claims: seq<Event>) returns (r: Resolved)
    ensures r == FirstResolved(Evaluated(j, claims), platform)
  {
    var vs := Evaluate(j, claims);
    for i := 0 to |vs|
      invariant FirstResolved(vs, platform) == FirstResolved(vs[i..], platform)
    {
      if Resolves(vs[i], platform) { return Pubkey(vs[i].pubkey); }
      assert vs[i..][1..] == vs[i + 1..];
    }
    r := Unresolved;
  }
}
