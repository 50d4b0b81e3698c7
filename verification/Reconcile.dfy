/**
  * One party's answer to a message (nip77/reconcile.go:10-164): every range is
  * cut out of our own items and settled, split, or listed; the answer stays
  * inside its frame.
  */
module Reconcile {
  import opened Words
  import opened Items
  import opened Fingerprint
  import opened Codec
  import opened Split
  import opened Frame

  /** What a party brings to every answer. limit is its effective frame limit, 0 for none. */
  datatype Party = Party(hash: Hash, items: seq<Item>, initiator: bool, limit: nat)

  /** The ids told to the caller: reported is remembered between answers, by the initiator only. */
  datatype Tally = Tally(reported: set<Id>, have: seq<Id>, need: multiset<Id>)

  /** The state of the answer between two ranges. */
  datatype Turn = Turn(prevIdx: nat, prevBound: Bound, writtenIdx: nat, skip: bool,
                       out: seq<Range>, tally: Tally, closed: bool)

  datatype Outcome = Failed(tally: Tally) | Going(turn: Turn)

  // ---------------------------------------------------- comparing an id list

  function IdSet(ids: seq<Id>): set<Id> { set id | id in ids }

  /** Our items walked in order against the ids they listed. */
  datatype Walk = Walk(left: set<Id>, reported: set<Id>, have: seq<Id>)

  function WalkStep(tracked: bool, w: Walk, id: Id): Walk
  {
    if id in w.left then Walk(w.left - {id}, w.reported, w.have)
    else if tracked && id in w.reported then w
    else Walk(w.left, if tracked then w.reported + {id} else w.reported, w.have + [id])
  }

  function WalkTo(tracked: bool, items: seq<Item>, n: nat, w: Walk): Walk
    requires n <= |items|
  {
    if n == 0 then w else WalkStep(tracked, WalkTo(tracked, items, n - 1, w), items[n - 1].id)
  }

  /** The tally after their ids were compared with our items of the range. */
  function Diff(tracked: bool, items: seq<Item>, ids: set<Id>, t: Tally): Tally
  {
    var w := WalkTo(tracked, items, |items|, Walk(ids, t.reported, t.have));
    Tally(if tracked then w.reported + w.left else w.reported, w.have,
          t.need + multiset(if tracked then w.left - w.reported else w.left))
  }

  // ------------------------------------------------------------- one range

  function SkipTo(bound: Bound): Range { Range(bound, SKIP, []) }

  ghost function RestFrom(p: Party, from: nat): Range
    requires from <= |p.items|
  {
    Range(Infinity, FINGERPRINT, Print(p.hash, p.items[from..]))
  }

  function Pending(t: Turn): seq<Range> { if t.skip then [SkipTo(t.prevBound)] else [] }

  /** Where an id list that starts at lower must be cut to stay in the frame. */
  function ListEnd(limit: nat, base: nat, lower: nat, i: nat, upper: nat): (e: nat)
    requires lower <= i <= upper
    ensures i <= e <= upper
    ensures e < upper ==> Exceeded(limit, base + 64 + (e - lower + 1) * 32)
    ensures i < e ==> !Exceeded(limit, base + 64 + (e - lower) * 32)
    ensures limit == 0 ==> e == upper
    decreases upper - i
  {
    if i == upper || Exceeded(limit, base + 64 + (i - lower + 1) * 32) then i
    else ListEnd(limit, base, lower, i + 1, upper)
  }

  /** The state after the switch over the range's mode: o is not yet committed. */
  datatype Mid = Mid(skip: bool, o: seq<Range>, out: seq<Range>, writtenIdx: nat, upper: nat, full: bool)

  ghost predicate Fits(p: Party, t: Turn) { t.prevIdx <= |p.items| && t.writtenIdx <= |p.items| }

  function Settled(t: Turn, upper: nat): Mid { Mid(true, [], t.out, t.writtenIdx, upper, false) }

  ghost function SplitReply(p: Party, t: Turn, r: Range, upper: nat): Mid
    requires t.prevIdx <= upper <= |p.items|
  {
    Mid(false, Pending(t) + SplitSpec(p.hash, p.items, t.prevIdx, upper, r.bound), t.out, t.writtenIdx, upper, false)
  }

  function ListReply(p: Party, t: Turn, r: Range, upper: nat): (m: Mid)
    requires t.prevIdx <= upper <= |p.items|
    ensures m.writtenIdx <= |p.items|
  {
    var e := ListEnd(p.limit, EncodedLen(t.out + Pending(t)), t.prevIdx, t.prevIdx, upper);
    var bound := if e < upper then Bound(p.items[e].ts, p.items[e].id) else r.bound;
    Mid(false, [], t.out + Pending(t) + [Range(bound, IDLIST, IdListBytes(p.items[t.prevIdx..e]))], e, e, e < upper)
  }

  ghost function Reply(p: Party, t: Turn, r: Range, upper: nat): (m: Mid)
    requires Fits(p, t) && t.prevIdx <= upper <= |p.items|
    ensures m.writtenIdx <= |p.items| && m.upper <= |p.items|
  {
    if r.mode == SKIP then Settled(t, upper)
    else if r.mode == FINGERPRINT then
      if Print(p.hash, p.items[t.prevIdx..upper]) == r.payload then Settled(t, upper) else SplitReply(p, t, r, upper)
    else if r.mode == IDLIST then
      if p.initiator then Settled(t, upper) else ListReply(p, t, r, upper)
    else Mid(t.skip, [], t.out, t.writtenIdx, upper, false)
  }

  /** Close the answer, or commit what the range gave and move on. */
  ghost function Finish(p: Party, t: Turn, m: Mid, bound: Bound): (t': Turn)
    requires Fits(p, t) && m.writtenIdx <= |p.items| && m.upper <= |p.items|
    ensures Fits(p, t') && t'.tally == t.tally
  {
    if m.full || Exceeded(p.limit, EncodedLen(m.out + m.o)) then
      if !m.full && t.skip then
        t.(out := m.out + [SkipTo(t.prevBound)] + [RestFrom(p, t.prevIdx)], closed := true)
      else
        t.(out := m.out + [RestFrom(p, m.writtenIdx)], closed := true)
    else
      Turn(m.upper, bound, if m.o != [] then m.upper else m.writtenIdx, m.skip, m.out + m.o, t.tally, false)
  }

  /** The tally after a range: only an id list changes it. */
  function Tallied(p: Party, t: Turn, r: Range, upper: nat): (tally: Option<Tally>)
    requires t.prevIdx <= upper <= |p.items|
  {
    if r.mode != IDLIST then Some(t.tally)
    else
      var ids := ListedIds(r.payload);
      if ids.None? then None
      else Some(Diff(p.initiator, p.items[t.prevIdx..upper], IdSet(ids.value), t.tally))
  }

  ghost function Step(p: Party, t: Turn, r: Range): (o: Outcome)
    requires Fits(p, t)
    ensures o.Going? ==> Fits(p, o.turn)
  {
    var upper := FirstNotBefore(p.items, t.prevIdx, r.bound);
    var tally := Tallied(p, t, r, upper);
    if tally.None? then Failed(t.tally)
    else
      var t' := t.(tally := tally.value);
      Going(Finish(p, t', Reply(p, t', r, upper), r.bound))
  }

  function Start(reported: set<Id>): Turn
  {
    Turn(0, Bound(0, []), 0, false, [], Tally(reported, [], multiset{}), false)
  }

  /** The answer after the first n ranges; a closed answer reads no further. */
  ghost function After(p: Party, reported: set<Id>, ranges: seq<Range>, n: nat): (o: Outcome)
    requires n <= |ranges|
    ensures o.Going? ==> Fits(p, o.turn)
  {
    if n == 0 then Going(Start(reported))
    else
      var o := After(p, reported, ranges, n - 1);
      if o.Failed? || o.turn.closed then o else Step(p, o.turn, ranges[n - 1])
  }

  lemma {:induction false} Stopped(p: Party, reported: set<Id>, ranges: seq<Range>, i: nat, n: nat)
    requires i <= n <= |ranges|
    requires var o := After(p, reported, ranges, i); o.Failed? || o.turn.closed
    ensures After(p, reported, ranges, n) == After(p, reported, ranges, i)
    decreases n
  {
    hide Step;
    if i < n { Stopped(p, reported, ranges, i, n - 1); }
  }

  lemma AfterNone(p: Party, reported: set<Id>, ranges: seq<Range>)
    ensures After(p, reported, ranges, 0) == Going(Start(reported))
  {
  }

  lemma AfterNext(p: Party, reported: set<Id>, ranges: seq<Range>, i: nat, t: Turn, upper: nat)
    requires i < |ranges| && Fits(p, t) && After(p, reported, ranges, i) == Going(t) && !t.closed
    requires upper == FirstNotBefore(p.items, t.prevIdx, ranges[i].bound)
    ensures var tally := Tallied(p, t, ranges[i], upper);
      After(p, reported, ranges, i + 1)
      == if tally.None? then Failed(t.tally)
         else var t' := t.(tally := tally.value); Going(Finish(p, t', Reply(p, t', ranges[i], upper), ranges[i].bound))
  {
    hide FirstNotBefore, Tallied, Reply, Finish;
  }

  ghost function Answer(p: Party, reported: set<Id>, ranges: seq<Range>): (o: Outcome)
  {
    After(p, reported, ranges, |ranges|)
  }

  // ------------------------------------------------------------- the object

  const MIN_FRAME: nat := 4096

  /** frameLimit. */
  function FrameLimit(frameSizeLimit: int): (limit: nat)
  {
    if frameSizeLimit <= 0 then 0 else if frameSizeLimit < MIN_FRAME then MIN_FRAME else frameSizeLimit
  }

  class Negentropy {
    const hash: Hash
    const items: seq<Item>
    var isInitiator: bool
    var frameSizeLimit: int
    var reported: set<Id>

    constructor (hash: Hash, items: seq<Item>)
      ensures this.hash == hash && this.items == items && !isInitiator && frameSizeLimit == 30_000 && reported == {}
    {
      this.hash, this.items, isInitiator, frameSizeLimit, reported := hash, items, false, 30_000, {};
    }

    ghost predicate Valid() { Sorted(items) && |items| < TWO_64 }

    ghost function Me(): Party
      reads this
    {
      Party(hash, items, isInitiator, FrameLimit(frameSizeLimit))
    }

    /** Initiate. */
    method Initiate() returns (m: Message)
      requires Valid()
      modifies this`isInitiator
      ensures isInitiator
      ensures m == Message(VERSION, SplitSpec(hash, items, 0, |items|, Infinity))
    {
      isInitiator := true;
      var rs := SplitRange(hash, items, 0, |items|, Infinity);
      m := Message(VERSION, rs);
    }

    /** report. */
    method Report(id: Id) returns (isNew: bool)
      modifies this`reported
      ensures isNew <==> !isInitiator || id !in old(reported)
      ensures reported == if isInitiator then old(reported) + {id} else old(reported)
    {
      if !isInitiator { return true; }
      if id in reported { return false; }
      reported := reported + {id};
      isNew := true;
    }

    /** The two loops that compare their ids with ours. */
    method ReportDiff(ours: seq<Item>, ids: seq<Id>, have: seq<Id>, need: seq<Id>) returns (have': seq<Id>, need': seq<Id>)
      modifies this`reported
      ensures Tally(reported, have', multiset(need'))
           == Diff(isInitiator, ours, IdSet(ids), Tally(old(reported), have, multiset(need)))
    {
      var left := IdSet(ids);
      ghost var start := Walk(left, reported, have);
      have' := have;
      for i := 0 to |ours|
        invariant Walk(left, reported, have') == WalkTo(isInitiator, ours, i, start)
      {
        var id := ours[i].id;
        if id !in left {
          var isNew := Report(id);
          if isNew { have' := have' + [id]; }
        } else {
          left := left - {id};
        }
      }
      need' := ReportLeft(left, need);
    }

    /** Every id of theirs that was not ours, in no particular order. */
    method ReportLeft(theirs: set<Id>, need: seq<Id>) returns (need': seq<Id>)
      modifies this`reported
      ensures reported == if isInitiator then old(reported) + theirs else old(reported)
      ensures multiset(need') == multiset(need) + multiset(if isInitiator then theirs - old(reported) else theirs)
    {
      need' := need;
      var left := theirs;
      while left != {}
        invariant left <= theirs
        invariant reported == if isInitiator then old(reported) + (theirs - left) else old(reported)
        invariant multiset(need') + multiset(if isInitiator then left - old(reported) else left)
               == multiset(need) + multiset(if isInitiator then theirs - old(reported) else theirs)
        decreases left
      {
        var id :| id in left;
        ghost var open := if isInitiator then left - old(reported) else left;
        var isNew := Report(id);
        if isNew { need' := need' + [id]; }
        left := left - {id};
        assert (if isInitiator then left - old(reported) else left) == open - {id};
        assert isNew <==> id in open;
      }
    }

    /** The responder's list: where it must be cut. */
    method CutList(f: Tracker, pending: seq<Range>, lower: nat, upper: nat) returns (end: nat)
      requires lower <= upper && f.Valid() && AllWritable(pending)
      ensures end == ListEnd(f.limit, EncodedLen(f.written + pending), lower, lower, upper)
    {
      var n := f.Measure(pending);
      var base := f.size + n;
      end := lower;
      while end < upper
        invariant lower <= end <= upper
        invariant ListEnd(f.limit, base, lower, lower, upper) == ListEnd(f.limit, base, lower, end, upper)
      {
        if Exceeded(f.limit, base + 64 + (end - lower + 1) * 32) { return; }
        end := end + 1;
      }
    }

    /** The switch over a range's mode; the answer so far is out, tracked by f. */
    method Consider(theirs: Range, t: Turn, f: Tracker, upper: nat, have: seq<Id>, need: seq<Id>)
      returns (ok: bool, m: Mid, have': seq<Id>, need': seq<Id>)
      requires Valid() && t.prevIdx <= upper <= |items| && t.writtenIdx <= |items|
      requires f.Valid() && f.written == t.out && f.limit == FrameLimit(frameSizeLimit)
      requires t.tally == Tally(reported, have, multiset(need))
      modifies this`reported, f
      ensures ok <==> Tallied(Me(), t, theirs, upper).Some?
      ensures ok ==>
        var tally := Tallied(Me(), t, theirs, upper).value;
        && tally == Tally(reported, have', multiset(need'))
        && m == Reply(Me(), t.(tally := tally), theirs, upper)
        && f.Valid() && f.written == m.out && AllWritable(m.o)
      ensures !ok ==> reported == old(reported)
    {
      hide Print, IsFingerprint, SplitSpec, EncodedLen, IdListBytes, ListedIds, Diff, ListEnd, Sorted, FrameLimit;
      var lower := t.prevIdx;
      ok, m, have', need' := true, Settled(t, upper), have, need;
      if theirs.mode == SKIP {
      } else if theirs.mode == FINGERPRINT {
        var ours := ComputeFingerprint(hash, items[lower..upper]);
        if ours != theirs.payload {
          var split := SplitRange(hash, items, lower, upper, theirs.bound);
          SplitWritable(hash, items, lower, upper, theirs.bound);
          m := Mid(false, Pending(t) + split, t.out, t.writtenIdx, upper, false);
        }
      } else if theirs.mode == IDLIST {
        var ids := DecodeIdList(theirs.payload);
        if ids.None? { ok := false; return; }
        have', need' := ReportDiff(items[lower..upper], ids.value, have, need);
        if !isInitiator {
          var end := CutList(f, Pending(t), lower, upper);
          var bound, full := theirs.bound, false;
          if end < upper { bound, full := Bound(items[end].ts, items[end].id), true; }
          var payload := EncodeIdList(items[lower..end]);
          var o := Pending(t) + [Range(bound, IDLIST, payload)];
          f.Commit(o);
          assert t.out + o == t.out + Pending(t) + [Range(bound, IDLIST, payload)];
          m := Mid(false, [], t.out + o, end, end, full);
        }
      } else {
        m := Mid(t.skip, [], t.out, t.writtenIdx, upper, false);
      }
    }

    /** The end of a turn: close the answer with what is left, or commit and go on. */
    method Conclude(t: Turn, m: Mid, f: Tracker, bound: Bound) returns (t': Turn)
      requires Valid() && t.prevIdx <= |items| && t.writtenIdx <= |items| && m.writtenIdx <= |items| && m.upper <= |items|
      requires f.Valid() && f.written == m.out && AllWritable(m.o) && f.limit == FrameLimit(frameSizeLimit)
      modifies f
      ensures t' == Finish(Me(), t, m, bound)
      ensures !t'.closed && !t.closed ==> f.Valid() && f.written == t'.out
    {
      hide Print, IsFingerprint, EncodedLen, Sorted, FrameLimit;
      var n := f.Measure(m.o);
      if m.full || Exceeded(f.limit, f.size + n) {
        var from, out := m.writtenIdx, m.out;
        if !m.full && t.skip { from, out := t.prevIdx, out + [SkipTo(t.prevBound)]; }
        var rest := ComputeFingerprint(hash, items[from..]);
        return t.(out := out + [Range(Infinity, FINGERPRINT, rest)], closed := true);
      }
      var writtenIdx := m.writtenIdx;
      if |m.o| > 0 {
        f.Commit(m.o);
        writtenIdx := m.upper;
      } else {
        assert m.out + m.o == m.out;
      }
      t' := Turn(m.upper, bound, writtenIdx, m.skip, m.out + m.o, t.tally, false);
    }

    /** Reconcile. */
    method Reconcile(theirMsg: Message) returns (r: Option<(Message, seq<Id>, seq<Id>)>)
      requires Valid()
      modifies this`reported
      ensures var o := Answer(Me(), old(reported), theirMsg.ranges);
        && (o.Failed? <==> r.None?)
        && (o.Failed? ==> reported == o.tally.reported)
        && (o.Going? ==> var t := o.turn;
            r.value.0 == Message(VERSION, t.out) && Tally(reported, r.value.1, multiset(r.value.2)) == t.tally)
    {
      hide After, FirstNotBefore, EncodedLen, Sorted, FrameLimit, Tallied, Reply, Finish;
      AfterNone(Me(), reported, theirMsg.ranges);
      ghost var me := Me();
      var ranges := theirMsg.ranges;
      var f := new Tracker(FrameLimit(frameSizeLimit));
      var t := Start(reported);
      var have: seq<Id>, need: seq<Id> := [], [];
      for i := 0 to |ranges|
        invariant f.Valid() && f.written == t.out && f.limit == me.limit && fresh(f)
        invariant t.tally == Tally(reported, have, multiset(need)) && !t.closed
        invariant Fits(me, t)
        invariant After(me, old(reported), ranges, i) == Going(t)
      {
        var theirs := ranges[i];
        var upper := LowerBound(items, t.prevIdx, theirs.bound);
        AfterNext(me, old(reported), ranges, i, t, upper);
        var ok, m;
        ok, m, have, need := Consider(theirs, t, f, upper, have, need);
        if !ok {
          Stopped(me, old(reported), ranges, i + 1, |ranges|);
          return None;
        }
        t := Conclude(t.(tally := Tally(reported, have, multiset(need))), m, f, theirs.bound);
        if t.closed {
          Stopped(me, old(reported), ranges, i + 1, |ranges|);
          break;
        }
      }
      r := Some((Message(VERSION, t.out), have, need));
    }
  }

  lemma {:induction false} BucketsWritable(hash: Hash, items: seq<Item>, lower: nat, upper: nat, bound: Bound, n: nat)
    requires lower <= upper <= |items| && upper - lower >= 32 && n <= 16
    ensures AllWritable(Buckets(hash, items, lower, upper, bound, n))
  {
    hide Print;
    if n > 0 { BucketsWritable(hash, items, lower, upper, bound, n - 1); }
  }

  lemma SplitWritable(hash: Hash, items: seq<Item>, lower: nat, upper: nat, bound: Bound)
    requires lower <= upper <= |items|
    ensures AllWritable(SplitSpec(hash, items, lower, upper, bound))
  {
    hide IdListBytes;
    if upper - lower >= 32 { BucketsWritable(hash, items, lower, upper, bound, 16); }
  }
}
