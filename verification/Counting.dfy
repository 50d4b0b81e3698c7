/** Totalling cash zaps (nipCZ/count.go:10-72): sort, then count greedily. */
module Counting {
  import opened Words
  import opened Text

  datatype Zap = Zap(id: string, createdAt: U64, sender: string, recipient: string, toConnectionKey: bool, e: string, a: string,
                     zapBill: bool, w: string, amount: U64, issuedAt: Option<U64>, expiresAt: Option<U64>)

  /** A zap and whether its verdict is countable. */
  datatype Item = Item(zap: Zap, countable: bool)

  datatype Rules = Rules(deleted: set<string>, minLife: I64, collapse: bool)

  // ------------------------------------------------------------- eligibility

  /** A life in seconds, compared as a time.Duration. */
  predicate LongEnough(life: U64, minLife: I64) { Signed64(Signed64(life) * 1_000_000_000) >= minLife }

  /** countable. */
  predicate Countable(x: Item, minLife: I64)
  {
    var z := x.zap;
    if !x.countable || z.toConnectionKey || (z.e == "" && z.a == "") || !z.zapBill || z.issuedAt.None? || z.expiresAt.None? then false
    else if z.expiresAt.value == 0 then true
    else if z.expiresAt.value < z.issuedAt.value then false
    else LongEnough(z.expiresAt.value - z.issuedAt.value, minLife)
  }

  /** The multiplication is exact, for every least life asked, exactly up to the longest Duration (292 years). */
  lemma LongEnoughExact(life: U64)
    ensures (forall minLife: I64 :: LongEnough(life, minLife) <==> life * 1_000_000_000 >= minLife)
            <==> life * 1_000_000_000 < 0x8000_0000_0000_0000
  {
    if life * 1_000_000_000 >= 0x8000_0000_0000_0000 {
      var longest: I64 := 0x7FFF_FFFF_FFFF_FFFF;
      WrapsShort(life);
      assert !LongEnough(life, longest);
    }
  }

  /** A life of 9,223,372,037 seconds is past it, and reads as negative: too short even when no least life is asked. */
  lemma LongLifeRefused()
    ensures !LongEnough(9_223_372_037, 0)
  {
    assert 9_223_372_037 * 1_000_000_000 == 0x1_0000_0000_0000_0000 - 9_223_372_036_709_551_616;
  }

  /** Past that, the product is even, and so never the longest Duration. */
  lemma WrapsShort(life: U64)
    ensures Signed64(Signed64(life) * 1_000_000_000) < 0x7FFF_FFFF_FFFF_FFFF
  {
    EvenWraps(Signed64(life) * 500_000_000);
  }

  lemma EvenWraps(half: int)
    ensures Signed64(2 * half) < 0x7FFF_FFFF_FFFF_FFFF
  {
  }

  /** What a zap that may count is: vouched for, to a pubkey, about a note, a zap bill, and long-lived enough or without end. */
  lemma CountableMeans(x: Item, minLife: I64)
    requires var z := x.zap; z.issuedAt.Some? && z.expiresAt.Some? && z.expiresAt.value >= z.issuedAt.value ==>
      (z.expiresAt.value - z.issuedAt.value) * 1_000_000_000 < 0x8000_0000_0000_0000
    ensures var z := x.zap;
      Countable(x, minLife) <==>
        && x.countable && !z.toConnectionKey && (z.e != "" || z.a != "") && z.zapBill && z.issuedAt.Some? && z.expiresAt.Some?
        && (z.expiresAt.value == 0
            || (z.issuedAt.value <= z.expiresAt.value && (z.expiresAt.value - z.issuedAt.value) * 1_000_000_000 >= minLife))
  {
    var z := x.zap;
    if z.issuedAt.Some? && z.expiresAt.Some? && z.expiresAt.value >= z.issuedAt.value {
      LongEnoughExact(z.expiresAt.value - z.issuedAt.value);
    }
  }

  predicate Eligible(r: Rules, x: Item) { Countable(x, r.minLife) && x.zap.id !in r.deleted }

  /** A sender and recipient, either way round. */
  function Pair(x: Item): (string, string)
  {
    if Less(x.zap.recipient, x.zap.sender) then (x.zap.recipient, x.zap.sender) else (x.zap.sender, x.zap.recipient)
  }

  /** Pairs are unordered. */
  lemma PairEitherWay(x: Item, y: Item)
    ensures Pair(x) == Pair(y) <==>
      (x.zap.sender == y.zap.sender && x.zap.recipient == y.zap.recipient)
      || (x.zap.sender == y.zap.recipient && x.zap.recipient == y.zap.sender)
  {
    LessTotal(x.zap.sender, x.zap.recipient);
    LessTotal(y.zap.sender, y.zap.recipient);
  }

  /** Two items that do not both count. */
  predicate Conflict(r: Rules, x: Item, y: Item) { x.zap.w == y.zap.w || (r.collapse && Pair(x) == Pair(y)) }

  // ------------------------------------------------------------------- order

  predicate Precedes(x: Item, y: Item)
  {
    x.zap.createdAt < y.zap.createdAt || (x.zap.createdAt == y.zap.createdAt && Less(x.zap.id, y.zap.id))
  }

  lemma PrecedesTotal(x: Item, y: Item)
    ensures Precedes(x, y) || Precedes(y, x) || x.zap.id == y.zap.id
    ensures !(Precedes(x, y) && Precedes(y, x))
  {
    LessTotal(x.zap.id, y.zap.id);
  }

  lemma PrecedesTransitive(x: Item, y: Item, z: Item)
    requires !Precedes(y, x) && !Precedes(z, y)
    ensures !Precedes(z, x)
  {
    hide Less;
    LessTotal(x.zap.id, y.zap.id);
    LessTotal(y.zap.id, z.zap.id);
    LessTotal(x.zap.id, z.zap.id);
    if Less(x.zap.id, y.zap.id) && Less(y.zap.id, z.zap.id) { LessTransitive(x.zap.id, y.zap.id, z.zap.id); }
  }

  ghost predicate Ordered(s: seq<Item>) { forall i, j :: 0 <= i < j < |s| ==> !Precedes(s[j], s[i]) }

  /** A stable insertion: behind everything it does not precede. */
  function Insert(s: seq<Item>, x: Item): (t: seq<Item>)
    ensures multiset(t) == multiset(s) + multiset{x}
  {
    if s == [] || !Precedes(x, s[|s| - 1]) then s + [x]
    else
      assert s == s[..|s| - 1] + [s[|s| - 1]];
      Insert(s[..|s| - 1], x) + [s[|s| - 1]]
  }

  /** sort.SliceStable of the first n. */
  function SortedTo(items: seq<Item>, n: nat): (t: seq<Item>)
    requires n <= |items|
    ensures multiset(t) == multiset(items[..n])
  {
    if n == 0 then [] else
      assert items[..n] == items[..n - 1] + [items[n - 1]];
      Insert(SortedTo(items, n - 1), items[n - 1])
  }

  lemma InsertMembers(s: seq<Item>, x: Item)
    ensures forall y :: y in Insert(s, x) <==> y in s || y == x
  {
    hide Insert;
    var t := Insert(s, x);
    forall y ensures y in t <==> y in s || y == x {
      assert y in t <==> y in multiset(t);
      assert y in s <==> y in multiset(s);
    }
  }

  lemma {:induction false} InsertOrdered(s: seq<Item>, x: Item)
    requires Ordered(s)
    ensures Ordered(Insert(s, x))
  {
    hide Precedes;
    if s == [] {
    } else {
      var n := |s| - 1;
      if Precedes(x, s[n]) {
        var t := Insert(s[..n], x);
        InsertOrdered(s[..n], x);
        InsertMembers(s[..n], x);
        PrecedesTotal(x, s[n]);
        forall y | y in t ensures !Precedes(s[n], y) {
          if y != x { assert y in s[..n]; }
        }
      } else {
        forall i | 0 <= i < n ensures !Precedes(x, s[i]) { PrecedesTransitive(s[i], s[n], x); }
      }
    }
  }

  lemma {:induction false} SortedIsOrdered(items: seq<Item>, n: nat)
    requires n <= |items|
    ensures Ordered(SortedTo(items, n))
  {
    hide Insert;
    if n > 0 {
      SortedIsOrdered(items, n - 1);
      InsertOrdered(SortedTo(items, n - 1), items[n - 1]);
    }
  }

  // ---------------------------------------------------------------- the count

  datatype Tally = Tally(seenW: set<string>, seenPair: set<(string, string)>, total: U64, counted: seq<Item>)

  predicate Takes(r: Rules, t: Tally, x: Item)
  {
    Eligible(r, x) && x.zap.w !in t.seenW && !(r.collapse && Pair(x) in t.seenPair)
  }

  function Taken(r: Rules, t: Tally, x: Item): Tally
  {
    if Takes(r, t, x) then Tally(t.seenW + {x.zap.w}, t.seenPair + {Pair(x)}, Wrap64(t.total + x.zap.amount), t.counted + [x])
    else t
  }

  function Greedy(r: Rules, s: seq<Item>, n: nat): Tally
    requires n <= |s|
  {
    if n == 0 then Tally({}, {}, 0, []) else Taken(r, Greedy(r, s, n - 1), s[n - 1])
  }

  /** The items Count counts. */
  function Counted(r: Rules, items: seq<Item>): seq<Item>
  {
    var s := SortedTo(items, |items|);
    Greedy(r, s, |s|).counted
  }

  function Sum(s: seq<Item>): nat { if s == [] then 0 else Sum(s[..|s| - 1]) + s[|s| - 1].zap.amount }

  function Ids(s: seq<Item>): seq<string> { seq(|s|, i requires 0 <= i < |s| => s[i].zap.id) }

  ghost function Ws(s: seq<Item>): set<string> { set x | x in s :: x.zap.w }

  ghost function Pairs(s: seq<Item>): set<(string, string)> { set x | x in s :: Pair(x) }

  /** What the tally knows is what it counted. */
  ghost predicate Kept(t: Tally)
  {
    t.seenW == Ws(t.counted) && t.seenPair == Pairs(t.counted) && t.total == Wrap64(Sum(t.counted))
  }

  lemma {:induction false} GreedyKeeps(r: Rules, s: seq<Item>, n: nat)
    requires n <= |s|
    ensures Kept(Greedy(r, s, n))
  {
    hide Pair, Eligible, Kept;
    if n > 0 {
      GreedyKeeps(r, s, n - 1);
      var t, x := Greedy(r, s, n - 1), s[n - 1];
      if Takes(r, t, x) { OneMoreKept(r, t, x); }
    } else {
      NothingKept();
    }
  }

  lemma NothingKept()
    ensures Kept(Tally({}, {}, 0, []))
  {
  }

  lemma OneMoreKept(r: Rules, t: Tally, x: Item)
    requires Kept(t) && Takes(r, t, x)
    ensures Kept(Taken(r, t, x))
  {
    hide Eligible, Wrap64, Sum, Ws, Pairs, Pair;
    var u := Taken(r, t, x);
    OneMoreSummed(t.counted, x);
    WrapAdds(Sum(t.counted), x.zap.amount);
  }

  lemma OneMoreSummed(c: seq<Item>, x: Item)
    ensures Ws(c + [x]) == Ws(c) + {x.zap.w} && Pairs(c + [x]) == Pairs(c) + {Pair(x)}
    ensures Sum(c + [x]) == Sum(c) + x.zap.amount
  {
    hide Pair;
    var d := c + [x];
    assert d[..|c|] == c && d[|c|] == x;
    assert forall y :: y in d <==> y in c || y == x;
  }

  lemma WrapAdds(a: nat, b: nat)
    ensures Wrap64(Wrap64(a) + b) == Wrap64(a + b)
  {
  }

  /** An item is taken exactly when it is eligible and conflicts with nothing counted. */
  lemma TakesMeans(r: Rules, t: Tally, x: Item)
    requires Kept(t)
    ensures Takes(r, t, x) <==> Eligible(r, x) && forall y :: y in t.counted ==> !Conflict(r, y, x)
  {
    hide Pair, Eligible;
  }

  // --------------------------------------------------- what the count comes to

  /** Something counted, and earlier, stands in the way of x. */
  ghost predicate Blocked(r: Rules, c: seq<Item>, x: Item) { exists y :: y in c && Precedes(y, x) && Conflict(r, y, x) }

  /** The rule of the count: an item counts exactly when it is eligible and no earlier one that counts is in its way. */
  ghost predicate Fair(r: Rules, s: seq<Item>, c: seq<Item>)
  {
    && (forall x :: x in c ==> x in s)
    && (forall x :: x in s ==> (x in c <==> Eligible(r, x) && !Blocked(r, c, x)))
  }

  /** An id is a hash: it determines its zap, and with it the verdict. */
  ghost predicate IdsIdentify(s: seq<Item>) { forall x, y :: x in s && y in s && x.zap.id == y.zap.id ==> x == y }

  /** Each counted once, in order. */
  ghost predicate Ascending(c: seq<Item>) { forall i, j :: 0 <= i < j < |c| ==> Precedes(c[i], c[j]) }

  lemma BlockedByMore(r: Rules, c: seq<Item>, x: Item, y: Item)
    requires !Precedes(x, y)
    ensures Blocked(r, c + [x], y) <==> Blocked(r, c, y)
  {
    hide Precedes, Conflict;
  }

  lemma {:induction false} GreedyFair(r: Rules, s: seq<Item>, n: nat)
    requires n <= |s| && Ordered(s) && IdsIdentify(s)
    ensures Fair(r, s[..n], Greedy(r, s, n).counted) && Ascending(Greedy(r, s, n).counted)
  {
    hide Precedes, Eligible, Conflict, Ordered, IdsIdentify, Takes, Fair, Kept, Ascending;
    if n == 0 {
      FairNothing(r, s);
    } else {
      GreedyFair(r, s, n - 1);
      var t, x := Greedy(r, s, n - 1), s[n - 1];
      GreedyKeeps(r, s, n - 1);
      TakesMeans(r, t, x);
      AllBefore(s, n - 1);
      assert s[..n] == s[..n - 1] + [x];
      FairNext(r, s[..n - 1], t.counted, x, Takes(r, t, x));
    }
  }

  lemma FairNothing(r: Rules, s: seq<Item>)
    ensures Fair(r, s[..0], []) && Ascending([])
  {
  }

  ghost predicate AtEnd(s: seq<Item>, x: Item) { forall y :: y in s ==> !Precedes(x, y) && (Precedes(y, x) || y == x) }

  lemma AllBefore(s: seq<Item>, n: nat)
    requires n < |s| && Ordered(s) && IdsIdentify(s)
    ensures AtEnd(s[..n], s[n])
  {
    hide Precedes, Ordered, IdsIdentify;
    forall y | y in s[..n] ensures !Precedes(s[n], y) && (Precedes(y, s[n]) || y == s[n]) {
      NotBefore(s, n, y);
      BeforeOrSame(s, n, y);
    }
  }

  lemma NotBefore(s: seq<Item>, n: nat, y: Item)
    requires n < |s| && Ordered(s) && y in s[..n]
    ensures !Precedes(s[n], y)
  {
  }

  lemma BeforeOrSame(s: seq<Item>, n: nat, y: Item)
    requires n < |s| && Ordered(s) && IdsIdentify(s) && y in s[..n]
    ensures Precedes(y, s[n]) || y == s[n]
  {
    hide Precedes;
    NotBefore(s, n, y);
    PrecedesTotal(y, s[n]);
  }

  lemma FairNext(r: Rules, s: seq<Item>, c: seq<Item>, x: Item, takes: bool)
    requires Fair(r, s, c) && Ascending(c)
    requires takes <==> Eligible(r, x) && forall y :: y in c ==> !Conflict(r, y, x)
    requires AtEnd(s, x)
    ensures Fair(r, s + [x], if takes then c + [x] else c) && Ascending(if takes then c + [x] else c)
  {
    hide Precedes, Eligible, Conflict, Blocked;
    var d := if takes then c + [x] else c;
    ConflictSelf(r, x);
    forall y | y in s ensures y in d <==> Eligible(r, y) && !Blocked(r, d, y) { FairBefore(r, s, c, x, takes, y); }
    FairLast(r, s, c, x, takes);
  }

  lemma FairBefore(r: Rules, s: seq<Item>, c: seq<Item>, x: Item, takes: bool, y: Item)
    requires Fair(r, s, c) && AtEnd(s, x) && y in s
    requires takes <==> Eligible(r, x) && forall y :: y in c ==> !Conflict(r, y, x)
    ensures var d := if takes then c + [x] else c; y in d <==> Eligible(r, y) && !Blocked(r, d, y)
  {
    hide Precedes, Eligible, Conflict;
    if takes {
      BlockedByMore(r, c, x, y);
      ConflictSelf(r, x);
    }
  }

  lemma ConflictSelf(r: Rules, x: Item)
    ensures Conflict(r, x, x) && !Precedes(x, x)
  {
    PrecedesTotal(x, x);
  }

  lemma FairLast(r: Rules, s: seq<Item>, c: seq<Item>, x: Item, takes: bool)
    requires Fair(r, s, c)
    requires takes <==> Eligible(r, x) && forall y :: y in c ==> !Conflict(r, y, x)
    requires AtEnd(s, x)
    ensures var d := if takes then c + [x] else c; x in d <==> Eligible(r, x) && !Blocked(r, d, x)
  {
    hide Precedes, Eligible, Conflict;
    ConflictSelf(r, x);
    if takes {
      BlockedByMore(r, c, x, x);
    } else if Eligible(r, x) && x !in c {
      var y :| y in c && Conflict(r, y, x);
      assert Precedes(y, x);
      assert Blocked(r, c, x);
    }
  }

  lemma SortedSame(items: seq<Item>)
    ensures var s := SortedTo(items, |items|); Ordered(s) && (forall x :: x in s <==> x in items)
    ensures IdsIdentify(items) ==> IdsIdentify(SortedTo(items, |items|))
  {
    hide SortedTo, Precedes;
    var s := SortedTo(items, |items|);
    SortedIsOrdered(items, |items|);
    assert items[..|items|] == items;
    forall x ensures x in s <==> x in items { assert x in s <==> x in multiset(s); assert x in items <==> x in multiset(items); }
  }

  /** Count follows the rule: each zap counts exactly when eligible and not blocked by an earlier one that counts. */
  lemma CountIsFair(r: Rules, items: seq<Item>)
    requires IdsIdentify(items)
    ensures Fair(r, items, Counted(r, items)) && Ascending(Counted(r, items))
  {
    hide SortedTo, Greedy, Ordered, IdsIdentify;
    var s := SortedTo(items, |items|);
    SortedSame(items);
    GreedyFair(r, s, |s|);
    assert s[..|s|] == s;
  }

  /** No zap counts that is not vouched for, is to a connection key, names no note, is no zap bill, lacks a time or is deleted. */
  lemma NeverCounted(r: Rules, items: seq<Item>, x: Item)
    requires IdsIdentify(items) && x in Counted(r, items)
    ensures x in items && x.countable && !x.zap.toConnectionKey && (x.zap.e != "" || x.zap.a != "") && x.zap.zapBill
    ensures x.zap.issuedAt.Some? && x.zap.expiresAt.Some? && x.zap.id !in r.deleted
    ensures x.zap.expiresAt.value == 0 || x.zap.issuedAt.value <= x.zap.expiresAt.value
  {
    hide Counted, IdsIdentify, LongEnough;
    CountIsFair(r, items);
  }

  /** An eligible zap that does not count is kept out by one dated earlier, or alike with a lower id, that does. */
  lemma KeptOutByEarlier(r: Rules, items: seq<Item>, x: Item)
    requires IdsIdentify(items) && x in items && Countable(x, r.minLife) && x.zap.id !in r.deleted && x !in Counted(r, items)
    ensures exists y ::
      && y in Counted(r, items)
      && (y.zap.createdAt < x.zap.createdAt || (y.zap.createdAt == x.zap.createdAt && Less(y.zap.id, x.zap.id)))
      && (y.zap.w == x.zap.w || (r.collapse && {y.zap.sender, y.zap.recipient} == {x.zap.sender, x.zap.recipient}))
  {
    hide Counted, IdsIdentify, Countable, Less, Pair;
    CountIsFair(r, items);
    var c := Counted(r, items);
    assert Blocked(r, c, x);
    var y :| y in c && Precedes(y, x) && Conflict(r, y, x);
    PairEitherWay(y, x);
  }

  /** No token, and with collapse no pair, counts twice. */
  lemma NothingTwice(r: Rules, items: seq<Item>, i: nat, j: nat)
    requires IdsIdentify(items) && i < j < |Counted(r, items)|
    ensures var c := Counted(r, items); c[i].zap.w != c[j].zap.w && (r.collapse ==> Pair(c[i]) != Pair(c[j]))
  {
    hide Counted, IdsIdentify, Precedes, Pair, Eligible;
    CountIsFair(r, items);
    var c := Counted(r, items);
    assert c[i] in c && c[j] in c && Precedes(c[i], c[j]);
    assert !Blocked(r, c, c[j]);
  }

  // ------------------------------------------------------------- independence

  /** The rule decides: what follows it is one thing. */
  lemma {:induction false} FairIsOne(r: Rules, s: seq<Item>, c: seq<Item>, d: seq<Item>, n: nat)
    requires n <= |s| && Ordered(s) && Fair(r, s, c) && Fair(r, s, d)
    ensures forall i :: 0 <= i < n ==> (s[i] in c <==> s[i] in d)
  {
    hide Precedes, Conflict, Eligible, Fair;
    if n > 0 {
      FairIsOne(r, s, c, d, n - 1);
      BlockedAlike(r, s, c, d, n - 1);
      BlockedAlike(r, s, d, c, n - 1);
      assert s[n - 1] in s;
      FairAt(r, s, c, s[n - 1]);
      FairAt(r, s, d, s[n - 1]);
    }
  }

  lemma FairAt(r: Rules, s: seq<Item>, c: seq<Item>, x: Item)
    requires Fair(r, s, c) && x in s
    ensures x in c <==> Eligible(r, x) && !Blocked(r, c, x)
  {
  }

  lemma BlockedAlike(r: Rules, s: seq<Item>, c: seq<Item>, d: seq<Item>, n: nat)
    requires n < |s| && Ordered(s) && Fair(r, s, c) && forall i :: 0 <= i < n ==> (s[i] in c <==> s[i] in d)
    ensures Blocked(r, c, s[n]) ==> Blocked(r, d, s[n])
  {
    hide Precedes, Conflict, Eligible;
    if Blocked(r, c, s[n]) {
      var y :| y in c && Precedes(y, s[n]) && Conflict(r, y, s[n]);
      var k :| 0 <= k < |s| && s[k] == y;
      ConflictSelf(r, y);
      assert k < n;
    }
  }

  /** What ascends is determined by its members. */
  lemma {:induction false} AscendingIsOne(c: seq<Item>, d: seq<Item>)
    requires Ascending(c) && Ascending(d) && forall x :: x in c <==> x in d
    ensures c == d
  {
    hide Precedes;
    SameEmpty(c, d);
    if c != [] {
      var m, n := |c| - 1, |d| - 1;
      SameLast(c, d);
      assert c == c[..m] + [c[m]] && d == d[..n] + [d[n]];
      ShorterSame(c, d);
      ShorterSame(d, c);
      AscendingIsOne(Front(c), Front(d));
    }
  }

  lemma SameEmpty(c: seq<Item>, d: seq<Item>)
    requires forall x :: x in c <==> x in d
    ensures c == [] <==> d == []
  {
    if c != [] { assert c[0] in c; }
    if d != [] { assert d[0] in d; }
  }

  function Front(c: seq<Item>): seq<Item>
    requires c != []
  {
    c[..|c| - 1]
  }

  lemma SameLast(c: seq<Item>, d: seq<Item>)
    requires Ascending(c) && Ascending(d) && c != [] && d != [] && forall x :: x in c <==> x in d
    ensures c[|c| - 1] == d[|d| - 1]
  {
    hide Precedes;
    var m, n := |c| - 1, |d| - 1;
    assert c[m] in d && d[n] in c;
    var i :| 0 <= i < |d| && d[i] == c[m];
    var k :| 0 <= k < |c| && c[k] == d[n];
    PrecedesTotal(c[m], d[n]);
  }

  lemma ShorterSame(c: seq<Item>, d: seq<Item>)
    requires Ascending(c) && Ascending(d) && c != [] && d != [] && c[|c| - 1] == d[|d| - 1] && forall x :: x in c ==> x in d
    ensures forall x :: x in Front(c) ==> x in Front(d)
  {
    hide Precedes;
    var m, n := |c| - 1, |d| - 1;
    forall x | x in Front(c) ensures x in Front(d) {
      var i :| 0 <= i < m && c[i] == x;
      PrecedesTotal(x, x);
      assert x in c;
      var k :| 0 <= k < |d| && d[k] == x;
      assert Precedes(c[i], c[m]);
    }
  }

  /** Neither order nor repeated copies change what counts. */
  lemma CountIsASetFunction(r: Rules, items: seq<Item>, jtems: seq<Item>)
    requires IdsIdentify(items) && forall x :: x in items <==> x in jtems
    ensures Counted(r, items) == Counted(r, jtems)
  {
    hide Counted, SortedTo, Ordered;
    var c, d, s := Counted(r, items), Counted(r, jtems), SortedTo(items, |items|);
    CountIsFair(r, items);
    CountIsFair(r, jtems);
    SortedSame(items);
    FairOver(r, items, s, c);
    FairOver(r, jtems, s, d);
    FairIsOne(r, s, c, d, |s|);
    forall x ensures x in c <==> x in d {
      if x in s { var i :| 0 <= i < |s| && s[i] == x; }
    }
    AscendingIsOne(c, d);
  }

  lemma FairOver(r: Rules, s: seq<Item>, t: seq<Item>, c: seq<Item>)
    requires Fair(r, s, c) && forall x :: x in s <==> x in t
    ensures Fair(r, t, c)
  {
    hide Blocked, Eligible;
  }

  // ----------------------------------------------------------------- the code

  /** The items: each zap with its verdict, nil ones left out. */
  function ItemsTo(zaps: seq<Option<Zap>>, verdicts: seq<bool>, n: nat): seq<Item>
    requires n <= |zaps|
  {
    if n == 0 then []
    else
      ItemsTo(zaps, verdicts, n - 1)
      + (if n - 1 < |verdicts| && zaps[n - 1].Some? then [Item(zaps[n - 1].value, verdicts[n - 1])] else [])
  }

  /** The items are the zaps given that have a verdict, each with its own. */
  lemma {:induction false} ItemsAre(zaps: seq<Option<Zap>>, verdicts: seq<bool>, n: nat, x: Item)
    requires n <= |zaps|
    ensures x in ItemsTo(zaps, verdicts, n) <==> exists i :: 0 <= i < n && i < |verdicts| && zaps[i] == Some(x.zap) && verdicts[i] == x.countable
  {
    if n > 0 { ItemsAre(zaps, verdicts, n - 1, x); }
  }

  method Sort(items: seq<Item>) returns (s: seq<Item>)
    ensures s == SortedTo(items, |items|)
  {
    hide Insert;
    s := [];
    for i := 0 to |items|
      invariant s == SortedTo(items, i)
    {
      s := Insert(s, items[i]);
    }
  }

  /** Count. */
  method Count(zaps: seq<Option<Zap>>, verdicts: seq<bool>, r: Rules) returns (total: U64, counted: seq<string>)
    ensures var c := Counted(r, ItemsTo(zaps, verdicts, |zaps|));
      counted == Ids(c) && total == Wrap64(Sum(c)) && (Sum(c) <= MAX_U64 ==> total == Sum(c))
  {
    hide SortedTo, Pair, Countable, Sum;
    var items: seq<Item> := [];
    for i := 0 to |zaps|
      invariant items == ItemsTo(zaps, verdicts, i)
    {
      if i < |verdicts| && zaps[i].Some? { items := items + [Item(zaps[i].value, verdicts[i])]; }
    }
    items := Sort(items);
    var seenW: set<string>, seenPair: set<(string, string)> := {}, {};
    total, counted := 0, [];
    ghost var c: seq<Item> := [];
    for i := 0 to |items|
      invariant Greedy(r, items, i) == Tally(seenW, seenPair, total, c) && counted == Ids(c)
    {
      var x := items[i];
      if !Countable(x, r.minLife) || x.zap.id in r.deleted || x.zap.w in seenW { continue; }
      var pair := Pair(x);
      if r.collapse && pair in seenPair { continue; }
      seenW, seenPair := seenW + {x.zap.w}, seenPair + {pair};
      total := Wrap64(total + x.zap.amount);
      counted := counted + [x.zap.id];
      c := c + [x];
    }
    GreedyKeeps(r, items, |items|);
  }
}
