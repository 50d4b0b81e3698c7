/** Totals per chain (nipCP/balance.go:50-64). */
module PocketBalance {
  import opened Words
  import opened PocketEntry
  import opened PocketResolve

  /** A sum over names, in whatever order. */
  ghost function Sum(ws: set<string>, f: string -> nat): nat
  {
    if ws == {} then 0
    else
      var w :| w in ws;
      f(w) + Sum(ws - {w}, f)
  }

  /** The order a map is walked in does not matter. */
  lemma {:induction false} SumTakeOut(ws: set<string>, w: string, f: string -> nat)
    requires w in ws
    ensures Sum(ws, f) == f(w) + Sum(ws - {w}, f)
  {
    var x :| x in ws && Sum(ws, f) == f(x) + Sum(ws - {x}, f);
    if x != w {
      SumTakeOut(ws - {x}, w, f);
      SumTakeOut(ws - {w}, x, f);
      assert ws - {x} - {w} == ws - {w} - {x};
    }
  }

  lemma {:induction false} SumSplit(ws: set<string>, part: set<string>, f: string -> nat)
    requires part <= ws
    ensures Sum(ws, f) == Sum(part, f) + Sum(ws - part, f)
    decreases part
  {
    if part == {} {
      assert ws - part == ws;
    } else {
      var w :| w in part;
      SumTakeOut(ws, w, f);
      SumTakeOut(part, w, f);
      SumSplit(ws - {w}, part - {w}, f);
      assert ws - {w} - (part - {w}) == ws - part;
    }
  }

  lemma {:induction false} SumAgree(ws: set<string>, f: string -> nat, g: string -> nat)
    requires forall w :: w in ws ==> f(w) == g(w)
    ensures Sum(ws, f) == Sum(ws, g)
  {
    if ws != {} {
      var w :| w in ws;
      SumTakeOut(ws, w, f);
      SumTakeOut(ws, w, g);
      SumAgree(ws - {w}, f, g);
    }
  }

  lemma {:induction false} SumNothing(ws: set<string>, f: string -> nat)
    requires forall w :: w in ws ==> f(w) == 0
    ensures Sum(ws, f) == 0
  {
    if ws != {} {
      var w :| w in ws;
      SumTakeOut(ws, w, f);
      SumNothing(ws - {w}, f);
    }
  }

  /** What an entry adds to a chain's total. */
  function LiveOn(e: Entry, chain: string): nat
  {
    if e.state == LIVE && e.chain == chain then e.amount else 0
  }

  /** What each name adds to a chain's total. */
  ghost function Shares(winners: map<string, Entry>, chain: string): string -> nat
  {
    w => if w in winners then LiveOn(winners[w], chain) else 0
  }

  function Capped(n: nat): U64 { if n > MAX_U64 then MAX_U64 else n }

  ghost predicate LiveAmong(winners: map<string, Entry>, ws: set<string>, chain: string)
  {
    exists w :: w in ws && w in winners && winners[w].state == LIVE && winners[w].chain == chain
  }

  /** out holds the totals of the entries named in ws. */
  ghost predicate Totals(winners: map<string, Entry>, ws: set<string>, out: map<string, U64>)
  {
    forall chain: string ::
      && (chain in out <==> LiveAmong(winners, ws, chain))
      && (chain in out ==> out[chain] == Capped(Sum(ws, Shares(winners, chain))))
  }

  /** Balance: capped sums, a chain listed when something on it is live. */
  method Balance(winners: map<string, Entry>) returns (out: map<string, U64>)
    ensures forall chain: string ::
      && (chain in out <==> LiveAmong(winners, winners.Keys, chain))
      && (chain in out ==> out[chain] == Capped(Sum(winners.Keys, Shares(winners, chain))))
  {
    hide LiveAmong, Sum, Shares;
    out := map[];
    var left := winners.Keys;
    ghost var seen: set<string> := {};
    NothingYet(winners);
    while left != {}
      invariant seen + left == winners.Keys && seen !! left
      invariant Totals(winners, seen, out)
      decreases left
    {
      var w :| w in left;
      var e := winners[w];
      ghost var before := out;
      if e.state == LIVE {
        var sum := (if e.chain in out then out[e.chain] else 0) + e.amount;
        if sum > MAX_U64 { sum := MAX_U64; }
        out := out[e.chain := sum];
      }
      OneMore(winners, seen, w, before, out);
      left, seen := left - {w}, seen + {w};
    }
    assert seen == winners.Keys;
  }

  lemma NothingYet(winners: map<string, Entry>)
    ensures Totals(winners, {}, map[])
  {
  }

  lemma OneMore(winners: map<string, Entry>, seen: set<string>, w: string, out: map<string, U64>, out': map<string, U64>)
    requires w in winners && w !in seen && Totals(winners, seen, out)
    requires var e := winners[w];
      out' == if e.state == LIVE then out[e.chain := Capped((if e.chain in out then out[e.chain] else 0) + e.amount)] else out
    ensures Totals(winners, seen + {w}, out')
  {
    forall chain: string
      ensures chain in out' <==> LiveAmong(winners, seen + {w}, chain)
      ensures chain in out' ==> out'[chain] == Capped(Sum(seen + {w}, Shares(winners, chain)))
    {
      OneMoreOn(winners, seen, w, chain);
    }
  }

  lemma OneMoreOn(winners: map<string, Entry>, seen: set<string>, w: string, chain: string)
    requires w in winners && w !in seen
    ensures Sum(seen + {w}, Shares(winners, chain)) == Sum(seen, Shares(winners, chain)) + LiveOn(winners[w], chain)
    ensures LiveAmong(winners, seen + {w}, chain) <==>
      LiveAmong(winners, seen, chain) || (winners[w].state == LIVE && winners[w].chain == chain)
    ensures !LiveAmong(winners, seen, chain) ==> Sum(seen, Shares(winners, chain)) == 0
  {
    hide Sum;
    SumTakeOut(seen + {w}, w, Shares(winners, chain));
    assert seen + {w} - {w} == seen;
    if !LiveAmong(winners, seen, chain) { SumNothing(seen, Shares(winners, chain)); }
  }

  // ------------------------------------------------------------ over a log

  /** What the current entry of w adds. */
  ghost function Held(all: seq<Entry>, chain: string): string -> nat
  {
    w => var r := Current(all, w); if r.Some? then LiveOn(r.value, chain) else 0
  }

  /** The w with a current entry. */
  ghost function Holders(all: seq<Entry>): set<string> { set e | e in all && e.Recognised() :: e.w }

  lemma HoldersCurrent(all: seq<Entry>, w: string)
    ensures w in Holders(all) <==> Current(all, w).Some?
  {
    hide Current, Outranks, Known;
    CurrentBest(all, w);
    if Current(all, w).None? {
      forall e | e in all ensures !Contends(e, w) {}
    }
  }

  /** A log's true total on a chain. */
  ghost function Total(all: seq<Entry>, chain: string): nat { Sum(Holders(all), Held(all, chain)) }

  /** The balance of a resolved log: its total, capped. */
  lemma BalanceOfResolved(all: seq<Entry>, winners: map<string, Entry>, chain: string)
    requires forall w :: w in winners <==> Current(all, w).Some?
    requires forall w :: w in winners ==> winners[w] == Current(all, w).value
    ensures Sum(winners.Keys, Shares(winners, chain)) == Total(all, chain)
  {
    hide Current, Sum, Holders;
    forall w: string ensures w in winners.Keys <==> w in Holders(all) { HoldersCurrent(all, w); }
    assert winners.Keys == Holders(all);
    SumAgree(winners.Keys, Shares(winners, chain), Held(all, chain));
  }

  /** Resolve, then Balance. */
  method PocketTotals(all: seq<Entry>) returns (out: map<string, U64>)
    ensures forall chain: string :: (if chain in out then out[chain] else 0) == Capped(Total(all, chain))
  {
    hide Current, Sum, Total, Disputed;
    var winners, conflicts := Resolve(all);
    out := Balance(winners);
    forall chain: string ensures (if chain in out then out[chain] else 0) == Capped(Total(all, chain)) {
      BalanceOfResolved(all, winners, chain);
      Unlisted(winners, chain);
    }
  }

  lemma Unlisted(winners: map<string, Entry>, chain: string)
    ensures !LiveAmong(winners, winners.Keys, chain) ==> Sum(winners.Keys, Shares(winners, chain)) == 0
  {
    hide Sum;
    if !LiveAmong(winners, winners.Keys, chain) { SumNothing(winners.Keys, Shares(winners, chain)); }
  }

  /** A pocket of one entry holds its amount, when it is live. */
  lemma TotalOfOne(e: Entry, chain: string)
    requires e.Recognised()
    ensures Total([e], chain) == if e.state == "live" && e.chain == chain then e.amount else 0
  {
    hide Known, Sum;
    var all := [e];
    assert Winner(all, 0, e.w) == None && all[0] == e;
    assert Holders(all) == {e.w} by { assert e in all; }
    SumTakeOut({e.w}, e.w, Held(all, chain));
    SumNothing({e.w} - {e.w}, Held(all, chain));
  }
}
