/**
  * Comparing a listed range (nip77/reconcile.go:61-79): what walking our items
  * against their ids reports, in closed form.
  */
module IdDiff {
  import opened Items
  import opened Reconcile

  ghost function IdsOf(items: seq<Item>): set<Id> { set x | x in items :: x.id }

  ghost predicate DistinctIds(items: seq<Item>)
  {
    forall i, j :: 0 <= i < j < |items| ==> items[i].id != items[j].id
  }

  /** The ids of the first n items. */
  ghost function IdsTo(items: seq<Item>, n: nat): (s: set<Id>)
    requires n <= |items|
  {
    if n == 0 then {} else IdsTo(items, n - 1) + {items[n - 1].id}
  }

  lemma {:induction false} IdsToFinds(items: seq<Item>, n: nat, id: Id)
    requires n <= |items|
    ensures id in IdsTo(items, n) <==> exists i :: 0 <= i < n && items[i].id == id
  {
    if n > 0 { IdsToFinds(items, n - 1, id); }
  }

  lemma IdsToAll(items: seq<Item>)
    ensures IdsTo(items, |items|) == IdsOf(items)
  {
    hide IdsTo;
    forall id: Id ensures id in IdsTo(items, |items|) <==> id in IdsOf(items) {
      IdsToFinds(items, |items|, id);
    }
  }

  /** The walk after the ids ours: what is left of their ids, and what was reported of ours. */
  ghost predicate Walked(w: Walk, ours: set<Id>, w': Walk)
  {
    && w'.left == w.left - ours
    && w'.reported == w.reported + (ours - w.left)
    && multiset(w'.have) == multiset(w.have) + multiset((ours - w.left) - w.reported)
  }

  lemma WalkedStep(w: Walk, ours: set<Id>, w': Walk, id: Id)
    requires Walked(w, ours, w') && id !in ours
    ensures Walked(w, ours + {id}, WalkStep(true, w', id))
  {
    var before := (ours - w.left) - w.reported;
    var after := (ours + {id} - w.left) - w.reported;
    assert after == if id in w.left || id in w.reported then before else before + {id};
  }

  lemma {:induction false} WalkClosed(items: seq<Item>, n: nat, w: Walk)
    requires n <= |items| && DistinctIds(items)
    ensures Walked(w, IdsTo(items, n), WalkTo(true, items, n, w))
  {
    if n > 0 {
      hide Walked, WalkStep;
      WalkClosed(items, n - 1, w);
      IdsToFinds(items, n - 1, items[n - 1].id);
      WalkedStep(w, IdsTo(items, n - 1), WalkTo(true, items, n - 1, w), items[n - 1].id);
    }
  }

  /**
    * The initiator reports exactly the ids on one side only: ours to have, theirs
    * to need, each once and only if never reported before.
    */
  lemma DiffClosed(items: seq<Item>, ids: set<Id>, t: Tally)
    requires DistinctIds(items)
    ensures var t' := Diff(true, items, ids, t); var ours := IdsOf(items);
      && t'.reported == t.reported + (ours - ids) + (ids - ours)
      && multiset(t'.have) == multiset(t.have) + multiset((ours - ids) - t.reported)
      && t'.need == t.need + multiset((ids - ours) - t.reported)
  {
    hide WalkTo, IdsTo, IdsOf, DistinctIds;
    var w := Walk(ids, t.reported, t.have);
    WalkClosed(items, |items|, w);
    IdsToAll(items);
    var ours := IdsOf(items);
    assert (ids - ours) - (t.reported + (ours - ids)) == (ids - ours) - t.reported;
  }

  /** The same walk of a responder, who tracks nothing. */
  ghost predicate WalkedPast(w: Walk, ours: set<Id>, w': Walk)
  {
    && w'.left == w.left - ours
    && w'.reported == w.reported
    && multiset(w'.have) == multiset(w.have) + multiset(ours - w.left)
  }

  lemma WalkedPastStep(w: Walk, ours: set<Id>, w': Walk, id: Id)
    requires WalkedPast(w, ours, w') && id !in ours
    ensures WalkedPast(w, ours + {id}, WalkStep(false, w', id))
  {
    var before := ours - w.left;
    assert ours + {id} - w.left == if id in w.left then before else before + {id};
  }

  lemma {:induction false} WalkUntracked(items: seq<Item>, n: nat, w: Walk)
    requires n <= |items| && DistinctIds(items)
    ensures WalkedPast(w, IdsTo(items, n), WalkTo(false, items, n, w))
  {
    if n > 0 {
      hide WalkedPast, WalkStep;
      WalkUntracked(items, n - 1, w);
      IdsToFinds(items, n - 1, items[n - 1].id);
      WalkedPastStep(w, IdsTo(items, n - 1), WalkTo(false, items, n - 1, w), items[n - 1].id);
    }
  }

  /** A responder is told the two differences of each list, and remembers nothing. */
  lemma DiffUntracked(items: seq<Item>, ids: set<Id>, t: Tally)
    requires DistinctIds(items)
    ensures var t', ours := Diff(false, items, ids, t), IdsOf(items);
      && t'.reported == t.reported
      && multiset(t'.have) == multiset(t.have) + multiset(ours - ids)
      && t'.need == t.need + multiset(ids - ours)
  {
    hide WalkTo, IdsTo, IdsOf, DistinctIds;
    WalkUntracked(items, |items|, Walk(ids, t.reported, t.have));
    IdsToAll(items);
  }
}
