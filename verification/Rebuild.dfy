/**
 Rebuilding from a snapshot: the book is cleared without telling anyone, the index is reset, and the
 simulator's own orders are put back from their records, in whatever order the map yields them.
 */
module Rebuild {
  import opened Types
  import opened Queue
  import opened BookState
  import opened BookInvariant
  import opened BookOps

  ghost function Cleared(s: State): State {
    s.(bids := [], asks := [], md := map[])
  }

  ghost function Readd(s: State, id: nat): State {
    if id in s.pool && s.pool[id].leaves > 0 then
      var o := s.pool[id];
      L3Add(s, o.side, Resting(id, o.price, o.leaves, o.priority), 0)
    else s
  }

  ghost function ReaddAll(s: State, ids: seq<nat>): State
    decreases |ids|
  {
    if ids == [] then s else ReaddAll(Readd(s, ids[0]), ids[1..])
  }

  /** Phantom orders go; own orders stay, with their price, leaves and priority. */
  ghost function ClearMdOrders(s: State, ids: seq<nat>): State {
    ReaddAll(Cleared(s), ids)
  }

  ghost predicate Lists(ids: seq<nat>, ex: set<nat>) {
    && (forall id :: id in ids <==> id in ex)
    && (forall i, j :: 0 <= i < j < |ids| ==> ids[i] != ids[j])
  }

  /** Everything in the queue is an own order resting as it did. */
  ghost predicate BackIn(orig: State, q: seq<Resting>, was: seq<Resting>) {
    forall id :: id in View(q) ==> id in View(was) && id in orig.orders && View(q)[id] == View(was)[id]
  }

  /** Part way through: what is back rests as it did, and the rest is in hand. */
  ghost predicate PartWay(orig: State, s: State, ex: set<nat>) {
    && Inv(s, ex) && ex <= s.orders && SameOwners(orig, s) && s.reports == orig.reports && s.lastSeq == orig.lastSeq
    && BackIn(orig, s.bids, orig.bids) && BackIn(orig, s.asks, orig.asks)
    && (forall id :: id in ex ==> id !in View(s.bids) && id !in View(s.asks))
  }

  lemma ClearedPartWay(s: State)
    requires Inv(s, {})
    ensures PartWay(s, Cleared(s), s.orders)
  {
    hide PhantomAt, RestsAsRecorded, WellFormed;
    var t := Cleared(s);
    EmptyBook(t);
    SameLookups(s, t);
    hide LookupsOk, View;
    assert IndexOk(t) by {
      forall p: Price
        ensures t.MdLevelQty(p) == PhantomAt(t.bids, p, t.orders) + PhantomAt(t.asks, p, t.orders)
      {
        EmptyPhantom(p, t.orders);
      }
    }
    hide IndexOk;
    assert s.orders + s.orders == s.orders;
  }

  lemma EmptyBook(t: State)
    requires t.bids == [] && t.asks == []
    ensures QueuesOk(t) && Uncrossed(t) && View(t.bids) == map[] && View(t.asks) == map[]
    ensures forall side: Side :: View(t.On(side)) == map[]
  {
  }

  lemma PartFits(orig: State, s: State, ex: set<nat>, id: nat)
    requires Inv(orig, {}) && PartWay(orig, s, ex) && id in ex
    ensures RestsAsRecorded(orig, id) && Restable(s, id)
  {
    hide View, Distinct, Sorted, PhantomAt, IndexOk, LookupsOk;
    assert RestsAsRecorded(orig, id);
    var side, p := s.pool[id].side, s.pool[id].price;
    forall j | j in View(s.On(Opposite(side)))
      ensures !IsPriceBetterOrEqual(Opposite(side), View(s.On(Opposite(side)))[j].price, p)
    {
      assert (s.On(Opposite(side)) == s.asks && orig.On(Opposite(side)) == orig.asks)
          || (s.On(Opposite(side)) == s.bids && orig.On(Opposite(side)) == orig.bids);
      assert View(s.On(Opposite(side)))[j] == View(orig.On(Opposite(side)))[j];
      if side == Buy {
        assert View(orig.bids)[id].price < View(orig.asks)[j].price;
      } else {
        assert View(orig.bids)[j].price < View(orig.asks)[id].price;
      }
    }
  }

  lemma ReaddShape(s: State, id: nat)
    requires id in s.pool && id in s.orders && s.pool[id].leaves > 0
    ensures var o := s.pool[id];
            Readd(s, id) == s.WithSide(o.side, Insert(o.side, s.On(o.side), Resting(id, o.price, o.leaves, o.priority)))
  {
    hide View, Insert;
  }

  lemma ReaddInv(s: State, ex: set<nat>, id: nat)
    requires Inv(s, ex) && ex <= s.orders && id in ex && id !in View(s.bids) && id !in View(s.asks)
    requires Restable(s, id)
    ensures Inv(Readd(s, id), ex - {id})
    ensures var o := s.pool[id];
            View(Readd(s, id).On(o.side)) == View(s.On(o.side))[id := Resting(id, o.price, o.leaves, o.priority)]
  {
    hide View, Distinct, Sorted, AllReal, PhantomAt, LookupsOk, IndexOk, Readd, Insert, Uncrossed, QueuesOk;
    var o, t := s.pool[id], Readd(s, id);
    var x := Resting(id, o.price, o.leaves, o.priority);
    ReaddShape(s, id);
    assert s.orders + {id} == s.orders && s.pool == s.pool[id := o] && s.pool.Keys + {id} == s.pool.Keys;
    InsertOthers(s, t, o.side, x);
    InsertOwnPhantom(s, t, o.side, x);
    SameLookups(s, t);
    hide OthersUntouched, FitsBeside;
    assert RestsAsRecorded(t, id);
    hide RestsAsRecorded;
    OwnRestsKeeps(s, t, ex, id);
  }

  lemma ReaddStep(orig: State, s: State, ex: set<nat>, id: nat)
    requires Inv(orig, {}) && PartWay(orig, s, ex) && id in ex
    ensures PartWay(orig, Readd(s, id), ex - {id})
  {
    hide View, Inv, Readd, Insert, FitsBeside;
    PartFits(orig, s, ex, id);
    ReaddInv(s, ex, id);
    var o, t := s.pool[id], Readd(s, id);
    ReaddShape(s, id);
    hide RestsAsRecorded;
    ReaddViews(orig, s, t, ex, id, Resting(id, o.price, o.leaves, o.priority));
  }

  lemma SameLookups(s: State, t: State)
    requires LookupsOk(s) && SameOwners(s, t)
    ensures LookupsOk(t)
  {
  }

  lemma ReaddViews(orig: State, s: State, t: State, ex: set<nat>, id: nat, x: Resting)
    requires id in s.pool && id in ex && ex <= orig.orders
    requires var side := s.pool[id].side; id in View(orig.On(side)) && View(orig.On(side))[id] == x
    requires BackIn(orig, s.bids, orig.bids) && BackIn(orig, s.asks, orig.asks)
    requires forall j :: j in ex ==> j !in View(s.bids) && j !in View(s.asks)
    requires View(t.On(s.pool[id].side)) == View(s.On(s.pool[id].side))[id := x]
    requires t.On(Opposite(s.pool[id].side)) == s.On(Opposite(s.pool[id].side))
    ensures BackIn(orig, t.bids, orig.bids) && BackIn(orig, t.asks, orig.asks)
    ensures forall j :: j in ex - {id} ==> j !in View(t.bids) && j !in View(t.asks)
  {
    hide View;
    if s.pool[id].side == Buy {
      assert View(t.bids) == View(s.bids)[id := x] && t.asks == s.asks;
    } else {
      assert View(t.asks) == View(s.asks)[id := x] && t.bids == s.bids;
    }
  }

  lemma {:induction false} ReaddAllKeeps(orig: State, s: State, ids: seq<nat>, ex: set<nat>)
    requires Inv(orig, {}) && PartWay(orig, s, ex) && Lists(ids, ex)
    ensures PartWay(orig, ReaddAll(s, ids), {})
    decreases |ids|
  {
    hide Inv, PartWay, View;
    if ids == [] {
      assert ex == {};
    } else {
      ReaddStep(orig, s, ex, ids[0]);
      var rest := ids[1..];
      forall id ensures id in rest <==> id in ex - {ids[0]} {
        if id in rest {
          var i :| 0 <= i < |rest| && rest[i] == id;
          assert ids[i + 1] == id;
        }
        if id in ex - {ids[0]} {
          var i :| 0 <= i < |ids| && ids[i] == id;
          assert rest[i - 1] == id;
        }
      }
      ReaddAllKeeps(orig, Readd(s, ids[0]), rest, ex - {ids[0]});
    }
  }

  /**
   Whatever the order of re-insertion, the rebuilt book keeps the invariant; it holds exactly the
   own orders, each resting exactly as before, and no phantom quantity at all.
   */
  lemma ClearMdOrdersKeeps(s: State, ids: seq<nat>)
    requires Inv(s, {}) && Lists(ids, s.orders)
    ensures var t := ClearMdOrders(s, ids);
            && Inv(t, {}) && SameOwners(s, t) && t.reports == s.reports && t.lastSeq == s.lastSeq
            && (forall id :: id in s.orders ==> RestsAsRecorded(t, id))
            && BackIn(s, t.bids, s.bids) && BackIn(s, t.asks, s.asks)
  {
    hide View, PhantomAt, IndexOk, LookupsOk, Uncrossed, QueuesOk, RestsAsRecorded;
    ClearedPartWay(s);
    ReaddAllKeeps(s, Cleared(s), ids, s.orders);
    hide ReaddAll;
  }
}
