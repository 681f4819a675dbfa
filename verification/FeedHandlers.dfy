/** Market data handlers that rewrite the book in place: level reconciliation and snapshot rebuild. */
module FeedHandlers {
  import opened Types
  import opened Queue
  import opened Orders
  import opened BookState
  import opened BookInvariant
  import opened Reconcile
  import opened Feed
  import opened OrderBooks
  import opened TradeCredits
  import Rebuild

  // ----- reconciling a level

  method LevelExists(s: Side, q: seq<Resting>, price: Price) returns (found: bool)
    requires WellFormed(s, q)
    ensures found <==> RestsAt(q, price)
  {
    ViewMember(q);
    ViewIdsAre(s, q);
    hide View, WellFormed;
    var i := 0;
    while i < |q|
      invariant 0 <= i <= |q| && forall j :: 0 <= j < i ==> q[j].price != price
    {
      if q[i].price == price {
        assert q[i] in q;
        assert q[i].id in View(q) && View(q)[q[i].id] == q[i];
        return true;
      }
      i := i + 1;
    }
    forall id | id in View(q) ensures View(q)[id].price != price {
      assert View(q)[id] in q;
    }
    found := false;
  }

  lemma ViewIdsAre(s: Side, q: seq<Resting>)
    requires WellFormed(s, q)
    ensures forall id :: id in View(q) ==> View(q)[id].id == id
  {
  }

  /** Chooses every reduction before any is applied, walking the level from its back. */
  method ChooseReductions(q: seq<Resting>, p: Price, own: set<nat>, diff: nat) returns (reds: seq<Reduction>)
    ensures reds == Reductions(q, p, own, diff)
  {
    reds := [];
    var i, left: nat := |q|, diff;
    assert q[..|q|] == q;
    while i > 0 && left > 0
      invariant 0 <= i <= |q|
      invariant reds + Reductions(q[..i], p, own, left) == Reductions(q, p, own, diff)
    {
      i := i - 1;
      var x := q[i];
      assert q[..i + 1][..i] == q[..i];
      if x.price == p && x.id !in own {
        var r: nat := Min(left, x.qty);
        reds := reds + [Reduction(x.id, x.qty - r)];
        left := left - r;
      }
    }
  }

  method ApplyAllReductions(book: OrderBook, side: Side, reds: seq<Reduction>, seqNum: nat)
    modifies book
    ensures book.Now() == ApplyReductions(old(book.Now()), side, reds, seqNum)
  {
    hide View, L3Resize;
    assert reds[0..] == reds;
    for i := 0 to |reds|
      invariant ApplyReductions(book.Now(), side, reds[i..], seqNum) == ApplyReductions(old(book.Now()), side, reds, seqNum)
    {
      assert reds[i..][1..] == reds[i + 1..];
      var there := FindResting(book.On(side), reds[i].id);
      if there.Some? {
        var _ := book.ResizeResting(side, reds[i].id, reds[i].newQty, seqNum);
      }
    }
  }

  /** What is left for a level to show once the trades an update has not seen are taken off. */
  method OffsetTarget(table: CreditTable, side: Side, price: Price, target: nat, time: nat) returns (t: nat)
    modifies table
    ensures table.credits == TakeTradedQty(old(table.credits), (side, price), time).0
    ensures t == Offset(target, TakeTradedQty(old(table.credits), (side, price), time).1)
  {
    var unreflected := table.TakeQty((side, price), time);
    t := target;
    if unreflected > 0 {
      t := if target > unreflected then target - unreflected else 0;
    }
  }

  /** Brings an existing level to its reported quantity. */
  method ReconcilePhantomQty(book: OrderBook, table: CreditTable, side: Side, price: Price, target: nat, time: nat,
                             id: nat, priority: nat, seqNum: nat)
    requires Inv(book.Now(), {}) && Unused(book.Now(), id) && price != NULL_PRICE && !book.Now().Refuses(seqNum)
    modifies book, table
    ensures var (credits, unreflected) := TakeTradedQty(old(table.credits), (side, price), time);
            if HasLevel(old(book.Now()), side, price) then
              && table.credits == credits
              && book.Now() == ReconcileLevel(old(book.Now()), side, price, Offset(target, unreflected), id, priority, seqNum)
              && Reconciled(old(book.Now()), book.Now(), side, price, Offset(target, unreflected), id, priority)
            else book.Now() == old(book.Now()) && table.credits == old(table.credits)
  {
    hide View, Inv, Reconciled, L3Add, ApplyReductions, Reductions, TakeTradedQty;
    ghost var s := book.Now();
    SideIsOk(s, side);
    hide RestsAt;
    var level := LevelExists(side, book.On(side), price);
    if !level {
      return;
    }
    var want := OffsetTarget(table, side, price, target, time);
    ReconcileExact(s, side, price, want, id, priority, seqNum);
    var md := if price in book.md then book.md[price] else 0;
    if want > md {
      var _ := book.AddResting(side, Resting(id, price, Min0(want - md), priority), seqNum);
    } else if want < md {
      var reds := ChooseReductions(book.On(side), price, book.orders, Min0(md - want));
      ApplyAllReductions(book, side, reds, seqNum);
    }
  }

  // ----- rebuilding from a snapshot

  datatype Saved = Saved(side: Side, x: Resting)

  function Collected(pool: map<nat, Order>, ids: seq<nat>): seq<Saved> {
    if ids == [] then []
    else
      var rest := Collected(pool, ids[1..]);
      if ids[0] in pool && pool[ids[0]].leaves > 0 then
        var o := pool[ids[0]];
        [Saved(o.side, Resting(ids[0], o.price, o.leaves, o.priority))] + rest
      else rest
  }

  ghost function AddAll(s: State, saved: seq<Saved>): State
    decreases |saved|
  {
    if saved == [] then s else AddAll(L3Add(s, saved[0].side, saved[0].x, 0), saved[1..])
  }

  /** Putting the saved copies back is putting the records back: nothing on the way changes a record. */
  lemma {:induction false} AddAllIsReadd(s: State, ids: seq<nat>)
    requires forall id :: id in ids ==> id in s.orders
    ensures AddAll(s, Collected(s.pool, ids)) == Rebuild.ReaddAll(s, ids)
    decreases |ids|
  {
    hide L3Add;
    if ids != [] {
      assert ids[0] in ids && forall id :: id in ids[1..] ==> id in ids;
      var t := Rebuild.Readd(s, ids[0]);
      if ids[0] in s.pool && s.pool[ids[0]].leaves > 0 {
        Rebuild.ReaddShape(s, ids[0]);
        var saved := Collected(s.pool, ids);
        assert saved[1..] == Collected(s.pool, ids[1..]);
      }
      assert t.pool == s.pool && t.orders == s.orders;
      AddAllIsReadd(t, ids[1..]);
    }
  }

  method SaveOrders(pool: map<nat, Order>, ids: seq<nat>) returns (saved: seq<Saved>)
    ensures saved == Collected(pool, ids)
  {
    saved := [];
    assert ids[0..] == ids;
    for i := 0 to |ids|
      invariant saved + Collected(pool, ids[i..]) == Collected(pool, ids)
    {
      assert ids[i..][1..] == ids[i + 1..];
      if ids[i] in pool && pool[ids[i]].leaves > 0 {
        var o := pool[ids[i]];
        saved := saved + [Saved(o.side, Resting(ids[i], o.price, o.leaves, o.priority))];
      }
    }
  }

  method PutBack(book: OrderBook, saved: seq<Saved>)
    modifies book
    ensures book.Now() == AddAll(old(book.Now()), saved)
  {
    hide L3Add;
    assert saved[0..] == saved;
    for i := 0 to |saved|
      invariant AddAll(book.Now(), saved[i..]) == AddAll(old(book.Now()), saved)
    {
      assert saved[i..][1..] == saved[i + 1..];
      var _ := book.AddResting(saved[i].side, saved[i].x, 0);
    }
  }

  /** Drops the phantom orders; `ids` is the order in which the map yields our own. */
  method ClearMDOrders(book: OrderBook, ids: seq<nat>)
    requires Rebuild.Lists(ids, book.orders)
    modifies book
    ensures book.Now() == Rebuild.ClearMdOrders(old(book.Now()), ids)
    ensures Inv(old(book.Now()), {}) ==> Inv(book.Now(), {})
  {
    hide View, Inv, AddAll, Collected;
    ghost var s := book.Now();
    if Inv(s, {}) {
      Rebuild.ClearMdOrdersKeeps(s, ids);
    }
    var saved := SaveOrders(book.pool, ids);
    book.bids, book.asks, book.md := [], [], map[];
    assert book.Now() == Rebuild.Cleared(s);
    AddAllIsReadd(book.Now(), ids);
    PutBack(book, saved);
  }
}
