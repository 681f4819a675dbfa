/**
 The order book object: the two sides of the L3 book it inherits, its pool, its lookup maps and its
 phantom index, each updated in place in the order the simulator updates them.
 */
module OrderBooks {
  import opened Types
  import opened Queue
  import opened Orders
  import opened BookState
  import opened BookOps

  /** Scans a side for an order. */
  method FindResting(q: seq<Resting>, id: nat) returns (r: Option<Resting>)
    ensures r.Some? <==> id in View(q)
    ensures r.Some? ==> r.value == View(q)[id]
  {
    var i := 0;
    while i < |q|
      invariant 0 <= i <= |q|
      invariant id in View(q) <==> id in View(q[i..])
      invariant id in View(q) ==> View(q)[id] == View(q[i..])[id]
    {
      assert q[i..][1..] == q[i + 1..];
      if q[i].id == id {
        return Some(q[i]);
      }
      i := i + 1;
    }
    r := None;
  }

  class OrderBook {
    var bids: seq<Resting>
    var asks: seq<Resting>
    var lastSeq: nat
    var pool: map<nat, Order>
    var orders: set<nat>
    var byClient: map<string, nat>
    var byOrderId: map<string, nat>
    var md: map<Price, int>
    var reports: seq<Report>

    ghost function Now(): State
      reads this
    {
      State(bids, asks, lastSeq, pool, orders, byClient, byOrderId, md, reports)
    }

    constructor ()
      ensures Now() == EMPTY && Inv(Now(), {})
    {
      bids, asks, lastSeq := [], [], 0;
      pool, orders, byClient, byOrderId, md, reports := map[], {}, map[], map[], map[], [];
      new;
      EmptyInv();
    }

    function On(side: Side): (q: seq<Resting>)
      reads this
      ensures q == Now().On(side)
    {
      if side == Buy then bids else asks
    }

    method SetSide(side: Side, q: seq<Resting>)
      modifies this
      ensures Now() == old(Now()).WithSide(side, q)
    {
      if side == Buy {
        bids := q;
      } else {
        asks := q;
      }
    }

    method Say(r: Report)
      modifies this
      ensures Now() == old(Now()).Say(r)
    {
      reports := reports + [r];
    }

    /** The book's own observer: keeps the index for orders that are not ours. */
    method NotifyOrderUpdate(id: nat, price: Price, oldPrice: Price, qty: nat, oldQty: nat)
      modifies this
      ensures Now() == OnOrderUpdate(old(Now()), id, price, oldPrice, qty, oldQty)
    {
      if id !in orders {
        if price != oldPrice {
          if oldPrice in md {
            md := md[oldPrice := md[oldPrice] - oldQty];
          }
          if price in md {
            md := md[price := md[price] + qty];
          } else if qty > 0 {
            md := md[price := qty];
          }
        } else {
          if price in md {
            md := md[price := md[price] + qty - oldQty];
          } else if qty > 0 {
            md := md[price := qty];
          }
        }
      } else if qty == 0 && id in pool && pool[id].quantity != 0 {
        pool := pool[id := pool[id].(leaves := 0)];
      }
    }

    method AddResting(side: Side, x: Resting, seqNum: nat) returns (ok: bool)
      modifies this
      ensures Now() == L3Add(old(Now()), side, x, seqNum) && ok == !old(Now()).Refuses(seqNum)
    {
      if seqNum > 0 && seqNum < lastSeq {
        return false;
      }
      SetSide(side, Insert(side, On(side), x));
      if seqNum > 0 {
        lastSeq := seqNum;
      }
      NotifyOrderUpdate(x.id, x.price, 0, x.qty, 0);
      ok := true;
    }

    method ResizeResting(side: Side, id: nat, n: nat, seqNum: nat) returns (ok: bool)
      requires id in View(On(side))
      modifies this
      ensures Now() == L3Resize(old(Now()), side, id, n, seqNum) && ok == !old(Now()).Refuses(seqNum)
    {
      if seqNum > 0 && seqNum < lastSeq {
        return false;
      }
      var x := FindResting(On(side), id);
      SetSide(side, Resize(On(side), id, n));
      if seqNum > 0 {
        lastSeq := seqNum;
      }
      NotifyOrderUpdate(id, x.value.price, x.value.price, n, x.value.qty);
      ok := true;
    }

    method MoveResting(side: Side, x: Resting)
      requires x.id in View(On(side))
      modifies this
      ensures Now() == L3Move(old(Now()), side, x)
    {
      var was := FindResting(On(side), x.id);
      SetSide(side, Insert(side, Resize(On(side), x.id, 0), x));
      NotifyOrderUpdate(x.id, x.price, was.value.price, x.qty, was.value.qty);
    }

    method EraseFromMaps(id: nat)
      requires id in pool
      modifies this
      ensures Now() == Unregister(old(Now()), id)
    {
      var o := pool[id];
      if o.clientOrderId != "" {
        byClient := byClient - {o.clientOrderId};
      }
      if o.orderId != "" {
        byOrderId := byOrderId - {o.orderId};
      }
      orders := orders - {id};
    }

    method Free(id: nat)
      requires id in pool
      modifies this
      ensures Now() == FreeOrder(old(Now()), id)
    {
      pool := pool - {id};
    }

    /** Rests one of our orders: into the maps first, so the book's notification knows it as ours. */
    method AddOrder(id: nat, priority: nat)
      requires id in pool
      modifies this
      ensures Now() == RestOwn(old(Now()), id, priority)
    {
      pool := pool[id := pool[id].(priority := priority)];
      var o := pool[id];
      orders := orders + {id};
      if o.clientOrderId != "" {
        byClient := byClient[o.clientOrderId := id];
      }
      if o.orderId != "" {
        byOrderId := byOrderId[o.orderId := id];
      }
      var _ := AddResting(o.side, Resting(id, o.price, o.leaves, o.priority), 0);
    }

    /** Cancels one of our orders: out of the book and the maps, its owner told, back to the pool. */
    method CancelOrder(id: nat)
      requires id in pool && id in orders && id in View(On(pool[id].side))
      modifies this
      ensures Now() == CancelOwn(old(Now()), id)
    {
      ResizeKeepsRecord(Now(), pool[id].side, id);
      var _ := ResizeResting(pool[id].side, id, 0, 0);
      EraseFromMaps(id);
      Say(Cancelled(id));
      Free(id);
    }

    /** Books an execution: on our record first, then on the book; a finished order leaves the maps. */
    method ExecuteOrder(side: Side, id: nat, n: nat, seqNum: nat) returns (ok: bool)
      requires CanFillPassive(Now(), side, id, n)
      modifies this
      ensures ok == !old(Now()).Refuses(seqNum)
      ensures !ok ==> Now() == old(Now())
      ensures ok && id !in old(orders) ==>
                Now() == L3Resize(old(Now()), side, id, View(old(On(side)))[id].qty - n, seqNum)
      ensures ok && id in old(orders) ==> Now() == ExecuteOwn(old(Now()), side, id, n, seqNum)
    {
      if seqNum > 0 && seqNum < lastSeq {
        return false;
      }
      var x := FindResting(On(side), id);
      if id in orders {
        pool := pool[id := Orders.ExecuteOrder(pool[id], pool[id].price, n)];
      }
      ok := ResizeResting(side, id, x.value.qty - n, seqNum);
      if id in orders && id in pool && pool[id].leaves == 0 {
        EraseFromMaps(id);
      }
    }

    /** A fill of a resting order, with the report its owner is owed. */
    method FillRestingOrder(side: Side, id: nat, n: nat, seqNum: nat) returns (ok: bool)
      requires CanFillPassive(Now(), side, id, n)
      modifies this
      ensures Now() == FillPassive(old(Now()), side, id, n, seqNum) && ok == !old(Now()).Refuses(seqNum)
    {
      var own := id in orders;
      ok := ExecuteOrder(side, id, n, seqNum);
      if !ok {
        return;
      }
      if own && id in pool {
        var o := pool[id];
        Say(Executed(id, o.price, n, o.leaves, o.cum, false));
        if o.leaves == 0 {
          if id in orders {
            EraseFromMaps(id);
          }
          Free(id);
        }
      }
    }

    /** Moves an amended order to its new place, or out of the book when nothing is left of it. */
    method SettleOrder(id: nat, priority: nat)
      requires id in pool && id in orders && id in View(On(pool[id].side))
      modifies this
      ensures Now() == SettleAmended(old(Now()), id, priority)
    {
      var o := pool[id].(priority := priority);
      var was := FindResting(On(o.side), id);
      pool := pool[id := o];
      if o.leaves == 0 {
        ResizeKeepsRecord(Now(), o.side, id);
        var _ := ResizeResting(o.side, id, 0, 0);
        EraseFromMaps(id);
        Free(id);
      } else if was.value.price == o.price && was.value.priority == priority {
        var _ := ResizeResting(o.side, id, o.leaves, 0);
      } else {
        MoveResting(o.side, Resting(id, o.price, o.leaves, priority));
      }
    }
  }

  lemma ResizeKeepsRecord(s: State, side: Side, id: nat)
    requires id in View(s.On(side)) && id in s.pool && id in s.orders
    ensures id in L3Resize(s, side, id, 0, 0).pool && id in L3Resize(s, side, id, 0, 0).orders
  {
    ResizeOwnGone(s, side, id);
  }
}
