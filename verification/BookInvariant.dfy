/** How each book mutation keeps the invariant. */
module BookInvariant {
  import opened Types
  import opened Queue
  import opened BookState

  // ----- resizing one resting order, in isolation

  lemma SideIsOk(s: State, side: Side)
    requires Inv(s, {})
    ensures WellFormed(side, s.On(side))
  {
  }

  ghost function Resized(s: State, side: Side, id: nat, n: nat): State {
    s.WithSide(side, Resize(s.On(side), id, n))
  }

  lemma ResizedQueues(s: State, side: Side, id: nat, n: nat)
    requires QueuesOk(s) && Uncrossed(s) && id in View(s.On(side))
    ensures QueuesOk(Resized(s, side, id, n)) && Uncrossed(Resized(s, side, id, n))
    ensures View(Resized(s, side, id, n).On(side)) ==
            if n == 0 then View(s.On(side)) - {id} else View(s.On(side))[id := View(s.On(side))[id].(qty := n)]
    ensures Resized(s, side, id, n).On(Opposite(side)) == s.On(Opposite(side))
  {
    hide View, Distinct, Sorted, PhantomAt;
    ResizeView(s.On(side), id, n);
    ResizeWellFormed(side, s.On(side), id, n);
  }

  /** Phantom quantity at every price after a resize, seen through any set of owners. */
  lemma ResizedPhantom(s: State, side: Side, id: nat, n: nat, p: Price, own: set<nat>)
    requires QueuesOk(s) && id in View(s.On(side))
    ensures var t := Resized(s, side, id, n);
            var x := View(s.On(side))[id];
            PhantomAt(t.bids, p, own) + PhantomAt(t.asks, p, own) ==
            PhantomAt(s.bids, p, own) + PhantomAt(s.asks, p, own) - Phantom(x, p, own) + Phantom(x.(qty := n), p, own)
  {
    hide View, Distinct, Sorted, PhantomAt;
    ResizePhantom(s.On(side), id, n, p, own);
  }

  lemma PhantomBounds(s: State, side: Side, id: nat)
    requires QueuesOk(s) && id in View(s.On(side)) && id !in s.orders
    ensures PhantomAt(s.On(side), View(s.On(side))[id].price, s.orders) >= View(s.On(side))[id].qty
  {
    hide View, Distinct, Sorted, PhantomAt;
    var x := View(s.On(side))[id];
    ResizePhantom(s.On(side), id, 0, x.price, s.orders);
  }

  ghost predicate SameOwners(s: State, t: State) {
    t.pool == s.pool && t.orders == s.orders && t.byClient == s.byClient && t.byOrderId == s.byOrderId
  }

  /** Every order of ours that rested still rests unchanged. */
  ghost predicate OwnUntouched(s: State, t: State, side: Side) {
    forall id :: id in s.orders && id in View(s.On(side)) ==>
      id in View(t.On(side)) && View(t.On(side))[id] == View(s.On(side))[id]
  }

  lemma PhantomChangeKeeps(s: State, t: State, ex: set<nat>)
    requires Inv(s, ex) && SameOwners(s, t) && QueuesOk(t) && Uncrossed(t) && IndexOk(t)
    requires OwnUntouched(s, t, Buy) && OwnUntouched(s, t, Sell)
    ensures Inv(t, ex)
  {
    hide View, Distinct, Sorted, PhantomAt;
    forall id | id in t.orders && id !in ex ensures RestsAsRecorded(t, id) {
      assert RestsAsRecorded(s, id);
    }
  }

  /** What a resize of a phantom order writes, and nothing else. */
  lemma ResizeShape(s: State, side: Side, id: nat, n: nat, seqNum: nat)
    requires id in View(s.On(side)) && id !in s.orders && !s.Refuses(seqNum)
    ensures var t, r := L3Resize(s, side, id, n, seqNum), Resized(s, side, id, n);
            && t.bids == r.bids && t.asks == r.asks && SameOwners(s, t) && t.reports == s.reports
            && t.md == Bump(s.md, View(s.On(side))[id].price, n, n - View(s.On(side))[id].qty)
  {
    hide View, Resize, Bump;
    var x, r := View(s.On(side))[id], Resized(s, side, id, n).Stamped(seqNum);
    assert L3Resize(s, side, id, n, seqNum) == OnOrderUpdate(r, id, x.price, x.price, n, x.qty);
    hide L3Resize;
  }

  lemma ResizeIndex(s: State, side: Side, id: nat, n: nat, seqNum: nat)
    requires QueuesOk(s) && IndexOk(s) && id in View(s.On(side)) && id !in s.orders && !s.Refuses(seqNum)
    ensures IndexOk(L3Resize(s, side, id, n, seqNum))
  {
    hide View, Distinct, Sorted, PhantomAt;
    var t := L3Resize(s, side, id, n, seqNum);
    var x := View(s.On(side))[id];
    ResizeShape(s, side, id, n, seqNum);
    hide L3Resize;
    PhantomBounds(s, side, id);
    assert x.price in s.md by {
      assert s.MdLevelQty(x.price) == PhantomAt(s.bids, x.price, s.orders) + PhantomAt(s.asks, x.price, s.orders);
    }
    forall p: Price
      ensures t.MdLevelQty(p) == PhantomAt(t.bids, p, t.orders) + PhantomAt(t.asks, p, t.orders)
    {
      ResizedPhantom(s, side, id, n, p, s.orders);
      assert s.MdLevelQty(p) == PhantomAt(s.bids, p, s.orders) + PhantomAt(s.asks, p, s.orders);
    }
  }

  lemma ResizeQueuesKeep(s: State, side: Side, id: nat, n: nat, seqNum: nat)
    requires QueuesOk(s) && Uncrossed(s) && id in View(s.On(side)) && id !in s.orders && !s.Refuses(seqNum)
    ensures var t := L3Resize(s, side, id, n, seqNum);
            QueuesOk(t) && Uncrossed(t) && OwnUntouched(s, t, Buy) && OwnUntouched(s, t, Sell)
  {
    hide View, Distinct, Sorted, AllReal;
    ResizedQueues(s, side, id, n);
    ResizeShape(s, side, id, n, seqNum);
    hide L3Resize;
  }

  /** Changing or removing a phantom order. */
  lemma ResizePhantomKeeps(s: State, ex: set<nat>, side: Side, id: nat, n: nat, seqNum: nat)
    requires Inv(s, ex) && id in View(s.On(side)) && id !in s.orders
    ensures Inv(L3Resize(s, side, id, n, seqNum), ex)
  {
    hide View, QueuesOk, Uncrossed, OwnUntouched, IndexOk, LookupsOk, RestsAsRecorded;
    if !s.Refuses(seqNum) {
      ResizeShape(s, side, id, n, seqNum);
      ResizeQueuesKeep(s, side, id, n, seqNum);
      ResizeIndex(s, side, id, n, seqNum);
      PhantomChangeKeeps(s, L3Resize(s, side, id, n, seqNum), ex);
    }
  }

  // ----- phantom liquidity joining the book

  /** Nothing on the other side would trade with an order resting here at `price`. */
  ghost predicate FitsBeside(s: State, side: Side, price: Price) {
    forall id :: id in View(s.On(Opposite(side))) ==>
      !IsPriceBetterOrEqual(Opposite(side), View(s.On(Opposite(side)))[id].price, price)
  }

  lemma InsertedQueues(s: State, side: Side, x: Resting)
    requires QueuesOk(s) && Uncrossed(s) && x.qty > 0 && x.price != NULL_PRICE
    requires x.id !in View(s.bids) && x.id !in View(s.asks) && FitsBeside(s, side, x.price)
    ensures var t := s.WithSide(side, Insert(side, s.On(side), x));
            && QueuesOk(t) && Uncrossed(t)
            && View(t.On(side)) == View(s.On(side))[x.id := x]
            && t.On(Opposite(side)) == s.On(Opposite(side))
  {
    hide View, Distinct, Sorted, PhantomAt;
    InsertView(side, s.On(side), x);
    InsertWellFormed(side, s.On(side), x);
    var t := s.WithSide(side, Insert(side, s.On(side), x));
    forall i, j | i in View(t.bids) && j in View(t.asks) ensures View(t.bids)[i].price < View(t.asks)[j].price {
      var other := if side == Buy then j else i;
      assert other in View(s.On(Opposite(side)));
    }
  }

  lemma InsertedPhantom(s: State, side: Side, x: Resting, p: Price, own: set<nat>)
    ensures var t := s.WithSide(side, Insert(side, s.On(side), x));
            PhantomAt(t.bids, p, own) + PhantomAt(t.asks, p, own) ==
            PhantomAt(s.bids, p, own) + PhantomAt(s.asks, p, own) + Phantom(x, p, own)
  {
    hide View, Distinct, Sorted, PhantomAt;
    InsertPhantom(side, s.On(side), x, p, own);
  }

  lemma AddShape(s: State, side: Side, x: Resting, seqNum: nat)
    requires x.id !in s.orders && !s.Refuses(seqNum)
    ensures var t, r := L3Add(s, side, x, seqNum), s.WithSide(side, Insert(side, s.On(side), x));
            && t.bids == r.bids && t.asks == r.asks && SameOwners(s, t) && t.reports == s.reports
            && t.md == Bump(s.md, x.price, x.qty, x.qty)
  {
    hide View, Insert;
    assert 0 in s.md ==> s.md[0 := s.md[0] - 0] == s.md;
  }

  lemma AddIndex(s: State, side: Side, x: Resting, seqNum: nat)
    requires IndexOk(s) && x.qty > 0 && x.id !in s.orders && !s.Refuses(seqNum)
    ensures IndexOk(L3Add(s, side, x, seqNum))
  {
    hide View, Distinct, Sorted, PhantomAt;
    var t := L3Add(s, side, x, seqNum);
    AddShape(s, side, x, seqNum);
    hide L3Add;
    forall p: Price
      ensures t.MdLevelQty(p) == PhantomAt(t.bids, p, t.orders) + PhantomAt(t.asks, p, t.orders)
    {
      InsertedPhantom(s, side, x, p, s.orders);
      assert s.MdLevelQty(p) == PhantomAt(s.bids, p, s.orders) + PhantomAt(s.asks, p, s.orders);
    }
  }

  lemma AddPhantomKeeps(s: State, ex: set<nat>, side: Side, x: Resting, seqNum: nat)
    requires Inv(s, ex) && x.qty > 0 && x.price != NULL_PRICE && Unused(s, x.id)
    requires s.Refuses(seqNum) || FitsBeside(s, side, x.price)
    ensures Inv(L3Add(s, side, x, seqNum), ex)
  {
    hide View, Distinct, Sorted, PhantomAt;
    if !s.Refuses(seqNum) {
      InsertedQueues(s, side, x);
      AddShape(s, side, x, seqNum);
      AddIndex(s, side, x, seqNum);
      hide L3Add, IndexOk, LookupsOk, FitsBeside;
      PhantomChangeKeeps(s, L3Add(s, side, x, seqNum), ex);
    }
  }

  // ----- own orders

  /** Nothing but the given order and its entries in the maps changed hands. */
  ghost predicate OthersUntouched(s: State, t: State, id: nat) {
    && (forall j :: j in s.pool && j != id ==> j in t.pool && t.pool[j] == s.pool[j])
    && (forall j :: j in s.orders && j != id <==> j in t.orders && j != id)
    && (forall side: Side, j :: j != id ==> (j in View(s.On(side)) <==> j in View(t.On(side))))
    && (forall side: Side, j :: j != id && j in View(s.On(side)) ==> View(t.On(side))[j] == View(s.On(side))[j])
  }

  lemma OthersRest(s: State, t: State, ex: set<nat>, id: nat)
    requires Inv(s, ex) && OthersUntouched(s, t, id)
    ensures forall j :: j in t.orders && j !in ex && j != id ==> RestsAsRecorded(t, j)
  {
    hide View, QueuesOk, Uncrossed, IndexOk, LookupsOk;
    forall j | j in t.orders && j !in ex && j != id ensures RestsAsRecorded(t, j) {
      assert RestsAsRecorded(s, j);
    }
  }

  lemma UnregisterLookups(s: State, id: nat)
    requires LookupsOk(s) && id in s.orders
    ensures LookupsOk(FreeOrder(Unregister(s, id), id)) && LookupsOk(Unregister(s, id))
  {
  }

  lemma RegisterLookups(s: State, id: nat)
    requires LookupsOk(s) && id in s.pool && id !in s.orders
    requires s.pool[id].clientOrderId !in s.byClient && s.pool[id].orderId !in s.byOrderId
    ensures LookupsOk(Register(s, id))
  {
  }

  /** An own order that leaves the book, the maps and the pool together. */
  lemma OwnLeavesKeeps(s: State, t: State, ex: set<nat>, id: nat)
    requires Inv(s, ex) && id in s.orders && OthersUntouched(s, t, id)
    requires QueuesOk(t) && Uncrossed(t) && LookupsOk(t) && t.md == s.md
    requires t.orders == s.orders - {id} && t.pool.Keys == s.pool.Keys - {id}
    requires forall p: Price :: PhantomAt(t.bids, p, s.orders) + PhantomAt(t.asks, p, s.orders)
                             == PhantomAt(s.bids, p, s.orders) + PhantomAt(s.asks, p, s.orders)
    requires id !in View(t.bids) && id !in View(t.asks)
    ensures Inv(t, ex - {id})
  {
    hide View, Distinct, Sorted, AllReal, PhantomAt, LookupsOk, Uncrossed;
    OthersRest(s, t, ex, id);
    assert IndexOk(t) by {
      forall p: Price
        ensures t.MdLevelQty(p) == PhantomAt(t.bids, p, t.orders) + PhantomAt(t.asks, p, t.orders)
      {
        PhantomSameOwners(t.bids, p, s.orders, t.orders);
        PhantomSameOwners(t.asks, p, s.orders, t.orders);
        assert s.MdLevelQty(p) == PhantomAt(s.bids, p, s.orders) + PhantomAt(s.asks, p, s.orders);
      }
    }
  }

  /** An own order that rests, or rests anew, as its record says. */
  lemma OwnRestsKeeps(s: State, t: State, ex: set<nat>, id: nat)
    requires Inv(s, ex) && OthersUntouched(s, t, id) && t.orders == s.orders + {id} && t.pool.Keys == s.pool.Keys + {id}
    requires QueuesOk(t) && Uncrossed(t) && LookupsOk(t) && t.md == s.md
    requires forall p: Price :: PhantomAt(t.bids, p, t.orders) + PhantomAt(t.asks, p, t.orders)
                             == PhantomAt(s.bids, p, s.orders) + PhantomAt(s.asks, p, s.orders)
    requires RestsAsRecorded(t, id)
    ensures Inv(t, ex - {id})
  {
    hide View, Distinct, Sorted, AllReal, PhantomAt, LookupsOk, Uncrossed, QueuesOk, RestsAsRecorded;
    OthersRest(s, t, ex, id);
    assert IndexOk(t) by {
      forall p: Price
        ensures t.MdLevelQty(p) == PhantomAt(t.bids, p, t.orders) + PhantomAt(t.asks, p, t.orders)
      {
        assert s.MdLevelQty(p) == PhantomAt(s.bids, p, s.orders) + PhantomAt(s.asks, p, s.orders);
      }
    }
  }
}
