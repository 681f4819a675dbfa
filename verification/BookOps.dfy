/** The book operations of a match and of a client request, as state transitions. */
module BookOps {
  import opened Types
  import opened Queue
  import opened Orders
  import opened BookState
  import opened BookInvariant

  // ----- a fill of a resting order

  /** Books `n` onto an own order's record and shrinks what rests; a finished order leaves the maps. */
  ghost function ExecuteOwn(s: State, side: Side, id: nat, n: nat, seqNum: nat): State
    requires id in View(s.On(side)) && id in s.pool && 0 < n <= s.pool[id].leaves && n <= View(s.On(side))[id].qty
  {
    var s1 := s.(pool := s.pool[id := ExecuteOrder(s.pool[id], s.pool[id].price, n)]);
    var s2 := L3Resize(s1, side, id, View(s.On(side))[id].qty - n, seqNum);
    if id in s2.pool && s2.pool[id].leaves == 0 then Unregister(s2, id) else s2
  }

  /** The owner hears of the fill, and a finished order goes back to the pool. */
  ghost function ReportPassive(s: State, id: nat, n: nat): State
    requires id in s.pool
  {
    var o := s.pool[id];
    var s1 := s.Say(Executed(id, o.price, n, o.leaves, o.cum, false));
    if o.leaves == 0 then FreeOrder(if id in s.orders then Unregister(s1, id) else s1, id) else s1
  }

  ghost predicate CanFillPassive(s: State, side: Side, id: nat, n: nat) {
    && id in View(s.On(side)) && 0 < n <= View(s.On(side))[id].qty
    && (id in s.orders ==> id in s.pool && n <= s.pool[id].leaves)
  }

  /** One fill of the resting side, whoever owns it. */
  ghost function FillPassive(s: State, side: Side, id: nat, n: nat, seqNum: nat): State
    requires CanFillPassive(s, side, id, n)
  {
    if s.Refuses(seqNum) then s
    else if id in s.orders then
      var t := ExecuteOwn(s, side, id, n, seqNum);
      if id in t.pool then ReportPassive(t, id, n) else t
    else L3Resize(s, side, id, View(s.On(side))[id].qty - n, seqNum)
  }

  lemma ResizeOwnShape(s: State, side: Side, id: nat, n: nat, seqNum: nat)
    requires id in View(s.On(side)) && id in s.orders && id in s.pool && !s.Refuses(seqNum)
    requires n == 0 ==> s.pool[id].quantity != 0
    ensures var t, r := L3Resize(s, side, id, n, seqNum), Resized(s, side, id, n);
            && t.bids == r.bids && t.asks == r.asks && t.md == s.md && t.reports == s.reports
            && t.orders == s.orders && t.byClient == s.byClient && t.byOrderId == s.byOrderId
            && t.pool == if n == 0 then s.pool[id := s.pool[id].(leaves := 0)] else s.pool
  {
    hide View, Resize, Bump;
    var x, r := View(s.On(side))[id], Resized(s, side, id, n).Stamped(seqNum);
    assert L3Resize(s, side, id, n, seqNum) == OnOrderUpdate(r, id, x.price, x.price, n, x.qty);
    hide L3Resize;
  }

  /** The book and the record after a fill of an own order, apart from the lookup maps. */
  ghost predicate FilledOwn(s: State, t: State, side: Side, id: nat, n: nat)
    requires CanFillPassive(s, side, id, n) && id in s.orders
  {
    var r := Resized(s, side, id, View(s.On(side))[id].qty - n);
    var o := ExecuteOrder(s.pool[id], s.pool[id].price, n);
    && t.bids == r.bids && t.asks == r.asks && t.md == s.md
    && t.reports == s.reports + [Executed(id, o.price, n, o.leaves, o.cum, false)]
  }

  lemma FillOwnPartly(s: State, side: Side, id: nat, n: nat, seqNum: nat)
    requires CanFillPassive(s, side, id, n) && id in s.orders && !s.Refuses(seqNum)
    requires s.pool[id].leaves == View(s.On(side))[id].qty && n < s.pool[id].leaves
    ensures var t := FillPassive(s, side, id, n, seqNum);
            && FilledOwn(s, t, side, id, n)
            && t.pool == s.pool[id := ExecuteOrder(s.pool[id], s.pool[id].price, n)]
            && t.orders == s.orders && t.byClient == s.byClient && t.byOrderId == s.byOrderId
  {
    hide View, Resize;
    var s1 := s.(pool := s.pool[id := ExecuteOrder(s.pool[id], s.pool[id].price, n)]);
    assert s1.On(side) == s.On(side);
    ResizeOwnShape(s1, side, id, View(s.On(side))[id].qty - n, seqNum);
    hide L3Resize;
  }

  lemma FillOwnFully(s: State, side: Side, id: nat, n: nat, seqNum: nat)
    requires CanFillPassive(s, side, id, n) && id in s.orders && !s.Refuses(seqNum)
    requires n == s.pool[id].leaves == View(s.On(side))[id].qty && s.pool[id].quantity != 0
    ensures var t, u := FillPassive(s, side, id, n, seqNum), FreeOrder(Unregister(s, id), id);
            && FilledOwn(s, t, side, id, n)
            && t.pool == u.pool && t.orders == u.orders && t.byClient == u.byClient && t.byOrderId == u.byOrderId
  {
    hide View, Resize;
    var o := ExecuteOrder(s.pool[id], s.pool[id].price, n);
    var s1 := s.(pool := s.pool[id := o]);
    assert s1.On(side) == s.On(side);
    ResizeOwnShape(s1, side, id, 0, seqNum);
    assert o.(leaves := 0) == o;
    var s2 := L3Resize(s1, side, id, 0, seqNum);
    assert s2.pool[id] == o;
    hide L3Resize;
    assert ExecuteOwn(s, side, id, n, seqNum) == Unregister(s2, id);
    assert s2.pool - {id} == s.pool - {id};
  }

  lemma FillOwnKeeps(s: State, ex: set<nat>, side: Side, id: nat, n: nat, seqNum: nat)
    requires Inv(s, ex) && CanFillPassive(s, side, id, n) && id in s.orders && id !in ex && !s.Refuses(seqNum)
    ensures Inv(FillPassive(s, side, id, n, seqNum), ex)
  {
    hide View, Distinct, Sorted, AllReal, PhantomAt, FillPassive, IndexOk;
    var left := View(s.On(side))[id].qty - n;
    OwnSide(s, ex, side, id);
    var t := FillPassive(s, side, id, n, seqNum);
    assert ex - {id} == ex;
    if left == 0 {
      FillOwnFully(s, side, id, n, seqNum);
      OwnGoneKeeps(s, t, ex, side, id);
    } else {
      FillOwnPartly(s, side, id, n, seqNum);
      OwnShrunkKeeps(s, t, ex, side, id, left);
    }
  }

  /** An own order removed from the book, the maps and the pool. */
  lemma OwnGoneKeeps(s: State, t: State, ex: set<nat>, side: Side, id: nat)
    requires Inv(s, ex) && id in s.orders && id in View(s.On(side))
    requires var r, u := Resized(s, side, id, 0), FreeOrder(Unregister(s, id), id);
             && t.bids == r.bids && t.asks == r.asks && t.md == s.md
             && t.pool == u.pool && t.orders == u.orders && t.byClient == u.byClient && t.byOrderId == u.byOrderId
    ensures Inv(t, ex - {id})
  {
    hide View, Distinct, Sorted, AllReal, PhantomAt, IndexOk;
    UnregisterLookups(s, id);
    assert LookupsOk(t);
    hide LookupsOk;
    ResizedQueues(s, side, id, 0);
    FillOwnPhantom(s, t, side, id, 0);
    GoneOthers(s, t, side, id);
    hide Uncrossed, Resized, RestsAsRecorded, Unregister;
    OwnLeavesKeeps(s, t, ex, id);
  }

  lemma GoneOthers(s: State, t: State, side: Side, id: nat)
    requires QueuesOk(s) && Uncrossed(s) && id in View(s.On(side)) && id in s.pool
    requires var r := Resized(s, side, id, 0); t.bids == r.bids && t.asks == r.asks
    requires t.pool == s.pool - {id} && t.orders == s.orders - {id}
    ensures OthersUntouched(s, t, id) && QueuesOk(t) && Uncrossed(t) && id !in View(t.bids) && id !in View(t.asks)
  {
    hide View, Distinct, Sorted, AllReal;
    ResizedQueues(s, side, id, 0);
    assert t.On(side) == Resized(s, side, id, 0).On(side);
    hide Resized;
  }

  /** An own order that rests with less, its record in step. */
  lemma OwnShrunkKeeps(s: State, t: State, ex: set<nat>, side: Side, id: nat, left: nat)
    requires Inv(s, ex) && id in s.orders && id !in ex && s.pool[id].side == side && 0 < left
    requires RestsAsRecorded(s, id) && left < s.pool[id].leaves
    requires var r := Resized(s, side, id, left); t.bids == r.bids && t.asks == r.asks && t.md == s.md
    requires t.orders == s.orders && t.byClient == s.byClient && t.byOrderId == s.byOrderId
    requires var n := s.pool[id].leaves - left; t.pool == s.pool[id := ExecuteOrder(s.pool[id], s.pool[id].price, n)]
    ensures Inv(t, ex)
  {
    hide View, Distinct, Sorted, AllReal, PhantomAt, IndexOk;
    RecordLookups(s, t, id);
    hide LookupsOk;
    FillOwnPhantom(s, t, side, id, left);
    ShrunkOthers(s, t, side, id, left);
    assert RestsAsRecorded(t, id);
    assert ex - {id} == ex;
    hide Uncrossed, QueuesOk, RestsAsRecorded, Resized;
    OwnRestsKeeps(s, t, ex, id);
  }

  lemma ShrunkOthers(s: State, t: State, side: Side, id: nat, left: nat)
    requires QueuesOk(s) && Uncrossed(s) && id in View(s.On(side)) && left > 0
    requires var r := Resized(s, side, id, left); t.bids == r.bids && t.asks == r.asks
    requires id in t.pool && t.pool == s.pool[id := t.pool[id]] && t.orders == s.orders
    ensures OthersUntouched(s, t, id) && QueuesOk(t) && Uncrossed(t)
    ensures View(t.On(side)) == View(s.On(side))[id := View(s.On(side))[id].(qty := left)]
  {
    hide View, Distinct, Sorted, AllReal;
    ResizedQueues(s, side, id, left);
    assert t.On(side) == Resized(s, side, id, left).On(side);
    hide Resized;
  }

  lemma OwnSide(s: State, ex: set<nat>, side: Side, id: nat)
    requires Inv(s, ex) && id in s.orders && id !in ex && id in View(s.On(side))
    ensures s.pool[id].side == side && RestsAsRecorded(s, id)
  {
    hide View, Distinct, Sorted, AllReal, PhantomAt, IndexOk, Uncrossed, LookupsOk;
  }

  lemma FillOwnPhantom(s: State, t: State, side: Side, id: nat, left: nat)
    requires QueuesOk(s) && id in View(s.On(side)) && id in s.orders
    requires var r := Resized(s, side, id, left); t.bids == r.bids && t.asks == r.asks
    ensures forall p: Price :: PhantomAt(t.bids, p, s.orders) + PhantomAt(t.asks, p, s.orders)
                            == PhantomAt(s.bids, p, s.orders) + PhantomAt(s.asks, p, s.orders)
  {
    hide View, Distinct, Sorted, PhantomAt, Resized;
    forall p: Price
      ensures PhantomAt(t.bids, p, s.orders) + PhantomAt(t.asks, p, s.orders)
           == PhantomAt(s.bids, p, s.orders) + PhantomAt(s.asks, p, s.orders)
    {
      ResizedPhantom(s, side, id, left, p, s.orders);
    }
  }

  /** Any fill keeps the invariant. */
  lemma FillPassiveKeeps(s: State, ex: set<nat>, side: Side, id: nat, n: nat, seqNum: nat)
    requires Inv(s, ex) && CanFillPassive(s, side, id, n) && id !in ex
    ensures Inv(FillPassive(s, side, id, n, seqNum), ex)
  {
    hide View, Inv;
    if s.Refuses(seqNum) {
    } else if id in s.orders {
      FillOwnKeeps(s, ex, side, id, n, seqNum);
    } else {
      ResizePhantomKeeps(s, ex, side, id, View(s.On(side))[id].qty - n, seqNum);
    }
  }

  // ----- cancelling an own order: out of the book, its owner told, back to the pool

  ghost function CancelOwn(s: State, id: nat): State
    requires id in s.pool && id in View(s.On(s.pool[id].side))
  {
    var s1 := L3Resize(s, s.pool[id].side, id, 0, 0);
    var s2 := if id in s1.orders && id in s1.pool then Unregister(s1, id) else s1;
    FreeOrder(s2.Say(Cancelled(id)), id)
  }

  lemma CancelOwnShape(s: State, id: nat)
    requires id in s.orders && id in s.pool && id in View(s.On(s.pool[id].side)) && s.pool[id].quantity != 0
    ensures var t, r, u := CancelOwn(s, id), Resized(s, s.pool[id].side, id, 0), FreeOrder(Unregister(s, id), id);
            && t.bids == r.bids && t.asks == r.asks && t.md == s.md
            && t.pool == u.pool && t.orders == u.orders && t.byClient == u.byClient && t.byOrderId == u.byOrderId
            && t.reports == s.reports + [Cancelled(id)]
  {
    hide View, Resize;
    ResizeOwnShape(s, s.pool[id].side, id, 0, 0);
    hide L3Resize;
  }

  lemma CancelOwnKeeps(s: State, ex: set<nat>, id: nat)
    requires Inv(s, ex) && id in s.orders && id !in ex
    ensures id in s.pool && id in View(s.On(s.pool[id].side)) && Inv(CancelOwn(s, id), ex)
  {
    hide View, Distinct, Sorted, PhantomAt, CancelOwn, LookupsOk, IndexOk, Uncrossed;
    assert RestsAsRecorded(s, id);
    CancelOwnShape(s, id);
    assert ex - {id} == ex;
    OwnGoneKeeps(s, CancelOwn(s, id), ex, s.pool[id].side, id);
  }

  // ----- orders in hand: live in the pool, not yet (or no longer) required to rest as recorded

  /** Rewriting the record of an order in hand. */
  lemma RecordLookups(s: State, t: State, id: nat)
    requires LookupsOk(s) && id in s.pool && id in t.pool && t.pool == s.pool[id := t.pool[id]]
    requires t.orders == s.orders && t.byClient == s.byClient && t.byOrderId == s.byOrderId
    requires t.pool[id].clientOrderId == s.pool[id].clientOrderId && t.pool[id].orderId == s.pool[id].orderId
    ensures LookupsOk(t)
  {
  }

  lemma RecordKeeps(s: State, ex: set<nat>, id: nat, o: Order)
    requires Inv(s, ex) && id in ex
    requires o.clientOrderId == s.pool[id].clientOrderId && o.orderId == s.pool[id].orderId
    ensures Inv(s.(pool := s.pool[id := o]), ex)
  {
    hide View, PhantomAt, IndexOk, Uncrossed, QueuesOk;
    var t := s.(pool := s.pool[id := o]);
    SameBook(s, t);
    RecordLookups(s, t, id);
    hide LookupsOk;
    forall j | j in t.orders && j !in ex ensures RestsAsRecorded(t, j) {
      assert RestsAsRecorded(s, j);
    }
  }

  lemma SameBook(s: State, t: State)
    requires t.bids == s.bids && t.asks == s.asks && t.md == s.md && t.orders == s.orders
    ensures QueuesOk(t) == QueuesOk(s) && Uncrossed(t) == Uncrossed(s) && IndexOk(t) == IndexOk(s)
  {
    hide View, WellFormed, PhantomAt;
    assert forall p: Price :: t.MdLevelQty(p) == s.MdLevelQty(p);
    if IndexOk(s) {
      forall p: Price
        ensures t.MdLevelQty(p) == PhantomAt(t.bids, p, t.orders) + PhantomAt(t.asks, p, t.orders)
      {
        assert s.MdLevelQty(p) == PhantomAt(s.bids, p, s.orders) + PhantomAt(s.asks, p, s.orders);
      }
    }
    if IndexOk(t) {
      forall p: Price
        ensures s.MdLevelQty(p) == PhantomAt(s.bids, p, s.orders) + PhantomAt(s.asks, p, s.orders)
      {
        assert t.MdLevelQty(p) == PhantomAt(t.bids, p, t.orders) + PhantomAt(t.asks, p, t.orders);
      }
    }
  }

  /** What clients are told does not bear on the book. */
  lemma ReportsKeep(s: State, t: State, ex: set<nat>)
    requires Inv(s, ex) && t == s.(reports := t.reports)
    ensures Inv(t, ex)
  {
    hide View, Distinct, Sorted, PhantomAt, IndexOk, Uncrossed, QueuesOk;
    SameBook(s, t);
    forall j | j in t.orders && j !in ex ensures RestsAsRecorded(t, j) {
      assert RestsAsRecorded(s, j);
    }
  }

  /** A new order taken from the pool. */
  ghost function Allocate(s: State, id: nat, o: Order): State {
    s.(pool := s.pool[id := o])
  }

  /** Nothing about our resting orders changes. */
  lemma SameOwn(s: State, t: State)
    requires LookupsOk(s) && t.bids == s.bids && t.asks == s.asks && t.orders == s.orders
    requires t.byClient == s.byClient && t.byOrderId == s.byOrderId
    requires forall j :: j in s.orders ==> j in s.pool && j in t.pool && t.pool[j] == s.pool[j]
    ensures LookupsOk(t)
    ensures forall j :: j in s.orders && RestsAsRecorded(s, j) ==> RestsAsRecorded(t, j)
  {
    hide View;
  }

  lemma AllocateKeeps(s: State, id: nat, o: Order)
    requires Inv(s, {}) && Unused(s, id)
    ensures Inv(Allocate(s, id, o), {id})
  {
    hide View, Distinct, Sorted, PhantomAt, IndexOk, Uncrossed, QueuesOk, RestsAsRecorded, LookupsOk;
    var t := Allocate(s, id, o);
    SameBook(s, t);
    assert id !in s.orders;
    SameOwn(s, t);
  }

  /** Returning an order in hand that never reached the book. */
  lemma FreeKeeps(s: State, id: nat)
    requires Inv(s, {id}) && id !in s.orders
    ensures Inv(FreeOrder(s, id), {})
  {
    hide View, Distinct, Sorted, PhantomAt, IndexOk, Uncrossed, QueuesOk, RestsAsRecorded, LookupsOk;
    var t := FreeOrder(s, id);
    SameBook(s, t);
    SameOwn(s, t);
  }

  // ----- resting a new order

  ghost function RestOwn(s: State, id: nat, priority: nat): State
    requires id in s.pool
  {
    var s1 := s.(pool := s.pool[id := s.pool[id].(priority := priority)]);
    var o := s1.pool[id];
    L3Add(Register(s1, id), o.side, Resting(id, o.price, o.leaves, priority), 0)
  }

  /** An order in hand with quantity left, a price to rest at, and nothing it would trade with. */
  ghost predicate Restable(s: State, id: nat) {
    && id in s.pool
    && var o := s.pool[id];
       o.leaves > 0 && o.RestsRemainder() && o.cum + o.leaves == o.quantity && FitsBeside(s, o.side, o.price)
  }

  lemma RestOwnShape(s: State, id: nat, priority: nat)
    requires id in s.pool && s.pool[id].leaves > 0
    ensures var t, o := RestOwn(s, id, priority), s.pool[id].(priority := priority);
            var x := Resting(id, o.price, o.leaves, priority);
            var r := s.WithSide(o.side, Insert(o.side, s.On(o.side), x));
            var u := Register(s.(pool := s.pool[id := o]), id);
            && t.bids == r.bids && t.asks == r.asks && t.md == s.md && t.pool == s.pool[id := o]
            && t.orders == s.orders + {id} && t.byClient == u.byClient && t.byOrderId == u.byOrderId
            && t.reports == s.reports && t.lastSeq == s.lastSeq
  {
    hide View, Insert;
    var o := s.pool[id].(priority := priority);
    var s1 := Register(s.(pool := s.pool[id := o]), id);
    assert id in s1.orders && s1.On(o.side) == s.On(o.side);
    var x := Resting(id, o.price, o.leaves, priority);
    assert L3Add(s1, o.side, x, 0) == s1.WithSide(o.side, Insert(o.side, s.On(o.side), x));
  }

  lemma InsertOwnPhantom(s: State, t: State, side: Side, x: Resting)
    requires QueuesOk(s) && x.id !in View(s.bids) && x.id !in View(s.asks)
    requires var r := s.WithSide(side, Insert(side, s.On(side), x)); t.bids == r.bids && t.asks == r.asks
    ensures forall p: Price :: PhantomAt(t.bids, p, s.orders + {x.id}) + PhantomAt(t.asks, p, s.orders + {x.id})
                            == PhantomAt(s.bids, p, s.orders) + PhantomAt(s.asks, p, s.orders)
  {
    hide View, Distinct, Sorted, PhantomAt, Insert;
    var own := s.orders + {x.id};
    forall p: Price
      ensures PhantomAt(t.bids, p, own) + PhantomAt(t.asks, p, own)
           == PhantomAt(s.bids, p, s.orders) + PhantomAt(s.asks, p, s.orders)
    {
      InsertedPhantom(s, side, x, p, own);
      PhantomSameOwners(s.bids, p, s.orders, own);
      PhantomSameOwners(s.asks, p, s.orders, own);
    }
  }

  lemma QueueOthers(s: State, t: State, side: Side, x: Resting)
    requires View(t.On(side)) == View(s.On(side))[x.id := x] && t.On(Opposite(side)) == s.On(Opposite(side))
    ensures forall k: Side, j :: j != x.id ==> (j in View(s.On(k)) <==> j in View(t.On(k)))
    ensures forall k: Side, j :: j != x.id && j in View(s.On(k)) ==> View(t.On(k))[j] == View(s.On(k))[j]
  {
    hide View;
    forall k: Side, j | j != x.id
      ensures j in View(s.On(k)) <==> j in View(t.On(k))
      ensures j in View(s.On(k)) ==> View(t.On(k))[j] == View(s.On(k))[j]
    {
      assert k == side || k == Opposite(side);
    }
  }

  lemma InsertOthers(s: State, t: State, side: Side, x: Resting)
    requires QueuesOk(s) && Uncrossed(s) && x.id !in View(s.bids) && x.id !in View(s.asks)
    requires x.qty > 0 && x.price != NULL_PRICE && FitsBeside(s, side, x.price)
    requires var r := s.WithSide(side, Insert(side, s.On(side), x)); t.bids == r.bids && t.asks == r.asks
    requires x.id in t.pool && t.pool == s.pool[x.id := t.pool[x.id]] && t.orders == s.orders + {x.id}
    ensures OthersUntouched(s, t, x.id) && QueuesOk(t) && Uncrossed(t)
    ensures View(t.On(side)) == View(s.On(side))[x.id := x]
  {
    hide View, Distinct, Sorted, AllReal, Insert;
    InsertedQueues(s, side, x);
    var r := s.WithSide(side, Insert(side, s.On(side), x));
    assert t.On(side) == r.On(side) && t.On(Opposite(side)) == r.On(Opposite(side));
    hide FitsBeside;
    SameQueues(r, t);
    hide Uncrossed, QueuesOk;
    QueueOthers(s, t, side, x);
  }

  lemma SameQueues(s: State, t: State)
    requires t.bids == s.bids && t.asks == s.asks
    ensures QueuesOk(t) == QueuesOk(s) && Uncrossed(t) == Uncrossed(s)
  {
    hide View, WellFormed;
  }

  lemma RestOwnLookups(s: State, id: nat, priority: nat)
    requires LookupsOk(s) && id in s.pool && id !in s.orders && s.pool[id].leaves > 0
    requires s.pool[id].clientOrderId !in s.byClient && s.pool[id].orderId !in s.byOrderId
    ensures LookupsOk(RestOwn(s, id, priority))
  {
    hide View, RestOwn;
    RestOwnShape(s, id, priority);
    var r := s.(pool := s.pool[id := s.pool[id].(priority := priority)]);
    RegisterLookups(r, id);
    var t := RestOwn(s, id, priority);
    assert t.pool == Register(r, id).pool && t.orders == Register(r, id).orders;
  }

  lemma RestOwnQueues(s: State, id: nat, priority: nat)
    requires QueuesOk(s) && Uncrossed(s) && Restable(s, id)
    requires id !in View(s.bids) && id !in View(s.asks)
    ensures var t := RestOwn(s, id, priority);
            && OthersUntouched(s, t, id) && QueuesOk(t) && Uncrossed(t) && RestsAsRecorded(t, id)
  {
    hide View, Distinct, Sorted, AllReal, RestOwn, WellFormed, QueuesOk, Uncrossed;
    var t, o := RestOwn(s, id, priority), s.pool[id].(priority := priority);
    RestOwnShape(s, id, priority);
    InsertOthers(s, t, o.side, Resting(id, o.price, o.leaves, priority));
    hide FitsBeside, OthersUntouched;
  }

  lemma RestOwnKeeps(s: State, id: nat, priority: nat)
    requires Inv(s, {id}) && id !in s.orders && Restable(s, id)
    requires id !in View(s.bids) && id !in View(s.asks)
    requires s.pool[id].clientOrderId !in s.byClient && s.pool[id].orderId !in s.byOrderId
    ensures Inv(RestOwn(s, id, priority), {})
  {
    hide View, PhantomAt, IndexOk, RestOwn, LookupsOk, Uncrossed, QueuesOk, OthersUntouched, RestsAsRecorded, FitsBeside;
    var t, o := RestOwn(s, id, priority), s.pool[id].(priority := priority);
    RestOwnShape(s, id, priority);
    RestOwnLookups(s, id, priority);
    RestOwnQueues(s, id, priority);
    InsertOwnPhantom(s, t, o.side, Resting(id, o.price, o.leaves, priority));
    OwnRestsKeeps(s, t, {id}, id);
    assert {id} - {id} == {};
  }

  // ----- settling an amended order

  ghost function SettleAmended(s: State, id: nat, priority: nat): State
    requires id in s.pool && id in View(s.On(s.pool[id].side))
  {
    var o := s.pool[id].(priority := priority);
    var s1 := s.(pool := s.pool[id := o]);
    var was := View(s.On(o.side))[id];
    if o.leaves == 0 then
      var s2 := L3Resize(s1, o.side, id, 0, 0);
      FreeOrder(if id in s2.pool then Unregister(s2, id) else s2, id)
    else if was.price == o.price && was.priority == priority then L3Resize(s1, o.side, id, o.leaves, 0)
    else L3Move(s1, o.side, Resting(id, o.price, o.leaves, priority))
  }

  /** An order amended down to nothing leaves the book, the maps and the pool. */
  lemma SettleDone(s: State, id: nat, priority: nat)
    requires Inv(s, {id}) && id in s.orders && id in View(s.On(s.pool[id].side)) && s.pool[id].leaves == 0
    ensures Inv(SettleAmended(s, id, priority), {})
  {
    hide View, Distinct, Sorted, PhantomAt, IndexOk, AllReal;
    var side := s.pool[id].side;
    var t := SettleAmended(s, id, priority);
    SettleDoneShape(s, id, priority);
    hide SettleAmended, LookupsOk, Uncrossed, QueuesOk;
    OwnGoneKeeps(s, t, {id}, side, id);
    assert {id} - {id} == {};
  }

  lemma SettleDoneShape(s: State, id: nat, priority: nat)
    requires id in s.pool && id in View(s.On(s.pool[id].side)) && s.pool[id].leaves == 0 && id in s.orders
    ensures var t := SettleAmended(s, id, priority);
            var r, u := Resized(s, s.pool[id].side, id, 0), FreeOrder(Unregister(s, id), id);
            && t.bids == r.bids && t.asks == r.asks && t.md == s.md && t.reports == s.reports && t.lastSeq == s.lastSeq
            && t.pool == u.pool && t.orders == u.orders && t.byClient == u.byClient && t.byOrderId == u.byOrderId
  {
    hide View, Resize;
    var side := s.pool[id].side;
    var s1 := s.(pool := s.pool[id := s.pool[id].(priority := priority)]);
    assert s1.On(side) == s.On(side);
    var s2 := L3Resize(s1, side, id, 0, 0);
    ResizeOwnGone(s1, side, id);
    hide L3Resize;
    assert s2.pool - {id} == s.pool - {id};
  }

  lemma ResizeOwnGone(s: State, side: Side, id: nat)
    requires id in View(s.On(side)) && id in s.orders && id in s.pool
    ensures var t, r := L3Resize(s, side, id, 0, 0), Resized(s, side, id, 0);
            && t.bids == r.bids && t.asks == r.asks && t.md == s.md && t.reports == s.reports && t.lastSeq == s.lastSeq
            && t.orders == s.orders && t.byClient == s.byClient && t.byOrderId == s.byOrderId
            && t.pool == s.pool[id := t.pool[id]]
            && t.pool[id].clientOrderId == s.pool[id].clientOrderId && t.pool[id].orderId == s.pool[id].orderId
  {
    hide View, Resize;
  }

  /** The queue once `x` has been modified to its new price, quantity and priority. */
  ghost function ModifiedQueue(side: Side, q: seq<Resting>, x: Resting): seq<Resting>
    requires x.id in View(q)
  {
    if View(q)[x.id].price == x.price && View(q)[x.id].priority == x.priority then Resize(q, x.id, x.qty)
    else Insert(side, Resize(q, x.id, 0), x)
  }

  lemma ModifiedQueueView(side: Side, q: seq<Resting>, x: Resting)
    requires WellFormed(side, q) && x.id in View(q) && x.qty > 0 && x.price != NULL_PRICE
    ensures WellFormed(side, ModifiedQueue(side, q, x))
    ensures View(ModifiedQueue(side, q, x)) == View(q)[x.id := x]
  {
    hide View, Distinct, Sorted, Insert, Resize;
    if View(q)[x.id].price == x.price && View(q)[x.id].priority == x.priority {
      ResizeWellFormed(side, q, x.id, x.qty);
      ResizeView(q, x.id, x.qty);
    } else {
      ResizeWellFormed(side, q, x.id, 0);
      ResizeView(q, x.id, 0);
      var r := Resize(q, x.id, 0);
      InsertWellFormed(side, r, x);
      InsertView(side, r, x);
      assert (View(q) - {x.id})[x.id := x] == View(q)[x.id := x];
    }
  }

  lemma ModifiedQueuePhantom(side: Side, q: seq<Resting>, x: Resting, p: Price, own: set<nat>)
    requires WellFormed(side, q) && x.id in View(q) && x.id in own
    ensures PhantomAt(ModifiedQueue(side, q, x), p, own) == PhantomAt(q, p, own)
  {
    hide View, Distinct, Sorted, Insert, Resize, PhantomAt;
    ResizePhantom(q, x.id, x.qty, p, own);
    ResizePhantom(q, x.id, 0, p, own);
    InsertPhantom(side, Resize(q, x.id, 0), x, p, own);
  }

  lemma SettleLiveShape(s: State, id: nat, priority: nat)
    requires id in s.pool && id in View(s.On(s.pool[id].side)) && s.pool[id].leaves > 0 && id in s.orders
    ensures var t, o := SettleAmended(s, id, priority), s.pool[id].(priority := priority);
            var r := s.WithSide(o.side, ModifiedQueue(o.side, s.On(o.side), Resting(id, o.price, o.leaves, priority)));
            && t.bids == r.bids && t.asks == r.asks && t.md == s.md && t.pool == s.pool[id := o]
            && t.orders == s.orders && t.byClient == s.byClient && t.byOrderId == s.byOrderId
            && t.reports == s.reports && t.lastSeq == s.lastSeq
  {
    hide View, Resize, Insert, Bump;
    var o := s.pool[id].(priority := priority);
    var s1 := s.(pool := s.pool[id := o]);
    assert s1.On(o.side) == s.On(o.side);
    var was, x := View(s.On(o.side))[id], Resting(id, o.price, o.leaves, priority);
    if was.price == o.price && was.priority == priority {
      ResizeOwnShape(s1, o.side, id, o.leaves, 0);
      assert L3Resize(s1, o.side, id, o.leaves, 0).lastSeq == s.lastSeq;
    } else {
      var r := s1.WithSide(o.side, Insert(o.side, Resize(s1.On(o.side), id, 0), x));
      assert L3Move(s1, o.side, x) == OnOrderUpdate(r, id, o.price, was.price, o.leaves, was.qty) == r;
    }
    hide L3Resize, L3Move;
  }

  lemma SettleQueues(s: State, t: State, side: Side, x: Resting)
    requires QueuesOk(s) && Uncrossed(s) && x.id in View(s.On(side)) && x.qty > 0 && x.price != NULL_PRICE
    requires FitsBeside(s, side, x.price)
    requires var r := s.WithSide(side, ModifiedQueue(side, s.On(side), x)); t.bids == r.bids && t.asks == r.asks
    requires x.id in t.pool && t.pool == s.pool[x.id := t.pool[x.id]] && t.orders == s.orders
    ensures OthersUntouched(s, t, x.id) && QueuesOk(t) && Uncrossed(t)
    ensures View(t.On(side)) == View(s.On(side))[x.id := x]
  {
    hide View, Distinct, Sorted, AllReal;
    ModifiedQueueView(side, s.On(side), x);
    hide ModifiedQueue;
    forall i, j | i in View(t.bids) && j in View(t.asks) ensures View(t.bids)[i].price < View(t.asks)[j].price {
      var other := if side == Buy then j else i;
      assert other in View(s.On(Opposite(side)));
    }
    hide FitsBeside;
    forall k: Side, j | j != x.id ensures j in View(s.On(k)) <==> j in View(t.On(k)) {
      assert k == side || k == Opposite(side);
    }
  }

  lemma SettlePhantom(s: State, t: State, side: Side, x: Resting)
    requires QueuesOk(s) && x.id in View(s.On(side)) && x.id in s.orders
    requires var r := s.WithSide(side, ModifiedQueue(side, s.On(side), x)); t.bids == r.bids && t.asks == r.asks
    ensures forall p: Price :: PhantomAt(t.bids, p, s.orders) + PhantomAt(t.asks, p, s.orders)
                            == PhantomAt(s.bids, p, s.orders) + PhantomAt(s.asks, p, s.orders)
  {
    hide View, Distinct, Sorted, PhantomAt, ModifiedQueue;
    forall p: Price
      ensures PhantomAt(t.bids, p, s.orders) + PhantomAt(t.asks, p, s.orders)
           == PhantomAt(s.bids, p, s.orders) + PhantomAt(s.asks, p, s.orders)
    {
      ModifiedQueuePhantom(side, s.On(side), x, p, s.orders);
    }
  }

  lemma SettleLive(s: State, id: nat, priority: nat)
    requires Inv(s, {id}) && id in s.orders && id in View(s.On(s.pool[id].side)) && Restable(s, id)
    ensures Inv(SettleAmended(s, id, priority), {})
  {
    hide View, PhantomAt, IndexOk, SettleAmended, ModifiedQueue, Uncrossed, QueuesOk, OthersUntouched, FitsBeside;
    var t, o := SettleAmended(s, id, priority), s.pool[id].(priority := priority);
    var x := Resting(id, o.price, o.leaves, priority);
    SettleLiveShape(s, id, priority);
    RecordLookups(s, t, id);
    hide LookupsOk;
    SettleQueues(s, t, o.side, x);
    SettlePhantom(s, t, o.side, x);
    assert RestsAsRecorded(t, id);
    hide RestsAsRecorded;
    OwnRestsKeeps(s, t, {id}, id);
    assert {id} - {id} == {};
  }

  /** Settling keeps the invariant whether the amended order still rests or is done. */
  lemma SettleKeeps(s: State, id: nat, priority: nat)
    requires Inv(s, {id}) && id in s.orders && id in View(s.On(s.pool[id].side))
    requires s.pool[id].leaves == 0 || Restable(s, id)
    ensures Inv(SettleAmended(s, id, priority), {})
  {
    hide View, SettleAmended, IndexOk, LookupsOk, QueuesOk, Uncrossed, RestsAsRecorded;
    if s.pool[id].leaves == 0 {
      SettleDone(s, id, priority);
    } else {
      SettleLive(s, id, priority);
    }
  }
}
