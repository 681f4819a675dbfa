/** Order-by-order mirroring of the venue's own orders as phantom orders. */
module Mirror {
  import opened Types
  import opened Queue
  import opened BookState
  import opened BookInvariant
  import opened BookOps
  import opened MatchPlan
  import opened Matching
  import opened FeedMatching

  ghost predicate IsResting(s: State, id: nat) {
    id in View(s.bids) || id in View(s.asks)
  }

  ghost function SideOf(s: State, id: nat): Side {
    if id in View(s.bids) then Buy else Sell
  }

  /** Deleting an order that is already gone is harmless. */
  ghost function DeleteOrder(s: State, id: nat): State {
    if IsResting(s, id) then L3Resize(s, SideOf(s, id), id, 0, 0) else s
  }

  /** The library's modify: zero deletes, the same price changes in place, another price moves the order. */
  ghost function ModifyOrder(s: State, id: nat, price: Price, qty: nat): State
    requires IsResting(s, id)
  {
    var side := SideOf(s, id);
    var was := View(s.On(side))[id];
    if qty == 0 || price == was.price then L3Resize(s, side, id, qty, 0)
    else L3Move(s, side, Resting(id, price, qty, was.priority))
  }

  datatype Event =
    | NewMarketOrder(side: Side, id: nat, price: Price, qty: nat, priority: nat)
    | ChangeMarketOrder(side: Side, id: nat, price: Price, qty: nat, priority: nat, requeue: bool)
    | DeleteMarketOrder(id: nat)

  ghost function RestMarketOrder(e: Engine, s: State, ev: Event): State
    requires e.Valid() && !ev.DeleteMarketOrder?
  {
    MatchThenRest(e, s, ev.side, Resting(ev.id, ev.price, ev.qty, ev.priority), 0).state
  }

  ghost function ApplyMarketOrder(e: Engine, s: State, ev: Event): State
    requires e.Valid()
  {
    match ev
    case NewMarketOrder(_, _, _, _, _) => RestMarketOrder(e, s, ev)
    case DeleteMarketOrder(id) => DeleteOrder(s, id)
    case ChangeMarketOrder(_, id, price, qty, _, requeue) =>
      if IsResting(s, id) && !requeue then ModifyOrder(s, id, price, qty)
      else RestMarketOrder(e, DeleteOrder(s, id), ev)
  }

  // ----- moving a phantom order to another price

  lemma MoveShape(s: State, side: Side, x: Resting)
    requires x.id in View(s.On(side)) && x.id !in s.orders && x.price != View(s.On(side))[x.id].price
    ensures var t, was := L3Move(s, side, x), View(s.On(side))[x.id];
            var r := s.WithSide(side, Insert(side, Resize(s.On(side), x.id, 0), x));
            var md := if was.price in s.md then s.md[was.price := s.md[was.price] - was.qty] else s.md;
            && t.bids == r.bids && t.asks == r.asks && SameOwners(s, t) && t.reports == s.reports && t.lastSeq == s.lastSeq
            && t.md == Bump(md, x.price, x.qty, x.qty)
  {
    hide View, Insert, Resize;
  }

  lemma MoveQueue(side: Side, q: seq<Resting>, x: Resting)
    requires WellFormed(side, q) && x.id in View(q) && x.qty > 0 && x.price != NULL_PRICE
    requires x.price != View(q)[x.id].price
    ensures var r := Insert(side, Resize(q, x.id, 0), x);
            WellFormed(side, r) && View(r) == View(q)[x.id := x]
  {
    ModifiedQueueView(side, q, x);
  }

  lemma MoveIndex(s: State, side: Side, x: Resting)
    requires QueuesOk(s) && IndexOk(s) && x.id in View(s.On(side)) && x.id !in s.orders && x.qty > 0
    requires x.price != View(s.On(side))[x.id].price
    ensures IndexOk(L3Move(s, side, x))
  {
    hide View, Distinct, Sorted, PhantomAt, L3Move, Insert, Resize;
    var t, was, q := L3Move(s, side, x), View(s.On(side))[x.id], s.On(side);
    MoveShape(s, side, x);
    PhantomBounds(s, side, x.id);
    assert was.price in s.md by {
      assert s.MdLevelQty(was.price) == PhantomAt(s.bids, was.price, s.orders) + PhantomAt(s.asks, was.price, s.orders);
    }
    forall p: Price
      ensures t.MdLevelQty(p) == PhantomAt(t.bids, p, t.orders) + PhantomAt(t.asks, p, t.orders)
    {
      ResizePhantom(q, x.id, 0, p, s.orders);
      InsertPhantom(side, Resize(q, x.id, 0), x, p, s.orders);
      assert s.MdLevelQty(p) == PhantomAt(s.bids, p, s.orders) + PhantomAt(s.asks, p, s.orders);
    }
  }

  lemma MovedQueues(s: State, t: State, side: Side, x: Resting)
    requires QueuesOk(s) && x.id in View(s.On(side)) && x.id !in s.orders && x.qty > 0 && x.price != NULL_PRICE
    requires x.price != View(s.On(side))[x.id].price && t == L3Move(s, side, x)
    ensures QueuesOk(t) && View(t.On(side)) == View(s.On(side))[x.id := x] && t.On(Opposite(side)) == s.On(Opposite(side))
    ensures OwnUntouched(s, t, Buy) && OwnUntouched(s, t, Sell)
  {
    hide View, Distinct, Sorted, AllReal, L3Move, Insert, Resize;
    MoveShape(s, side, x);
    MoveQueue(side, s.On(side), x);
  }

  /**
   An in-place change of price is not matched first. It leaves the book uncrossed exactly when no
   order on the other side would trade with it at its new price.
   */
  lemma MoveUncrossedIff(s: State, side: Side, x: Resting)
    requires QueuesOk(s) && Uncrossed(s) && x.id in View(s.On(side)) && x.id !in s.orders
    requires x.qty > 0 && x.price != NULL_PRICE && x.price != View(s.On(side))[x.id].price
    ensures Uncrossed(L3Move(s, side, x)) <==> FitsBeside(s, side, x.price)
  {
    hide View, Distinct, Sorted, AllReal, L3Move, SameOwners, OwnUntouched;
    var t := L3Move(s, side, x);
    MovedQueues(s, t, side, x);
    var opp := Opposite(side);
    if Uncrossed(t) {
      forall j | j in View(s.On(opp)) ensures !IsPriceBetterOrEqual(opp, View(s.On(opp))[j].price, x.price) {
        assert j in View(t.On(opp)) && x.id in View(t.On(side));
        if side == Buy {
          assert View(t.bids)[x.id].price < View(t.asks)[j].price;
        } else {
          assert View(t.bids)[j].price < View(t.asks)[x.id].price;
        }
      }
    }
    if FitsBeside(s, side, x.price) {
      forall i, j | i in View(t.bids) && j in View(t.asks) ensures View(t.bids)[i].price < View(t.asks)[j].price {
        var other := if side == Buy then j else i;
        assert other in View(s.On(opp));
      }
    }
  }

  const TWO_PHANTOMS: State :=
    EMPTY.(bids := [Resting(1, 100, 1, 1)], asks := [Resting(2, 105, 1, 2)], md := map[100 := 1, 105 := 1])

  lemma TwoPhantomsInv()
    ensures Inv(TWO_PHANTOMS, {})
  {
    var s := TWO_PHANTOMS;
    assert s.bids[1..] == [] && s.asks[1..] == [];
    assert View(s.bids) == map[1 := s.bids[0]] && View(s.asks) == map[2 := s.asks[0]];
    forall p: Price
      ensures s.MdLevelQty(p) == PhantomAt(s.bids, p, s.orders) + PhantomAt(s.asks, p, s.orders)
    {
    }
    assert IndexOk(s);
  }

  /** Moving the bid to 110 in place leaves it resting above the ask at 105. */
  lemma InPlaceChangeCanCross()
    ensures Inv(TWO_PHANTOMS, {}) && IsResting(TWO_PHANTOMS, 1)
    ensures !Uncrossed(ModifyOrder(TWO_PHANTOMS, 1, 110, 1))
  {
    var s := TWO_PHANTOMS;
    TwoPhantomsInv();
    assert View(s.bids) == map[1 := s.bids[0]] && View(s.asks) == map[2 := s.asks[0]] by {
      assert s.bids[1..] == [] && s.asks[1..] == [];
    }
    var x := Resting(1, 110, 1, 1);
    MoveUncrossedIff(s, Buy, x);
    assert 2 in View(s.On(Opposite(Buy))) && IsPriceBetterOrEqual(Sell, View(s.On(Opposite(Buy)))[2].price, 110);
    assert !FitsBeside(s, Buy, 110);
    hide L3Move;
  }

  lemma MoveKeeps(s: State, side: Side, x: Resting)
    requires Inv(s, {}) && x.id in View(s.On(side)) && x.id !in s.orders && x.qty > 0 && x.price != NULL_PRICE
    requires x.price != View(s.On(side))[x.id].price && FitsBeside(s, side, x.price)
    ensures Inv(L3Move(s, side, x), {})
  {
    MoveShape(s, side, x);
    MovedQueues(s, L3Move(s, side, x), side, x);
    MoveUncrossedIff(s, side, x);
    MoveIndex(s, side, x);
    hide View, L3Move, QueuesOk, Uncrossed, OwnUntouched, IndexOk, LookupsOk, RestsAsRecorded;
    PhantomChangeKeeps(s, L3Move(s, side, x), {});
  }

  // ----- every event

  /** A change that keeps its place. */
  ghost predicate InPlace(s: State, ev: Event) {
    ev.ChangeMarketOrder? && IsResting(s, ev.id) && !ev.requeue
  }

  /**
   What the feed's interface documents: ids that are not ours, no id added twice, and, as the exchange
   asserts, a real price for whatever it rests anew.
   */
  ghost predicate Documented(s: State, ev: Event) {
    && ev.id !in s.pool
    && (!ev.DeleteMarketOrder? && !InPlace(s, ev) ==> ev.price != NULL_PRICE)
    && (ev.NewMarketOrder? ==> !IsResting(s, ev.id))
  }

  /** A change that keeps its place keeps a real price and does not move to where it would trade. */
  ghost predicate StaysClear(s: State, ev: Event) {
    InPlace(s, ev) && ev.qty > 0 ==> ev.price != NULL_PRICE && FitsBeside(s, SideOf(s, ev.id), ev.price)
  }

  ghost predicate Admissible(s: State, ev: Event) {
    Documented(s, ev) && StaysClear(s, ev)
  }

  lemma DeleteKeeps(s: State, id: nat)
    requires Inv(s, {}) && id !in s.pool
    ensures Inv(DeleteOrder(s, id), {}) && Unused(DeleteOrder(s, id), id)
    ensures DeleteOrder(s, id).lastSeq == s.lastSeq
  {
    hide View, Distinct, Sorted, AllReal, PhantomAt, IndexOk, LookupsOk, RestsAsRecorded;
    if IsResting(s, id) {
      var side := SideOf(s, id);
      ResizePhantomKeeps(s, {}, side, id, 0, 0);
      ResizeShape(s, side, id, 0, 0);
      ResizeSeq(s, side, id, 0, 0);
      ResizedQueues(s, side, id, 0);
      var t := DeleteOrder(s, id);
      hide L3Resize, Inv, Uncrossed;
      assert t.On(side) == Resized(s, side, id, 0).On(side);
      assert t.On(Opposite(side)) == s.On(Opposite(side));
    }
  }

  lemma ModifyKeeps(s: State, id: nat, price: Price, qty: nat)
    requires Inv(s, {}) && IsResting(s, id) && id !in s.pool
    requires qty > 0 ==> price != NULL_PRICE && FitsBeside(s, SideOf(s, id), price)
    ensures Inv(ModifyOrder(s, id, price, qty), {}) && ModifyOrder(s, id, price, qty).lastSeq == s.lastSeq
  {
    hide View, Distinct, Sorted, AllReal, PhantomAt, IndexOk, LookupsOk, RestsAsRecorded;
    var side := SideOf(s, id);
    var was := View(s.On(side))[id];
    if qty == 0 || price == was.price {
      ResizePhantomKeeps(s, {}, side, id, qty, 0);
      ResizeSeq(s, side, id, qty, 0);
    } else {
      var x := Resting(id, price, qty, was.priority);
      MoveKeeps(s, side, x);
      MoveShape(s, side, x);
    }
    hide L3Resize, L3Move;
  }

  /** Every mirrored event the feed can send keeps the invariant. */
  lemma ApplyMarketOrderKeeps(e: Engine, s: State, ev: Event)
    requires e.Valid() && Inv(s, {}) && Admissible(s, ev)
    ensures Inv(ApplyMarketOrder(e, s, ev), {})
  {
    hide View, Distinct, Sorted, PhantomAt, IndexOk, LookupsOk, RestsAsRecorded, QueuesOk, Uncrossed;
    hide MatchThenRest, ModifyOrder, DeleteOrder, FitsBeside;
    match ev
    case NewMarketOrder(side, id, price, qty, priority) =>
      MatchThenRestKeeps(e, s, side, Resting(id, price, qty, priority), 0);
    case DeleteMarketOrder(id) =>
      DeleteKeeps(s, id);
    case ChangeMarketOrder(side, id, price, qty, priority, requeue) =>
      if IsResting(s, id) && !requeue {
        ModifyKeeps(s, id, price, qty);
      } else {
        DeleteKeeps(s, id);
        hide Inv;
        MatchThenRestKeeps(e, DeleteOrder(s, id), side, Resting(id, price, qty, priority), 0);
      }
  }

  /** An existing price on its own side never trades with the other side. */
  lemma SamePriceFits(s: State, id: nat)
    requires Uncrossed(s) && IsResting(s, id)
    ensures FitsBeside(s, SideOf(s, id), View(s.On(SideOf(s, id)))[id].price)
  {
    hide View;
    var side := SideOf(s, id);
    forall j | j in View(s.On(Opposite(side)))
      ensures !IsPriceBetterOrEqual(Opposite(side), View(s.On(Opposite(side)))[j].price, View(s.On(side))[id].price)
    {
      if side == Buy {
        assert View(s.bids)[id].price < View(s.asks)[j].price;
      } else {
        assert View(s.bids)[j].price < View(s.asks)[id].price;
      }
    }
  }

  /** An order moved to the null price rests at it. */
  lemma MoveToNoPrice(s: State, side: Side, x: Resting)
    requires Inv(s, {}) && x.id in View(s.On(side)) && x.id !in s.orders && x.price == NULL_PRICE
    ensures View(s.On(side))[x.id].price != NULL_PRICE && !Inv(L3Move(s, side, x), {})
  {
    var q := s.On(side);
    assert View(q)[x.id].price != NULL_PRICE;
    MoveShape(s, side, x);
    ResizeView(q, x.id, 0);
    InsertView(side, Resize(q, x.id, 0), x);
    hide View, Distinct, Sorted, L3Move, Insert, Resize, PhantomAt, LookupsOk, IndexOk, Uncrossed, RestsAsRecorded;
    var t := L3Move(s, side, x);
    assert t.On(side) == Insert(side, Resize(q, x.id, 0), x);
    assert View(t.On(side))[x.id] == x;
    assert !AllReal(t.On(side));
  }

  /** A mirrored event as the feed documents them keeps the invariant if and only if it stays clear. */
  lemma ApplyMarketOrderSafeIff(e: Engine, s: State, ev: Event)
    requires e.Valid() && Inv(s, {}) && Documented(s, ev)
    ensures Inv(ApplyMarketOrder(e, s, ev), {}) <==> StaysClear(s, ev)
  {
    hide View, Distinct, Sorted, PhantomAt, IndexOk, LookupsOk, RestsAsRecorded, FitsBeside, MatchThenRest;
    if StaysClear(s, ev) {
      ApplyMarketOrderKeeps(e, s, ev);
    } else {
      var side := SideOf(s, ev.id);
      SamePriceFits(s, ev.id);
      var x := Resting(ev.id, ev.price, ev.qty, View(s.On(side))[ev.id].priority);
      if ev.price == NULL_PRICE {
        MoveToNoPrice(s, side, x);
      } else {
        MoveUncrossedIff(s, side, x);
      }
    }
  }
}
