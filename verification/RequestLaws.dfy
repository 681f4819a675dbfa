/** What every client request keeps, and what it promises its sender. */
module RequestLaws {
  import opened Types
  import opened Queue
  import opened Orders
  import opened BookState
  import opened BookInvariant
  import opened BookOps
  import opened MatchPlan
  import opened Matching
  import opened Requests
  import PreChecks

  /** A request as the exchange builds it: nothing filled, and identifiers nobody else holds. */
  ghost predicate FreshOrder(s: State, id: nat, o: Order) {
    && Unused(s, id)
    && o.leaves == o.quantity && o.cum == 0 && o.status == PendingNew
    && o.clientOrderId !in s.byClient && o.orderId !in s.byOrderId
  }

  lemma AllocatedIsIncoming(s: State, id: nat, o: Order)
    requires Inv(s, {}) && FreshOrder(s, id, o)
    ensures Incoming(Allocate(s, id, o), id, o.price, o.quantity)
  {
    hide View, PhantomAt, IndexOk, Uncrossed, LookupsOk, RestsAsRecorded;
    AllocateKeeps(s, id, o);
  }

  /** Every new order - market, limit, IOC, FOK, of any size - keeps the invariant. */
  lemma NewOrderKeeps(e: Engine, smp: SmpMode, s: State, id: nat, o: Order, priority: nat)
    requires e.Valid() && Inv(s, {}) && FreshOrder(s, id, o)
    ensures Inv(NewOrder(e, smp, s, id, o, priority).state, {})
  {
    hide View, PhantomAt, IndexOk, Uncrossed, LookupsOk, RestsAsRecorded, QueuesOk, MatchOrder, FitsBeside, RestOwn;
    var a := Allocate(s, id, o);
    AllocatedIsIncoming(s, id, o);
    MatchOrderOutcomes(e, a, id, o.price, o.quantity, smp);
    var m := MatchOrder(e, a, id, o.price, o.quantity, smp);
    assert id !in m.state.orders;
    if m.reason == Accepted && m.state.pool[id].leaves > 0 && m.state.pool[id].RestsRemainder() {
      StillAbsent(s, a, m.state, id, o);
      RestOwnKeeps(m.state, id, priority);
    } else {
      FreeKeeps(m.state, id);
    }
  }

  lemma StillAbsent(s: State, a: State, t: State, id: nat, o: Order)
    requires Unused(s, id) && a == Allocate(s, id, o) && Shrinks(a, t, Opposite(o.side), Some(id))
    ensures id !in View(t.bids) && id !in View(t.asks)
  {
    hide View;
    assert a.On(o.side) == s.On(o.side) && a.On(Opposite(o.side)) == s.On(Opposite(o.side));
    assert t.On(o.side) == s.On(o.side);
    assert id !in View(t.On(Opposite(o.side)));
  }

  // ----- amendments

  ghost function Marked(s: State, id: nat): State
    requires id in s.pool
  {
    s.(pool := s.pool[id := s.pool[id].(status := PendingReplace)])
  }

  lemma TakeInHand(s: State, id: nat)
    requires Inv(s, {}) && id in s.orders
    ensures Inv(s, {id})
  {
    hide View, PhantomAt, IndexOk, Uncrossed, LookupsOk, RestsAsRecorded, QueuesOk;
    assert s.orders + {id} == s.orders;
  }

  lemma MarkedIsIncoming(s: State, id: nat, price: Price, qty: nat)
    requires Inv(s, {}) && id in s.orders
    ensures Incoming(Marked(s, id), id, price, qty)
  {
    hide View, PhantomAt, IndexOk, Uncrossed;
    assert RestsAsRecorded(s, id);
    TakeInHand(s, id);
    RecordKeeps(s, {id}, id, s.pool[id].(status := PendingReplace));
    hide LookupsOk;
    var side := s.pool[id].side;
    assert Marked(s, id).On(Opposite(side)) == s.On(Opposite(side));
  }

  /** Setting the pending status alone leaves the order resting as recorded. */
  lemma MarkedKeeps(s: State, id: nat, t: State)
    requires Inv(s, {}) && id in s.orders && t == Marked(s, id).(reports := t.reports)
    ensures Inv(t, {})
  {
    hide View, PhantomAt, IndexOk, Uncrossed, QueuesOk;
    SameBook(s, t);
    RecordLookups(s, t, id);
    hide LookupsOk;
    forall j | j in t.orders ensures RestsAsRecorded(t, j) {
      assert RestsAsRecorded(s, j);
      assert t.On(t.pool[j].side) == s.On(s.pool[j].side);
    }
  }

  lemma AmendedRests(s: State, t: State, id: nat)
    requires Inv(s, {}) && id in s.orders && Shrinks(Marked(s, id), t, Opposite(s.pool[id].side), Some(id))
    requires Inv(t, {id})
    ensures id in t.orders && id in t.pool && t.pool[id].side == s.pool[id].side
    ensures id in View(t.On(s.pool[id].side)) && s.pool[id].RestsRemainder()
  {
    hide View, PhantomAt, IndexOk, Uncrossed, LookupsOk, QueuesOk;
    assert RestsAsRecorded(s, id);
    hide RestsAsRecorded;
    var side := s.pool[id].side;
    assert Marked(s, id).On(side) == s.On(side);
    assert t.On(side) == s.On(side);
  }

  /** Every amendment that carries a real price keeps the invariant. */
  lemma AmendKeeps(e: Engine, smp: SmpMode, s: State, id: nat, price: Price, qty: nat, priority: nat)
    requires e.Valid() && Inv(s, {}) && id in s.orders && price != NULL_PRICE
    ensures id in s.pool && Inv(Amend(e, smp, s, id, price, qty, priority).state, {})
  {
    hide View, PhantomAt, IndexOk, Uncrossed, LookupsOk, RestsAsRecorded, QueuesOk, MatchOrder, FitsBeside;
    hide SettleAmended;
    var a := Marked(s, id);
    MarkedIsIncoming(s, id, price, qty);
    MatchOrderOutcomes(e, a, id, price, qty, smp);
    var m := MatchOrder(e, a, id, price, qty, smp);
    if m.reason == Accepted {
      AmendedRests(s, m.state, id);
      hide Shrinks;
      SettleKeeps(m.state, id, if price != s.pool[id].price || qty > s.pool[id].quantity then priority else m.state.pool[id].priority);
    } else {
      MarkedKeeps(s, id, m.state);
    }
  }

  // ----- promises to the sender

  /** A CANCEL_NEWEST rejection leaves order, book and reports exactly as they were. */
  lemma RejectedLeavesNoTrace(e: Engine, smp: SmpMode, s: State, id: nat, price: Price, qty: nat, priority: nat)
    requires e.Valid() && Inv(s, {}) && id in s.orders
    requires id in s.pool && Amend(e, smp, s, id, price, qty, priority).reason == SelfMatch
    ensures Amend(e, smp, s, id, price, qty, priority) == Matched(Marked(s, id), SelfMatch, [])
  {
    hide View, PhantomAt, IndexOk, Uncrossed, LookupsOk, RestsAsRecorded, QueuesOk, MatchOrder, FitsBeside, Inv;
    hide SettleAmended, Shrinks;
    MarkedIsIncoming(s, id, price, qty);
    MatchOrderOutcomes(e, Marked(s, id), id, price, qty, smp);
  }

  /** A fill-or-kill order of any size, zero included, trades all of its quantity or none of it. */
  lemma FillOrKillIsAtomic(e: Engine, smp: SmpMode, s: State, id: nat, o: Order, priority: nat)
    requires e.Valid() && Inv(s, {}) && FreshOrder(s, id, o) && o.tif == FillOrKill
    ensures var m := NewOrder(e, smp, s, id, o, priority);
            || (m.reason == Accepted && Filled(m.actions) == o.quantity)
            || (m.reason != Accepted && m.actions == [] && m.state.bids == s.bids && m.state.asks == s.asks
                && m.state.pool == s.pool && m.state.orders == s.orders && m.state.md == s.md)
  {
    hide View, PhantomAt, IndexOk, Uncrossed, LookupsOk, RestsAsRecorded, QueuesOk, FitsBeside, Inv, RestOwn;
    hide PreChecks.InReach, PreChecks.CanFill;
    var a := Allocate(s, id, o);
    AllocatedIsIncoming(s, id, o);
    MatchOrderOutcomes(e, a, id, o.price, o.quantity, smp);
    FokPasses(e, a, id, o.price, o.quantity, smp);
    hide MatchOrder, Shrinks;
    assert a.pool - {id} == s.pool;
  }

  lemma FokPasses(e: Engine, s: State, agg: nat, limit: Price, qty: nat, smp: SmpMode)
    requires e.Valid() && Incoming(s, agg, limit, qty) && s.pool[agg].tif == FillOrKill
    requires s.pool[agg].status == PendingNew
    ensures var m := MatchOrder(e, s, agg, limit, qty, smp);
            m.reason == Accepted ==> Filled(m.actions) == qty
  {
    hide View, Distinct, Sorted, AllReal, PhantomAt, IndexOk, Uncrossed, LookupsOk, RestsAsRecorded;
    hide PreChecks.InReach, PreChecks.CanFill, Filled, ApplyAll, Plan, SelfOf;
    if Prepare(e, s, agg, limit, qty, smp).Go? {
      var r := Replace(Acknowledge(s, agg), agg, limit, qty);
      var t := TermsOf(s, agg, limit, smp);
      SameTerms(s, r, agg, limit, smp);
      assert r.On(t.side) == s.On(t.side);
      PreChecks.FillOrKillExact(e, t, s.On(t.side), qty);
      PlanSound(e, t, s.On(t.side), qty);
    } else {
      NothingFilled();
    }
  }

  /** The same for a new order: the exchange is exactly as it was. */
  lemma RejectedNewLeavesNoTrace(e: Engine, smp: SmpMode, s: State, id: nat, o: Order, priority: nat)
    requires e.Valid() && Inv(s, {}) && FreshOrder(s, id, o)
    requires NewOrder(e, smp, s, id, o, priority).reason == SelfMatch
    ensures NewOrder(e, smp, s, id, o, priority) == Matched(s, SelfMatch, [])
  {
    hide View, PhantomAt, IndexOk, Uncrossed, LookupsOk, RestsAsRecorded, QueuesOk, MatchOrder, FitsBeside, RestOwn, Shrinks;
    AllocatedIsIncoming(s, id, o);
    MatchOrderOutcomes(e, Allocate(s, id, o), id, o.price, o.quantity, smp);
    assert Allocate(s, id, o).pool - {id} == s.pool;
  }

  // ----- an amendment that carries no price

  /** Can be asked before the call: is the amendment turned back, or fully covered by crossing liquidity? */
  ghost predicate LeavesNothing(e: Engine, smp: SmpMode, s: State, id: nat, price: Price, qty: nat)
    requires id in s.pool
  {
    var a := Marked(s, id);
    var t, preview := TermsOf(a, id, price, smp), PreviewLeaves(a.pool[id], qty);
    || preview <= PreChecks.Available(t, a.On(t.side))
    || (smp == CancelNewest && PreChecks.InReach(e, t, a.On(t.side), preview))
  }

  lemma PlanLeaves(e: Engine, s: State, agg: nat, limit: Price, qty: nat, smp: SmpMode)
    requires e.Valid() && Incoming(s, agg, limit, qty) && s.pool[agg].status == PendingReplace
    requires s.pool[agg].tif != FillOrKill
    ensures var m, t := MatchOrder(e, s, agg, limit, qty, smp), TermsOf(s, agg, limit, smp);
            var preview := PreviewLeaves(s.pool[agg], qty);
            if smp == CancelNewest && preview > 0 && PreChecks.InReach(e, t, s.On(t.side), preview) then m.reason == SelfMatch
            else m.reason == Accepted && Filled(m.actions) == Min(preview, PreChecks.Available(t, s.On(t.side)))
  {
    hide View, Distinct, Sorted, AllReal, PhantomAt, IndexOk, Uncrossed, LookupsOk, RestsAsRecorded, FitsBeside;
    hide PreChecks.InReach, PreChecks.CanFill, PreChecks.Available, Filled, ApplyAll, Plan, SelfOf;
    PreparedState(s, agg, limit, qty);
    var r := Replace(Acknowledge(s, agg), agg, limit, qty);
    var t := TermsOf(s, agg, limit, smp);
    SameTerms(s, r, agg, limit, smp);
    assert r.On(t.side) == s.On(t.side);
    if Prepare(e, s, agg, limit, qty, smp).Go? {
      var leaves := r.pool[agg].leaves;
      NotTurnedBack(e, t, s.On(t.side), leaves);
      PreChecks.PlanRemaining(e, t, s.On(t.side), leaves);
      PlanSound(e, t, s.On(t.side), leaves);
    } else {
      NothingFilled();
    }
  }

  lemma NothingFilled()
    ensures Filled([]) == 0
  {
  }

  lemma SettledAtNoPrice(s: State, id: nat, priority: nat)
    requires Inv(s, {id}) && id in s.orders && id in View(s.On(s.pool[id].side))
    requires s.pool[id].leaves > 0 && s.pool[id].price == NULL_PRICE
    ensures !Inv(SettleAmended(s, id, priority), {})
  {
    hide View, Distinct, Sorted, AllReal, PhantomAt, IndexOk, Uncrossed, LookupsOk, QueuesOk, SettleAmended;
    SettleLiveShape(s, id, priority);
    var t := SettleAmended(s, id, priority);
    assert t.pool[id].price == NULL_PRICE && id in t.orders;
    assert !t.pool[id].RestsRemainder();
    assert !RestsAsRecorded(t, id);
  }

  /**
   Amendments are not asked whether they can rest. One without a price that is neither turned back
   nor filled rests at no price, and the book is no longer well formed; every other amendment keeps
   the invariant.
   */
  lemma AmendSafeIff(e: Engine, smp: SmpMode, s: State, id: nat, price: Price, qty: nat, priority: nat)
    requires e.Valid() && Inv(s, {}) && id in s.orders
    ensures id in s.pool
    ensures Inv(Amend(e, smp, s, id, price, qty, priority).state, {}) <==>
            price != NULL_PRICE || LeavesNothing(e, smp, s, id, price, qty)
  {
    if price != NULL_PRICE {
      AmendKeeps(e, smp, s, id, price, qty, priority);
    } else {
      hide Inv, Amend;
      AmendNoPrice(e, smp, s, id, qty, priority);
    }
  }

  lemma AmendNoPrice(e: Engine, smp: SmpMode, s: State, id: nat, qty: nat, priority: nat)
    requires e.Valid() && Inv(s, {}) && id in s.orders
    ensures id in s.pool
    ensures Inv(Amend(e, smp, s, id, NULL_PRICE, qty, priority).state, {}) <==> LeavesNothing(e, smp, s, id, NULL_PRICE, qty)
  {
    hide View, PhantomAt, IndexOk, Uncrossed, LookupsOk, RestsAsRecorded, QueuesOk, MatchOrder, FitsBeside;
    hide SettleAmended, TermsOf, PreChecks.InReach, PreChecks.Available, Filled;
    var a := Marked(s, id);
    MarkedIsIncoming(s, id, NULL_PRICE, qty);
    MatchOrderOutcomes(e, a, id, NULL_PRICE, qty, smp);
    TifRests(s, id);
    PlanLeaves(e, a, id, NULL_PRICE, qty, smp);
    var m := MatchOrder(e, a, id, NULL_PRICE, qty, smp);
    if m.reason == Accepted {
      AmendedRests(s, m.state, id);
      hide Shrinks;
      if m.state.pool[id].leaves == 0 {
        SettleDone(m.state, id, priority);
      } else {
        SettledAtNoPrice(m.state, id, priority);
      }
    } else {
      MarkedKeeps(s, id, m.state);
    }
  }

  lemma TifRests(s: State, id: nat)
    requires Inv(s, {}) && id in s.orders
    ensures id in s.pool && s.pool[id].tif != FillOrKill && s.pool[id].price != NULL_PRICE
  {
    hide View, PhantomAt, IndexOk, Uncrossed, LookupsOk, QueuesOk;
    assert RestsAsRecorded(s, id);
  }

  /** A book holding one own bid, and nothing to trade with. */
  const LONE_BID: Order := Order(Buy, 5, 10, 10, 0, 0, 0, 1, "", "a", Day, PendingNew, 1)

  const LONE_BOOK: State :=
    State([Resting(1, 5, 10, 1)], [], 0, map[1 := LONE_BID], {1}, map[], map["a" := 1], map[], [])

  lemma LoneBookInv()
    ensures Inv(LONE_BOOK, {})
  {
    var q := [Resting(1, 5, 10, 1)];
    assert q[1..] == [];
    assert View(q) == map[1 := Resting(1, 5, 10, 1)];
    forall p: Price ensures PhantomAt(q, p, {1}) + PhantomAt([], p, {1}) == 0 {
      assert PhantomAt(q, p, {1}) == Phantom(q[0], p, {1}) + PhantomAt([], p, {1});
    }
    assert IndexOk(LONE_BOOK);
    assert RestsAsRecorded(LONE_BOOK, 1);
  }

  /** Amending the lone bid to no price puts an order in the book that nothing can be matched with safely. */
  lemma AmendToNoPriceBreaks()
    ensures !Inv(Amend(Fifo, SmpNone, LONE_BOOK, 1, NULL_PRICE, 10, 2).state, {})
  {
    LoneBookInv();
    AmendSafeIff(Fifo, SmpNone, LONE_BOOK, 1, NULL_PRICE, 10, 2);
    hide Inv, Amend;
    var a := Marked(LONE_BOOK, 1);
    var t := TermsOf(a, 1, NULL_PRICE, SmpNone);
    assert PreChecks.Available(t, a.On(t.side)) == 0;
  }

  const ZERO_FOK: Order := Order(Sell, 5, 0, 0, 0, 0, 0, 1, "", "b", FillOrKill, PendingNew, 0)

  /** The lone bid's owner sends a fill-or-kill for nothing under CANCEL_NEWEST, and it cannot be filled. */
  lemma ZeroFillOrKillRefused(e: Engine)
    requires e.Valid()
    ensures Inv(LONE_BOOK, {}) && FreshOrder(LONE_BOOK, 2, ZERO_FOK)
    ensures NewOrder(e, CancelNewest, LONE_BOOK, 2, ZERO_FOK, 2).reason == FokCannotFill
  {
    LoneBookInv();
    var a := Allocate(LONE_BOOK, 2, ZERO_FOK);
    var t, q := TermsOf(a, 2, 5, CancelNewest), a.On(Buy);
    assert LONE_BOOK.bids[1..] == [];
    assert 1 in t.self && q == LONE_BOOK.bids;
    PreChecks.FillOrKillAtZero(t, q);
    hide Inv, PreChecks.CanFill, PreChecks.InReach;
    assert Prepare(e, a, 2, 5, 0, CancelNewest).Done?;
  }
}
