/** A symbol's three client requests as they run: the preamble, the engine's loop, and what rests. */
module Symbols {
  import opened Types
  import opened Queue
  import opened Orders
  import opened BookState
  import opened BookOps
  import opened MatchPlan
  import opened Matching
  import opened Requests
  import opened RequestLaws
  import opened OrderBooks
  import opened Engines
  import ProRataEngines
  import TradeSummaries
  import ProRata
  import PreChecks

  /** Under CANCEL_NEWEST: would the order, at the leaves it is about to have, reach one of its owner's? */
  method ScanForSelf(e: Engine, t: Terms, o: Order, q: seq<Resting>, qty: nat) returns (hit: bool)
    requires WellFormed(t.side, q)
    ensures hit <==> PreviewLeaves(o, qty) > 0 && PreChecks.InReach(e, t, q, PreviewLeaves(o, qty))
  {
    hide WellFormed, PreChecks.QueueReach, PreChecks.LevelReach;
    var effective: int := o.leaves;
    if o.status == PendingReplace {
      effective := effective + qty - o.quantity;
      if effective < 0 {
        effective := 0;
      }
    }
    if effective == 0 {
      return false;
    }
    if e.Fifo? {
      hit := PreChecks.WouldSelfMatchInQueue(t, q, effective);
    } else {
      hit := PreChecks.WouldSelfMatchOnLevels(t, q, effective);
    }
  }

  /** Writes a pending replacement onto the order; an order with nothing left is done. */
  method WriteReplacement(book: OrderBook, agg: nat, limit: Price, qty: nat) returns (done: bool)
    requires agg in book.pool
    modifies book
    ensures agg in book.pool
    ensures var r := Replace(old(book.Now()), agg, limit, qty);
            done == (r.pool[agg].leaves == 0) && book.Now() == if done then r.Say(Cancelled(agg)) else r
  {
    var o := book.pool[agg];
    if o.status == PendingReplace {
      var r := o.(quantity := qty, price := limit, leaves := if o.cum >= qty then 0 else qty - o.cum);
      book.pool := book.pool[agg := r];
      book.Say(Replaced(agg, limit, qty, r.leaves));
    }
    done := book.pool[agg].leaves == 0;
    if done {
      book.Say(Cancelled(agg));
    }
  }

  /** Everything before matching; `None` means go on to the loop. */
  method PrepareOrder(e: Engine, book: OrderBook, agg: nat, limit: Price, qty: nat, smp: SmpMode)
    returns (stop: Option<Reason>)
    requires agg in book.pool && WellFormed(Opposite(book.pool[agg].side), book.On(Opposite(book.pool[agg].side)))
    modifies book
    ensures Prepare(e, old(book.Now()), agg, limit, qty, smp) ==
            if stop.Some? then Done(book.Now(), stop.value) else Go(book.Now())
  {
    hide View, WellFormed, PreChecks.InReach, PreChecks.CanFill, Replace, SelfOf;
    ghost var s := book.Now();
    var o := book.pool[agg];
    var t := Terms(Opposite(o.side), limit, smp,
                   set id | id in book.orders && id in book.pool && IsSelfMatch(o, book.pool[id]));
    SelfIs(s, agg, limit, smp, t);
    if smp == CancelNewest {
      var hit := ScanForSelf(e, t, o, book.On(t.side), qty);
      if hit {
        return Some(SelfMatch);
      }
    }
    if o.status == PendingNew {
      book.Say(Acked(agg));
    }
    assert book.On(t.side) == s.On(t.side);
    if o.tif == FillOrKill {
      var ok := PreChecks.CanFillCompletely(t, book.On(t.side), qty);
      if !ok {
        book.Say(Cancelled(agg));
        return Some(FokCannotFill);
      }
    }
    var done := WriteReplacement(book, agg, limit, qty);
    stop := if done then Some(Accepted) else None;
  }

  lemma ReadyToLoop(s: State, r: State, agg: nat, limit: Price, qty: nat, smp: SmpMode)
    requires Incoming(s, agg, limit, qty) && r == Replace(Acknowledge(s, agg), agg, limit, qty)
    requires agg in r.pool && r.pool[agg].leaves > 0
    ensures Looping(r, TermsOf(r, agg, limit, smp), agg, r.pool[agg].leaves, r.orders)
  {
    hide View, Inv, Looping;
    PreparedState(s, agg, limit, qty);
    hide Replace, Acknowledge;
    assert r.On(Opposite(s.pool[agg].side)) == s.On(Opposite(s.pool[agg].side));
    LoopStarts(r, agg, limit, smp);
  }

  lemma OpposingQueue(s: State, agg: nat, limit: Price, qty: nat)
    requires Incoming(s, agg, limit, qty)
    ensures WellFormed(Opposite(s.pool[agg].side), s.On(Opposite(s.pool[agg].side)))
  {
  }

  lemma PreparedGo(e: Engine, s: State, r: State, agg: nat, limit: Price, qty: nat, smp: SmpMode)
    requires agg in s.pool && Prepare(e, s, agg, limit, qty, smp) == Go(r)
    ensures r == Replace(Acknowledge(s, agg), agg, limit, qty)
    ensures agg in r.pool && r.pool[agg].leaves > 0 && r.orders == s.orders
  {
  }

  /** The configured engine's loop. */
  method RunLoop(e: Engine, book: OrderBook, t: Terms, agg: nat)
    returns (remaining: nat, rejected: bool, ctx: TradeSummaries.Context)
    requires e.Valid() && agg in book.pool && Looping(book.Now(), t, agg, book.pool[agg].leaves, book.orders)
    modifies book
    ensures var o := Plan(e, t, old(book.On(t.side)), old(book.pool)[agg].leaves);
            && book.Now() == ApplyAll(old(book.Now()), t.side, Some(agg), o.actions, 0)
            && remaining == o.remaining && rejected == o.rejected
            && CanRecord(TradeSummaries.START, o.actions)
            && ctx == TradeSummaries.Record(TradeSummaries.START, o.actions, old(book.orders), agg)
  {
    hide Looping, Plan, FifoPlan, ProRataPlan, ApplyAll, CanRecord, TradeSummaries.Record;
    PlanIs(e, t, book.On(t.side), book.pool[agg].leaves);
    if e.Fifo? {
      remaining, rejected, ctx := FifoLoop(book, t, agg);
    } else {
      remaining, rejected, ctx := ProRataEngines.ProRataLoop(e.cfg, book, t, agg);
    }
  }

  /** Matches an order with the configured engine. */
  method MatchOrder(e: Engine, book: OrderBook, agg: nat, limit: Price, qty: nat, smp: SmpMode)
    returns (reason: Reason, ctx: TradeSummaries.Context)
    requires e.Valid() && Incoming(book.Now(), agg, limit, qty)
    modifies book
    ensures var m := Requests.MatchOrder(e, old(book.Now()), agg, limit, qty, smp);
            && book.Now() == m.state && reason == m.reason
            && CanRecord(TradeSummaries.START, m.actions)
            && ctx == TradeSummaries.Record(TradeSummaries.START, m.actions, old(book.orders), agg)
  {
    hide View, Inv, WellFormed, Looping, SelfOf, Plan, FifoPlan, ProRataPlan, ApplyAll, Prepare, Incoming, Replace, CanRecord;
    hide TradeSummaries.Record, Requests.MatchOrder, Loop;
    ghost var s := book.Now();
    OpposingQueue(s, agg, limit, qty);
    IncomingHasOrder(s, agg, limit, qty);
    ctx := TradeSummaries.START;
    var stop := PrepareOrder(e, book, agg, limit, qty, smp);
    NothingRecorded(s.orders, agg);
    MatchIs(e, s, agg, limit, qty, smp);
    if stop.Some? {
      return stop.value, ctx;
    }
    ghost var r := book.Now();
    PreparedGo(e, s, r, agg, limit, qty, smp);
    ReadyToLoop(s, r, agg, limit, qty, smp);
    var t := Terms(Opposite(book.pool[agg].side), limit, smp,
                   set id | id in book.orders && id in book.pool && IsSelfMatch(book.pool[agg], book.pool[id]));
    SelfIs(r, agg, limit, smp, t);
    var remaining, rejected;
    remaining, rejected, ctx := RunLoop(e, book, t, agg);
    LoopIs(e, r, agg, limit, smp);
    if rejected {
      return SelfMatch, ctx;
    }
    if remaining > 0 && !(agg in book.pool && book.pool[agg].RestsRemainder()) {
      book.Say(Cancelled(agg));
    }
    reason := Accepted;
  }

  lemma IncomingHasOrder(s: State, agg: nat, limit: Price, qty: nat)
    requires Incoming(s, agg, limit, qty)
    ensures agg in s.pool
  {
  }

  lemma SelfIs(s: State, agg: nat, limit: Price, smp: SmpMode, t: Terms)
    requires agg in s.pool
    requires t == Terms(Opposite(s.pool[agg].side), limit, smp,
                        set id | id in s.orders && id in s.pool && IsSelfMatch(s.pool[agg], s.pool[id]))
    ensures t == TermsOf(s, agg, limit, smp)
  {
  }

  lemma MatchIs(e: Engine, s: State, agg: nat, limit: Price, qty: nat, smp: SmpMode)
    requires e.Valid() && agg in s.pool
    ensures var p := Prepare(e, s, agg, limit, qty, smp);
            && (p.Done? ==> Requests.MatchOrder(e, s, agg, limit, qty, smp) == Matched(p.state, p.reason, []))
            && (p.Go? && agg in p.state.pool ==>
                  Requests.MatchOrder(e, s, agg, limit, qty, smp) == Loop(e, p.state, agg, limit, smp))
  {
    hide Prepare, Loop;
  }

  lemma LoopIs(e: Engine, s: State, agg: nat, limit: Price, smp: SmpMode)
    requires e.Valid() && agg in s.pool
    ensures var t := TermsOf(s, agg, limit, smp);
            var o := Plan(e, t, s.On(t.side), s.pool[agg].leaves);
            var r := ApplyAll(s, t.side, Some(agg), o.actions, 0);
            var cut := o.remaining > 0 && !(agg in r.pool && r.pool[agg].RestsRemainder());
            Loop(e, s, agg, limit, smp) ==
            if o.rejected then Matched(r, SelfMatch, o.actions)
            else Matched(if cut then r.Say(Cancelled(agg)) else r, Accepted, o.actions)
  {
    hide Plan, ApplyAll, SelfOf;
  }

  lemma PlanIs(e: Engine, t: Terms, q: seq<Resting>, qty: nat)
    requires e.Valid()
    ensures Plan(e, t, q, qty) ==
            if e.Fifo? then FifoPlan(t, q, qty) else ProRataPlan(ProRata.Splitter(e.cfg), t, q, qty)
  {
  }

  // ----- the requests

  /** A new order. Whatever does not rest goes back to the pool. */
  method AddOrder(e: Engine, smp: SmpMode, book: OrderBook, id: nat, o: Order, priority: nat)
    returns (reason: Reason, ctx: TradeSummaries.Context)
    requires e.Valid() && Inv(book.Now(), {}) && FreshOrder(book.Now(), id, o)
    modifies book
    ensures book.Now() == NewOrder(e, smp, old(book.Now()), id, o, priority).state
    ensures reason == NewOrder(e, smp, old(book.Now()), id, o, priority).reason
    ensures var acts := NewOrder(e, smp, old(book.Now()), id, o, priority).actions;
            CanRecord(TradeSummaries.START, acts)
            && ctx == TradeSummaries.Record(TradeSummaries.START, acts, old(book.orders), id)
    ensures Inv(book.Now(), {})
  {
    hide View, Inv, Incoming, Requests.MatchOrder, FreshOrder, RestOwn, Outcomes, TradeSummaries.Record, CanRecord;
    ghost var s := book.Now();
    NewOrderKeeps(e, smp, s, id, o, priority);
    AllocatedIsIncoming(s, id, o);
    MatchOrderOutcomes(e, Allocate(s, id, o), id, o.price, o.quantity, smp);
    InPool(Allocate(s, id, o), Requests.MatchOrder(e, Allocate(s, id, o), id, o.price, o.quantity, smp), id, o.price, o.quantity);
    book.pool := book.pool[id := o];
    assert book.Now() == Allocate(s, id, o);
    reason, ctx := MatchOrder(e, book, id, o.price, o.quantity, smp);
    var resting := false;
    if reason == Accepted && book.pool[id].leaves > 0 {
      if book.pool[id].RestsRemainder() {
        book.AddOrder(id, priority);
        resting := true;
      }
    }
    if !resting {
      book.Free(id);
    }
  }

  lemma InPool(s: State, m: Matched, agg: nat, limit: Price, qty: nat)
    requires Outcomes(s, m, agg, limit, qty)
    ensures agg in m.state.pool
  {
    hide Inv, View;
  }

  lemma AmendedInBook(e: Engine, smp: SmpMode, s: State, id: nat, price: Price, qty: nat)
    requires e.Valid() && Inv(s, {}) && id in s.orders
    ensures id in s.pool && Incoming(Marked(s, id), id, price, qty)
    ensures var m := Requests.MatchOrder(e, Marked(s, id), id, price, qty, smp);
            && id in m.state.pool
            && (m.reason == Accepted ==> id in m.state.orders && id in View(m.state.On(m.state.pool[id].side)))
  {
    hide View, Inv, Requests.MatchOrder, Incoming;
    OwnInPool(s, {});
    MarkedIsIncoming(s, id, price, qty);
    MatchOrderOutcomes(e, Marked(s, id), id, price, qty, smp);
    var m := Requests.MatchOrder(e, Marked(s, id), id, price, qty, smp);
    if m.reason == Accepted {
      AmendedRests(s, m.state, id);
    }
  }

  /** An amendment, at any price: the order keeps its place unless it moves or grows. */
  method ModifyOrder(e: Engine, smp: SmpMode, book: OrderBook, id: nat, price: Price, qty: nat, priority: nat)
    returns (reason: Reason, ctx: TradeSummaries.Context)
    requires e.Valid() && Inv(book.Now(), {}) && id in book.orders
    modifies book
    ensures id in old(book.pool)
    ensures book.Now() == Amend(e, smp, old(book.Now()), id, price, qty, priority).state
    ensures reason == Amend(e, smp, old(book.Now()), id, price, qty, priority).reason
    ensures var acts := Amend(e, smp, old(book.Now()), id, price, qty, priority).actions;
            CanRecord(TradeSummaries.START, acts)
            && ctx == TradeSummaries.Record(TradeSummaries.START, acts, old(book.orders), id)
    ensures Inv(book.Now(), {}) <==> price != NULL_PRICE || LeavesNothing(e, smp, old(book.Now()), id, price, qty)
  {
    hide View, Inv, Incoming, Requests.MatchOrder, SettleAmended, LeavesNothing, TradeSummaries.Record, CanRecord;
    ghost var s := book.Now();
    AmendedInBook(e, smp, s, id, price, qty);
    AmendSafeIff(e, smp, s, id, price, qty, priority);
    var requeue := price != book.pool[id].price || qty > book.pool[id].quantity;
    book.pool := book.pool[id := book.pool[id].(status := PendingReplace)];
    assert book.Now() == Marked(s, id);
    reason, ctx := MatchOrder(e, book, id, price, qty, smp);
    if reason == Accepted {
      book.SettleOrder(id, if requeue then priority else book.pool[id].priority);
    }
  }
}
