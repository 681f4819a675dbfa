/**
 Statements over whole runs: in every reachable state each client was told exactly what its orders
 did, own orders keep distinct places in the queue, and the credit table is its history.
 */
module StatementRuns {
  import opened Types
  import opened Queue
  import opened Orders
  import opened BookState
  import opened BookInvariant
  import opened BookOps
  import opened MatchPlan
  import opened Matching
  import opened Requests
  import opened RequestLaws
  import opened Feed
  import opened FeedMatching
  import opened Exchange
  import opened Runs
  import opened Statements
  import opened StatementLaws
  import FillAccounting
  import Rebuild
  import Mirror
  import TradeCredits
  import TradeSummaries

  // ----- feed operations

  lemma MatchFeedTold(e: Engine, s: State, aggSide: Side, limit: Price, qty: nat, seqNum: nat, places: map<nat, nat>)
    requires e.Valid() && Inv(s, {}) && !s.Refuses(seqNum) && Told(s, {}, places)
    ensures Told(MatchFeed(e, s, aggSide, limit, qty, seqNum).state, {}, places)
  {
    hide View, Distinct, Sorted, AllReal, PhantomAt, LookupsOk, IndexOk, Uncrossed, RestsAsRecorded;
    hide Plan, ApplyAll, Shrinks, ActionsOk, ActAll, Filled, Told;
    var t := FeedTerms(aggSide, limit);
    var o := Plan(e, t, s.On(t.side), qty);
    PlanSound(e, t, s.On(t.side), qty);
    PlanCancelsOwn(e, t, s.On(t.side), qty, {});
    NoSelfNoCancel(o.actions);
    ApplyAllTold(s, t.side, None, o.actions, seqNum, s.orders, places);
  }

  lemma AddTold(s: State, side: Side, x: Resting, seqNum: nat, places: map<nat, nat>)
    requires Told(s, {}, places) && x.id !in s.orders && !s.Refuses(seqNum)
    ensures Told(L3Add(s, side, x, seqNum), {}, places)
  {
    hide Insert, Told;
    SameTold(s, L3Add(s, side, x, seqNum), {}, places);
  }

  lemma MatchThenRestTold(e: Engine, s: State, aggSide: Side, x: Resting, seqNum: nat, places: map<nat, nat>)
    requires e.Valid() && Inv(s, {}) && !s.Refuses(seqNum) && Unused(s, x.id) && Told(s, {}, places)
    ensures Told(MatchThenRest(e, s, aggSide, x, seqNum).state, {}, places)
  {
    hide View, MatchFeed, FitsBeside, ActionsOk, ActAll, Filled, L3Add, Told;
    hide PhantomAt, LookupsOk, IndexOk, Uncrossed, RestsAsRecorded, QueuesOk;
    assert s.orders <= s.pool.Keys;
    MatchFeedKeeps(e, s, aggSide, x.price, x.qty, seqNum);
    MatchFeedTold(e, s, aggSide, x.price, x.qty, seqNum, places);
    var m := MatchFeed(e, s, aggSide, x.price, x.qty, seqNum);
    if m.remaining > 0 {
      AddTold(m.state, aggSide, x.(qty := m.remaining), seqNum, places);
    }
  }

  lemma DeleteTold(s: State, id: nat, places: map<nat, nat>)
    requires Inv(s, {}) && id !in s.orders && Told(s, {}, places)
    ensures Told(Mirror.DeleteOrder(s, id), {}, places)
  {
    hide View, Told, Inv, Resized;
    if Mirror.IsResting(s, id) {
      ResizeShape(s, Mirror.SideOf(s, id), id, 0, 0);
    }
    hide L3Resize;
    SameTold(s, Mirror.DeleteOrder(s, id), {}, places);
  }

  lemma ModifyTold(s: State, id: nat, price: Price, qty: nat, places: map<nat, nat>)
    requires Inv(s, {}) && Mirror.IsResting(s, id) && id !in s.orders && Told(s, {}, places)
    ensures Told(Mirror.ModifyOrder(s, id, price, qty), {}, places)
  {
    hide View, Told, Inv, Resized, Insert, Resize;
    var side := Mirror.SideOf(s, id);
    var was := View(s.On(side))[id];
    if qty == 0 || price == was.price {
      ResizeShape(s, side, id, qty, 0);
    } else {
      Mirror.MoveShape(s, side, Resting(id, price, qty, was.priority));
    }
    hide L3Resize, L3Move;
    SameTold(s, Mirror.ModifyOrder(s, id, price, qty), {}, places);
  }

  lemma MarketOrderTold(e: Engine, s: State, ev: Mirror.Event, places: map<nat, nat>)
    requires e.Valid() && Inv(s, {}) && Mirror.Admissible(s, ev) && Told(s, {}, places)
    ensures Told(Mirror.ApplyMarketOrder(e, s, ev), {}, places)
  {
    hide View, Distinct, Sorted, PhantomAt, IndexOk, RestsAsRecorded, QueuesOk, Uncrossed, LookupsOk;
    hide MatchThenRest, Mirror.ModifyOrder, Mirror.DeleteOrder, FitsBeside, Told;
    match ev
    case NewMarketOrder(side, id, price, qty, priority) =>
      MatchThenRestTold(e, s, side, Resting(id, price, qty, priority), 0, places);
    case DeleteMarketOrder(id) =>
      DeleteTold(s, id, places);
    case ChangeMarketOrder(side, id, price, qty, priority, requeue) =>
      if Mirror.IsResting(s, id) && !requeue {
        ModifyTold(s, id, price, qty, places);
      } else {
        Mirror.DeleteKeeps(s, id);
        DeleteTold(s, id, places);
        hide Inv;
        MatchThenRestTold(e, Mirror.DeleteOrder(s, id), side, Resting(id, price, qty, priority), 0, places);
      }
  }

  // ----- events

  /** Places already given are below the counter, and no two orders have the same one. */
  ghost predicate Placed(places: map<nat, nat>, next: nat) {
    && (forall i :: i in places ==> places[i] < next)
    && (forall i, j :: i in places && j in places && i != j ==> places[i] != places[j])
  }

  ghost predicate Tracked(x: Venue, places: map<nat, nat>, next: nat) {
    Told(x.book, {}, places) && Placed(places, next)
  }

  /** An event draws a priority for an own order only when one comes to rest, or an accepted amendment moves or grows one. */
  ghost predicate Draws(cfg: Config, x: Venue, ev: Event)
    requires cfg.engine.Valid()
  {
    match ev
    case New(id, _, _) => id in Step(cfg, x, ev).book.pool
    case Amend(c, o, price, qty, priority) =>
      var target := Find(x.book, c, o);
      && target.Some? && target.value in x.book.pool && Requeues(x.book, target.value, price, qty)
      && Requests.Amend(cfg.engine, cfg.smp, x.book, target.value, price, qty, priority).reason == Accepted
    case _ => false
  }

  /** Internal ids and priorities come from counters: an id is never used twice, a drawn priority is above all earlier ones. */
  ghost predicate FreshlyDrawn(cfg: Config, x: Venue, ev: Event, next: nat)
    requires cfg.engine.Valid()
  {
    && (Draws(cfg, x, ev) ==> ev.priority >= next)
    && (ev.New? ==> ev.order.cumValue == 0 && StandingOf(x.book.reports, ev.id).Silent?)
  }

  ghost function NextPriority(cfg: Config, x: Venue, ev: Event, next: nat): nat
    requires cfg.engine.Valid()
  {
    if Draws(cfg, x, ev) then ev.priority + 1 else next
  }

  lemma NewPlace(places: map<nat, nat>, next: nat, id: nat, priority: nat)
    requires Placed(places, next) && priority >= next
    ensures Placed(places[id := priority], priority + 1)
  {
  }

  /** An order that did not come to rest needs no place. */
  lemma PlaceNotTaken(s: State, places: map<nat, nat>, id: nat, p: nat)
    requires Told(s, {}, places[id := p]) && id !in s.pool
    ensures Told(s, {}, places)
  {
    hide StandingOf;
  }

  lemma NewTracked(cfg: Config, x: Venue, id: nat, o: Order, priority: nat, places: map<nat, nat>, next: nat)
    returns (places': map<nat, nat>)
    requires cfg.engine.Valid() && VenueInv(x) && Admissible(cfg, x, New(id, o, priority))
    requires Tracked(x, places, next) && FreshlyDrawn(cfg, x, New(id, o, priority), next)
    ensures Tracked(HandleNew(cfg, x, id, o, priority), places', NextPriority(cfg, x, New(id, o, priority), next))
  {
    hide View, NewOrder, PhantomAt, IndexOk, Uncrossed, QueuesOk, RestsAsRecorded, Told, StandingOf, Placed;
    if o.clientOrderId != "" && o.clientOrderId in x.book.byClient {
      return places;
    }
    assert o.clientOrderId !in x.book.byClient;
    hide LookupsOk;
    NewOrderTold(cfg.engine, cfg.smp, x.book, id, o, priority, places);
    if Draws(cfg, x, New(id, o, priority)) {
      NewPlace(places, next, id, priority);
      return places[id := priority];
    }
    PlaceNotTaken(HandleNew(cfg, x, id, o, priority).book, places, id, priority);
    return places;
  }

  lemma AmendTracked(cfg: Config, x: Venue, c: string, o: string, price: Price, qty: nat, priority: nat,
                     places: map<nat, nat>, next: nat)
    returns (places': map<nat, nat>)
    requires cfg.engine.Valid() && VenueInv(x) && Admissible(cfg, x, Exchange.Amend(c, o, price, qty, priority))
    requires Tracked(x, places, next) && FreshlyDrawn(cfg, x, Exchange.Amend(c, o, price, qty, priority), next)
    ensures Tracked(HandleAmend(cfg, x, Find(x.book, c, o), price, qty, priority), places',
                    NextPriority(cfg, x, Exchange.Amend(c, o, price, qty, priority), next))
  {
    hide View, Requests.Amend, PhantomAt, IndexOk, Uncrossed, QueuesOk, RestsAsRecorded, LeavesNothing, Told, Placed;
    var target := Find(x.book, c, o);
    if target.None? {
      return places;
    }
    FoundIsOwn(x.book, c, o);
    hide LookupsOk, Find;
    var id := target.value;
    AmendSafeIff(cfg.engine, cfg.smp, x.book, id, price, qty, priority);
    AmendTold(cfg.engine, cfg.smp, x.book, id, price, qty, priority, places);
    if Draws(cfg, x, Exchange.Amend(c, o, price, qty, priority)) {
      NewPlace(places, next, id, priority);
      return places[id := priority];
    }
    return places;
  }

  lemma CancelTracked(x: Venue, c: string, o: string, places: map<nat, nat>)
    requires VenueInv(x) && Told(x.book, {}, places)
    ensures Told(HandleCancel(x, Find(x.book, c, o)).book, {}, places)
  {
    hide View, CancelOwn, PhantomAt, IndexOk, Uncrossed, QueuesOk, RestsAsRecorded, Told;
    var target := Find(x.book, c, o);
    if target.Some? {
      FoundIsOwn(x.book, c, o);
      hide LookupsOk, Find;
      CancelOwnTold(x.book, {}, target.value, places);
    }
  }

  lemma LevelTold(cfg: Config, x: Venue, side: Side, r: Resting, time: nat, places: map<nat, nat>)
    requires cfg.engine.Valid() && VenueInv(x) && Unused(x.book, r.id) && r.price != NULL_PRICE
    requires !x.book.Refuses(Stamp(cfg, x)) && Told(x.book, {}, places)
    ensures Told(HandleLevel(cfg, x, side, r, time).book, {}, places)
  {
    hide Inv, MatchThenRest, Unused, ReconcileLevel, HasLevel, TradeCredits.TakeTradedQty, Told;
    if HasLevel(x.book, side, r.price) {
      var unreflected := TradeCredits.TakeTradedQty(x.credits, (side, r.price), time).1;
      var target := Offset(r.qty, unreflected);
      ReconcileExact(x.book, side, r.price, target, r.id, r.priority, Stamp(cfg, x));
      SameTold(x.book, ReconcileLevel(x.book, side, r.price, target, r.id, r.priority, Stamp(cfg, x)), {}, places);
    } else {
      MatchThenRestTold(cfg.engine, x.book, side, r, Stamp(cfg, x), places);
    }
  }

  lemma PrintTold(cfg: Config, x: Venue, side: Side, r: Resting, time: nat, places: map<nat, nat>)
    requires cfg.engine.Valid() && VenueInv(x) && Unused(x.book, r.id)
    requires !x.book.Refuses(Stamp(cfg, x)) && Told(x.book, {}, places)
    ensures Told(HandlePrint(cfg, x, side, r, time).book, {}, places)
  {
    hide Inv, MatchThenRest, Unused, CreditAll, Told, TradeSummaries.Record;
    MatchThenRestTold(cfg.engine, x.book, side, r, Stamp(cfg, x), places);
  }

  /** Every feed event leaves statements and places as they were. */
  lemma FeedTold(cfg: Config, x: Venue, ev: Event, places: map<nat, nat>)
    requires cfg.engine.Valid() && VenueInv(x) && Admissible(cfg, x, ev) && !ev.New? && !ev.Amend?
    requires Told(x.book, {}, places)
    ensures Told(Step(cfg, x, ev).book, {}, places)
  {
    hide Inv, HandleNew, HandleAmend, HandleCancel, HandleLevel, HandlePrint, Unused, Find, Exchange.Drawn, Stamp, Told;
    hide Rebuild.ClearMdOrders, Mirror.ApplyMarketOrder, MatchFeed, Mirror.Admissible, Rebuild.Lists, Rebuild.BackIn, MatchThenRest;
    DrawnStamp(cfg, x);
    var y := Exchange.Drawn(cfg, x);
    match ev
    case Cancel(c, o) => CancelTracked(x, c, o, places);
    case LevelUpdate(side, price, qty, time, id, priority) =>
      LevelTold(cfg, y, side, Resting(id, price, qty, priority), time, places);
    case TradePrint(side, price, qty, time, id, priority) =>
      PrintTold(cfg, y, side, Resting(id, price, qty, priority), time, places);
    case SnapshotBegin(ids) =>
      Rebuild.ClearMdOrdersKeeps(x.book, ids);
      SameTold(x.book, Rebuild.ClearMdOrders(x.book, ids), {}, places);
    case SnapshotLevel(side, price, qty, time, id, priority) =>
      CurrentStamp(cfg, x);
      MatchThenRestTold(cfg.engine, x.book, side, Resting(id, price, qty, priority), Stamp(cfg, x), places);
    case MarketOrder(e) => MarketOrderTold(cfg.engine, x.book, e, places);
    case MarketTrade(side, price, qty) => MatchFeedTold(cfg.engine, x.book, side, price, qty, 0, places);
  }

  lemma StepTracked(cfg: Config, x: Venue, ev: Event, places: map<nat, nat>, next: nat) returns (places': map<nat, nat>)
    requires cfg.engine.Valid() && VenueInv(x) && Admissible(cfg, x, ev) && Tracked(x, places, next) && FreshlyDrawn(cfg, x, ev, next)
    ensures Tracked(Step(cfg, x, ev), places', NextPriority(cfg, x, ev, next))
  {
    hide Inv, HandleNew, HandleAmend, Told, Placed, Unused;
    if ev.New? {
      places' := NewTracked(cfg, x, ev.id, ev.order, ev.priority, places, next);
    } else if ev.Amend? {
      places' := AmendTracked(cfg, x, ev.clientOrderId, ev.orderId, ev.price, ev.qty, ev.priority, places, next);
    } else {
      FeedTold(cfg, x, ev, places);
      places' := places;
    }
  }

  // ----- runs

  ghost predicate DrawnRun(cfg: Config, x: Venue, run: seq<Event>, next: nat)
    requires cfg.engine.Valid()
    decreases |run|
  {
    run != [] ==>
      FreshlyDrawn(cfg, x, run[0], next) && DrawnRun(cfg, Step(cfg, x, run[0]), run[1..], NextPriority(cfg, x, run[0], next))
  }

  lemma {:induction false} RunTracked(cfg: Config, x: Venue, run: seq<Event>, places: map<nat, nat>, next: nat)
    returns (places': map<nat, nat>, next': nat)
    requires cfg.engine.Valid() && VenueInv(x) && AdmissibleRun(cfg, x, run) && DrawnRun(cfg, x, run, next)
    requires Tracked(x, places, next)
    ensures Tracked(Run(cfg, x, run), places', next') && VenueInv(Run(cfg, x, run))
    decreases |run|
  {
    hide VenueInv, Step, Admissible, Tracked, FreshlyDrawn;
    if run == [] {
      return places, next;
    }
    StepKeeps(cfg, x, run[0]);
    var p := StepTracked(cfg, x, run[0], places, next);
    places', next' := RunTracked(cfg, Step(cfg, x, run[0]), run[1..], p, NextPriority(cfg, x, run[0], next));
  }

  /** A live order's account, as a reader of its reports would draw it up. */
  ghost predicate AccountOk(s: State, id: nat, lo: Price, hi: Price)
    requires id in s.pool
  {
    var o := s.pool[id];
    && o.cum == ExecutedQty(s.reports, id) && o.cumValue == ExecutedValue(s.reports, id)
    && o.cum + o.leaves == o.quantity && !HasTerminal(s.reports, id)
    && (o.cum > 0 && PricesWithin(s.reports, id, lo, hi) ==> lo <= o.avg <= hi)
  }

  lemma AccountIs(s: State, places: map<nat, nat>, id: nat, lo: Price, hi: Price)
    requires Inv(s, {}) && Told(s, {}, places)
    ensures !StandingOf(s.reports, id).Broken?
    ensures id in s.orders ==> id in s.pool && AccountOk(s, id, lo, hi)
    ensures id !in s.orders ==> StandingOf(s.reports, id).Silent? || StandingOf(s.reports, id).Shut?
  {
    hide View, QueuesOk, Uncrossed, IndexOk, LookupsOk, StandingOf, ExecutedQty, ExecutedValue, PricesWithin, HasTerminal, TerminalIsLast;
    if id in s.orders {
      assert RestsAsRecorded(s, id);
      StandingMeans(s.reports, id);
      var o := s.pool[id];
      if o.cum > 0 && PricesWithin(s.reports, id, lo, hi) {
        ValueBetween(s.reports, id, lo, hi);
        FillAccounting.QuotientBetween(o.cumValue, o.cum, lo, hi);
      }
    }
  }

  /**
   In every reachable state, for every order id: nothing was reported out of turn and nothing follows a
   terminal report; a live order has had none, its cumulative quantity and value are the sums over its
   execution reports, its quantities add up and its average lies between its lowest and highest reported
   price; an order that is gone was never reported or has had its terminal report. No two own orders
   share a place in the queue.
   */
  lemma StatementSafety(cfg: Config, run: seq<Event>, id: nat, lo: Price, hi: Price)
    requires cfg.engine.Valid() && AdmissibleRun(cfg, START, run) && DrawnRun(cfg, START, run, 0)
    ensures var s := Run(cfg, START, run).book;
            && s.orders == s.pool.Keys && TerminalIsLast(s.reports, id)
            && (id in s.orders ==> AccountOk(s, id, lo, hi))
            && (id !in s.orders ==> HasTerminal(s.reports, id) || forall i :: 0 <= i < |s.reports| ==> s.reports[i].id != id)
            && (forall i, j :: i in s.orders && j in s.orders && i != j ==> s.pool[i].priority != s.pool[j].priority)
  {
    StartInv();
    StartTracked();
    hide AdmissibleRun, DrawnRun, Run;
    var places, next := RunTracked(cfg, START, run, map[], 0);
    var s := Run(cfg, START, run).book;
    AccountIs(s, places, id, lo, hi);
    StandingMeans(s.reports, id);
    PlacesDiffer(s, places, next);
    hide Told, Placed, StandingOf, AccountOk;
    assert s.pool.Keys == s.orders + {};
  }

  lemma StartTracked()
    ensures Tracked(START, map[], 0)
  {
  }

  lemma PlacesDiffer(s: State, places: map<nat, nat>, next: nat)
    requires Told(s, {}, places) && Placed(places, next)
    ensures forall i, j :: i in s.pool && j in s.pool && i != j ==> s.pool[i].priority != s.pool[j].priority
  {
    hide StandingOf;
  }
}
