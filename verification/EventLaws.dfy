/** What each event of the exchange does, seen from outside: which order it finds and what it leaves behind. */
module EventLaws {
  import opened Types
  import opened Queue
  import opened Orders
  import opened BookState
  import opened BookInvariant
  import opened BookOps
  import opened MatchPlan
  import opened Matching
  import opened Requests
  import opened RequestLaws
  import opened Feed
  import opened FeedMatching
  import opened Exchange
  import opened Runs
  import opened Liquidity
  import opened OrderFates
  import Mirror
  import Rebuild
  import TradeCredits
  import TradeSummaries

  // ----- finding an order

  /** A client order id names the live order that carries it; without one, the order id does. */
  ghost predicate Names(s: State, c: string, o: string, id: nat) {
    id in s.orders && id in s.pool
    && if c != "" then s.pool[id].clientOrderId == c else o != "" && s.pool[id].orderId == o
  }

  /** The lookup answers exactly the live order named, and nothing when none is. */
  lemma FindExact(s: State, c: string, o: string)
    requires LookupsOk(s)
    ensures forall id: nat :: Find(s, c, o) == Some(id) <==> Names(s, c, o, id)
    ensures Find(s, c, o).None? <==> forall id :: !Names(s, c, o, id)
  {
    forall id: nat ensures Find(s, c, o) == Some(id) <==> Names(s, c, o, id) {
    }
    if Find(s, c, o).Some? {
      assert Names(s, c, o, Find(s, c, o).value);
    }
  }

  lemma LookupsNow(x: Venue)
    requires VenueInv(x)
    ensures LookupsOk(x.book)
  {
  }

  /** A cancel that names a live order takes it out of book, maps and pool and tells its owner; nothing else moves. */
  lemma CancelTakesOut(cfg: Config, x: Venue, c: string, o: string, id: nat)
    requires cfg.engine.Valid() && VenueInv(x) && Names(x.book, c, o, id)
    ensures var y, side := Step(cfg, x, Exchange.Cancel(c, o)), x.book.pool[id].side;
            && Gone(y.book, id) && y.book.reports == x.book.reports + [Cancelled(id)]
            && y.book.orders == x.book.orders - {id} && y.book.pool == x.book.pool - {id} && y.book.md == x.book.md
            && View(y.book.On(side)) == View(x.book.On(side)) - {id}
            && y.book.On(Opposite(side)) == x.book.On(Opposite(side))
            && y == x.(book := y.book)
  {
    hide View, Inv, Find, CancelOwn, Resize;
    LookupsNow(x);
    FindExact(x.book, c, o);
    CancelledOrder(x.book, id);
  }

  lemma CancelledOrder(s: State, id: nat)
    requires Inv(s, {}) && id in s.orders
    ensures id in s.pool && id in View(s.On(s.pool[id].side))
    ensures var t, side := CancelOwn(s, id), s.pool[id].side;
            && Gone(t, id) && t.reports == s.reports + [Cancelled(id)]
            && t.orders == s.orders - {id} && t.pool == s.pool - {id} && t.md == s.md
            && View(t.On(side)) == View(s.On(side)) - {id}
            && t.On(Opposite(side)) == s.On(Opposite(side))
  {
    hide View, Distinct, Sorted, PhantomAt, IndexOk, LookupsOk, Uncrossed, CancelOwn, Resize;
    assert RestsAsRecorded(s, id);
    assert s.pool[id].quantity != 0;
    CancelOwnShape(s, id);
    var t, side := CancelOwn(s, id), s.pool[id].side;
    GoneOthers(s, t, side, id);
    SideIsOk(s, side);
    ResizeView(s.On(side), id, 0);
    assert t.On(side) == Resize(s.On(side), id, 0) && t.On(Opposite(side)) == s.On(Opposite(side));
  }

  /** A request that names no live order changes nothing. */
  lemma UnknownChangesNothing(cfg: Config, x: Venue, c: string, o: string, price: Price, qty: nat, priority: nat)
    requires cfg.engine.Valid() && VenueInv(x) && forall id :: !Names(x.book, c, o, id)
    ensures Step(cfg, x, Exchange.Cancel(c, o)) == x && Step(cfg, x, Exchange.Amend(c, o, price, qty, priority)) == x
  {
    LookupsNow(x);
    FindExact(x.book, c, o);
  }

  /** An amendment reaches the order it names: what becomes of that order is its fate as an amended order. */
  lemma AmendReaches(cfg: Config, x: Venue, c: string, o: string, id: nat, price: Price, qty: nat, priority: nat)
    requires cfg.engine.Valid() && VenueInv(x) && Names(x.book, c, o, id)
    ensures Step(cfg, x, Exchange.Amend(c, o, price, qty, priority))
            == x.(book := Requests.Amend(cfg.engine, cfg.smp, x.book, id, price, qty, priority).state)
  {
    hide Requests.Amend, Find, Inv;
    LookupsNow(x);
    FindExact(x.book, c, o);
  }

  /** A new order is taken up unless its client order id already names a live one, and then nothing happens. */
  lemma NewReaches(cfg: Config, x: Venue, id: nat, o: Order, priority: nat)
    requires cfg.engine.Valid() && VenueInv(x)
    ensures var taken := exists j :: Names(x.book, o.clientOrderId, "", j);
            Step(cfg, x, New(id, o, priority)) ==
            if taken then x else x.(book := NewOrder(cfg.engine, cfg.smp, x.book, id, o, priority).state)
  {
    hide NewOrder, Inv;
    LookupsNow(x);
    FindExact(x.book, o.clientOrderId, "");
  }

  /** Every own order resting after any run is a priced order good for the day, till cancelled or till a date. */
  lemma OnlyRestingKinds(cfg: Config, run: seq<Event>)
    requires cfg.engine.Valid() && AdmissibleRun(cfg, START, run)
    ensures var s := Run(cfg, START, run).book;
            forall id :: id in s.orders ==>
              id in s.pool && s.pool[id].price != NULL_PRICE
              && (s.pool[id].tif == Day || s.pool[id].tif == GoodTillCancel || s.pool[id].tif == GoodTillDate)
  {
    hide Run, AdmissibleRun, View;
    Safety(cfg, run);
    var s := Run(cfg, START, run).book;
    forall id | id in s.orders ensures id in s.pool && MayRest(s.pool[id].price, s.pool[id].tif) {
      assert RestsAsRecorded(s, id);
    }
  }

  // ----- stamps and refusals

  /** Every drawn stamp is above the one before and above everything the book has seen. */
  lemma StampsRise(cfg: Config, x: Venue)
    requires cfg.stamps
    ensures var y := Drawn(cfg, x);
            && Stamp(cfg, y) > x.nextBookSeq && Stamp(cfg, y) > x.book.lastSeq
            && y == x.(nextBookSeq := Stamp(cfg, y))
  {
  }

  /** A book operation with a non-zero sequence below the last one is ignored; any other takes place and is remembered. */
  lemma RegressionIsIgnored(s: State, side: Side, x: Resting, seqNum: nat)
    requires x.id !in s.orders
    ensures var t := L3Add(s, side, x, seqNum);
            if 0 < seqNum < s.lastSeq then t == s
            else t.On(side) == Insert(side, s.On(side), x) && t.lastSeq == if seqNum > 0 then seqNum else s.lastSeq
  {
    hide Insert;
  }

  /** A feed match is declined exactly when its sequence regresses and something could trade; then nothing changes. */
  lemma DeclinedIff(e: Engine, s: State, side: Side, limit: Price, qty: nat, seqNum: nat)
    requires e.Valid() && Inv(s, {})
    ensures var m, opp := MatchFeed(e, s, side, limit, qty, seqNum), Opposite(side);
            && (m.declined <==> 0 < seqNum < s.lastSeq && qty > 0 && Tradable(opp, s.On(opp), limit, {}) > 0)
            && (m.declined ==> m.state == s && m.remaining == qty)
            && (!m.declined ==>
                  && Filled(m.actions) == Min(qty, Tradable(opp, s.On(opp), limit, {})) && m.remaining == qty - Filled(m.actions)
                  && PaysWithin(opp, m.actions, limit))
  {
    hide Inv, Plan, ApplyAll, Tradable, ActionsOk, ActAll;
    var t := FeedTerms(side, limit);
    var q := s.On(t.side);
    SideIsOk(s, t.side);
    NotTurnedBack(e, t, q, qty);
    MatchTakes(e, t, q, qty);
    FillsArePositive(e, t, q, qty);
  }

  /** A plan with an action in it fills something, when nothing can be a self match. */
  lemma FillsArePositive(e: Engine, t: Terms, q: seq<Resting>, qty: nat)
    requires e.Valid() && WellFormed(t.side, q) && t.smp == SmpNone
    ensures Plan(e, t, q, qty).actions == [] <==> Filled(Plan(e, t, q, qty).actions) == 0
  {
    hide View, WellFormed, Plan;
    var acts := Plan(e, t, q, qty).actions;
    PlanKeepsApart(e, t, q, qty);
    TradeSummaries.PlanWorsens(e, t, q, qty);
    if acts != [] {
      assert acts[0].Fill? && acts[0].qty > 0;
    }
  }

  // ----- liquidity that matches first and then rests

  /** What market liquidity `x` on `side` does to a book: it trades what it can at prices it accepts and rests the rest behind its level. */
  ghost predicate TradesThenRests(e: Engine, s: State, t: State, side: Side, x: Resting, mayRest: bool)
    requires e.Valid()
  {
    var opp, q := Opposite(side), s.On(side);
    var acts := Plan(e, FeedTerms(side, x.price), s.On(opp), x.qty).actions;
    var traded := Filled(acts);
    && traded == Min(x.qty, Tradable(opp, s.On(opp), x.price, {})) && PaysWithin(opp, acts, x.price)
    && ActionsOk(s.On(opp), acts) && t.On(opp) == ActAll(s.On(opp), acts)
    && t.On(side) == if mayRest && traded < x.qty then Insert(side, q, x.(qty := x.qty - traded)) else q
  }

  lemma FeedTrades(e: Engine, s: State, side: Side, x: Resting, seqNum: nat)
    requires e.Valid() && Inv(s, {}) && !s.Refuses(seqNum)
    ensures TradesThenRests(e, s, MatchFeed(e, s, side, x.price, x.qty, seqNum).state, side, x, false)
    ensures var m := MatchFeed(e, s, side, x.price, x.qty, seqNum);
            && m.remaining == x.qty - Filled(m.actions)
            && m.actions == Plan(e, FeedTerms(side, x.price), s.On(Opposite(side)), x.qty).actions
  {
    hide View, Inv, Plan, ApplyAll, Tradable, ActionsOk, ActAll, FitsBeside, Shrinks, WellFormed;
    var t := FeedTerms(side, x.price);
    var q := s.On(t.side);
    SideIsOk(s, t.side);
    NotTurnedBack(e, t, q, x.qty);
    MatchTakes(e, t, q, x.qty);
    MatchFeedKeeps(e, s, side, x.price, x.qty, seqNum);
    OtherSide(s, MatchFeed(e, s, side, x.price, x.qty, seqNum).state, side);
  }

  lemma OtherSide(s: State, t: State, side: Side)
    requires Shrinks(s, t, Opposite(side), None)
    ensures t.On(side) == s.On(side) && t.orders <= s.orders
  {
    hide View;
    assert Opposite(Opposite(side)) == side;
  }

  /** Level updates of new levels, prints, snapshot levels and mirrored orders all go through this. */
  lemma RestsWhatIsLeft(e: Engine, s: State, side: Side, x: Resting, seqNum: nat)
    requires e.Valid() && Inv(s, {}) && !s.Refuses(seqNum) && Unused(s, x.id)
    ensures TradesThenRests(e, s, MatchThenRest(e, s, side, x, seqNum).state, side, x, true)
  {
    hide View, Inv, MatchFeed, Plan, Tradable, ActionsOk, ActAll, FitsBeside, Shrinks, Insert;
    FeedTrades(e, s, side, x, seqNum);
    MatchFeedKeeps(e, s, side, x.price, x.qty, seqNum);
    var m := MatchFeed(e, s, side, x.price, x.qty, seqNum);
    OtherSide(s, m.state, side);
    UnusedNotOwn(s, x.id);
    if m.remaining > 0 {
      var y := x.(qty := m.remaining);
      AddShape(m.state, side, y, seqNum);
      var t := L3Add(m.state, side, y, seqNum);
      hide L3Add;
      assert t.On(side) == Insert(side, s.On(side), y) && t.On(Opposite(side)) == m.state.On(Opposite(side));
    }
  }

  lemma UnusedNotOwn(s: State, id: nat)
    requires Inv(s, {}) && Unused(s, id)
    ensures id !in s.orders
  {
    hide View, QueuesOk, Uncrossed, IndexOk, RestsAsRecorded;
  }

  // ----- the feed's events

  /** A level update older than the last one is skipped: only a stamp is drawn. */
  lemma StaleIsSkipped(cfg: Config, x: Venue, side: Side, price: Price, qty: nat, time: nat, id: nat, priority: nat)
    requires cfg.engine.Valid() && cfg.stamps && time < x.lastUpdate
    ensures Step(cfg, x, LevelUpdate(side, price, qty, time, id, priority)) == Drawn(cfg, x)
  {
    hide ReconcileLevel, MatchThenRest, HasLevel, TradeCredits.TakeTradedQty;
  }

  /** Any other level update is applied, and the next one is measured against its time. */
  lemma UpdateRemembersTime(cfg: Config, x: Venue, side: Side, price: Price, qty: nat, time: nat, id: nat, priority: nat)
    requires cfg.engine.Valid() && !(cfg.stamps && time < x.lastUpdate)
    ensures Step(cfg, x, LevelUpdate(side, price, qty, time, id, priority)).lastUpdate == time
  {
    hide ReconcileLevel, MatchThenRest, HasLevel, TradeCredits.TakeTradedQty;
  }

  /** On a stamped feed the time of the last update never goes back, whatever the event. */
  lemma TimeNeverGoesBack(cfg: Config, x: Venue, ev: Event)
    requires cfg.engine.Valid() && cfg.stamps
    ensures Step(cfg, x, ev).lastUpdate >= x.lastUpdate
  {
    hide ReconcileLevel, MatchThenRest, HasLevel, TradeCredits.TakeTradedQty, MatchFeed, NewOrder, Requests.Amend, CancelOwn, Find;
    hide Rebuild.ClearMdOrders, Mirror.ApplyMarketOrder, CreditAll, TradeSummaries.Record;
  }

  /** A level that is not there yet trades what it can and rests the rest. */
  lemma NewLevelLaw(cfg: Config, x: Venue, side: Side, price: Price, qty: nat, time: nat, id: nat, priority: nat)
    requires cfg.engine.Valid() && VenueInv(x) && Admissible(cfg, x, LevelUpdate(side, price, qty, time, id, priority))
    requires !(cfg.stamps && time < x.lastUpdate)
    requires forall j :: j in View(x.book.On(side)) ==> View(x.book.On(side))[j].price != price
    ensures var y := Step(cfg, x, LevelUpdate(side, price, qty, time, id, priority));
            TradesThenRests(cfg.engine, x.book, y.book, side, Resting(id, price, qty, priority), true) && y.credits == x.credits
  {
    hide Inv, MatchThenRest, View, TradesThenRests, Unused;
    DrawnStamp(cfg, x);
    RestsWhatIsLeft(cfg.engine, x.book, side, Resting(id, price, qty, priority), Stamp(cfg, Drawn(cfg, x)));
  }

  /** A trade print does the same. */
  lemma PrintLaw(cfg: Config, x: Venue, side: Side, price: Price, qty: nat, time: nat, id: nat, priority: nat)
    requires cfg.engine.Valid() && VenueInv(x) && Admissible(cfg, x, TradePrint(side, price, qty, time, id, priority))
    ensures var y := Step(cfg, x, TradePrint(side, price, qty, time, id, priority));
            && TradesThenRests(cfg.engine, x.book, y.book, side, Resting(id, price, qty, priority), true)
            && y.lastUpdate == x.lastUpdate
  {
    hide Inv, MatchThenRest, TradesThenRests, Unused, CreditAll, TradeSummaries.Record;
    DrawnStamp(cfg, x);
    RestsWhatIsLeft(cfg.engine, x.book, side, Resting(id, price, qty, priority), Stamp(cfg, Drawn(cfg, x)));
  }

  /** So does every level of a snapshot, and the update time only moves forward. */
  lemma SnapshotLevelLaw(cfg: Config, x: Venue, side: Side, price: Price, qty: nat, time: nat, id: nat, priority: nat)
    requires cfg.engine.Valid() && VenueInv(x) && Admissible(cfg, x, SnapshotLevel(side, price, qty, time, id, priority))
    ensures var y := Step(cfg, x, SnapshotLevel(side, price, qty, time, id, priority));
            && TradesThenRests(cfg.engine, x.book, y.book, side, Resting(id, price, qty, priority), true)
            && y.lastUpdate == (if time > x.lastUpdate then time else x.lastUpdate) && y.credits == x.credits
  {
    hide Inv, MatchThenRest, TradesThenRests, Unused;
    CurrentStamp(cfg, x);
    RestsWhatIsLeft(cfg.engine, x.book, side, Resting(id, price, qty, priority), Stamp(cfg, x));
  }

  /** A mirrored trade takes what it can and rests nothing. */
  lemma MarketTradeLaw(cfg: Config, x: Venue, side: Side, price: Price, qty: nat)
    requires cfg.engine.Valid() && VenueInv(x)
    ensures var y := Step(cfg, x, MarketTrade(side, price, qty));
            TradesThenRests(cfg.engine, x.book, y.book, side, Resting(0, price, qty, 0), false) && y.credits == x.credits
  {
    hide Inv, MatchFeed, TradesThenRests;
    FeedTrades(cfg.engine, x.book, side, Resting(0, price, qty, 0), 0);
  }

  /** Whatever rests is one of our own orders, with the price, quantity and priority it had. */
  ghost predicate OnlyOurs(ours: set<nat>, q: seq<Resting>, was: seq<Resting>) {
    forall id :: id in View(q) ==> id in ours && id in View(was) && View(q)[id] == View(was)[id]
  }

  /** The start of a snapshot leaves our own orders and no phantom quantity at any price. */
  lemma SnapshotBeginLaw(cfg: Config, x: Venue, ids: seq<nat>)
    requires cfg.engine.Valid() && VenueInv(x) && Rebuild.Lists(ids, x.book.orders)
    ensures var y := Step(cfg, x, SnapshotBegin(ids));
            && OnlyOurs(x.book.orders, y.book.bids, x.book.bids) && OnlyOurs(x.book.orders, y.book.asks, x.book.asks)
            && (forall id :: id in x.book.orders ==> RestsAsRecorded(y.book, id))
            && SameOwners(x.book, y.book) && y.book.reports == x.book.reports && y.credits == x.credits
  {
    hide View, Inv, Rebuild.ClearMdOrders, Rebuild.Lists, RestsAsRecorded;
    Rebuild.ClearMdOrdersKeeps(x.book, ids);
  }

  // ----- mirrored orders

  /** Nothing but the named order's own rest is touched. */
  ghost predicate OnlyThis(s: State, t: State, id: nat, x: Option<Resting>, side: Side) {
    && SameOwners(s, t) && t.reports == s.reports
    && View(t.On(side)) == (if x.Some? then View(s.On(side))[id := x.value] else View(s.On(side)) - {id})
    && t.On(Opposite(side)) == s.On(Opposite(side))
  }

  /** The order rests on this side, or nowhere. */
  ghost predicate RestsOn(s: State, id: nat, side: Option<Side>) {
    if side.Some? then id in View(s.On(side.value)) else id !in View(s.bids) && id !in View(s.asks)
  }

  /** A deletion removes the order wherever it rests; of an order already gone it does nothing. */
  lemma DeleteLaw(cfg: Config, x: Venue, id: nat, side: Option<Side>)
    requires cfg.engine.Valid() && VenueInv(x) && Admissible(cfg, x, MarketOrder(Mirror.DeleteMarketOrder(id)))
    requires RestsOn(x.book, id, side)
    ensures var y := Step(cfg, x, MarketOrder(Mirror.DeleteMarketOrder(id)));
            if side.Some? then OnlyThis(x.book, y.book, id, None, side.value) else y == x
  {
    hide View, Inv, Resize;
    DeletedPlainly(x.book, id, side);
  }

  lemma DeletedPlainly(s: State, id: nat, side: Option<Side>)
    requires Inv(s, {}) && id !in s.pool && RestsOn(s, id, side)
    ensures var t := Mirror.DeleteOrder(s, id);
            if side.Some? then OnlyThis(s, t, id, None, side.value) else t == s
  {
    hide View, Inv, Resize;
    if side.Some? {
      OneSide(s, id, side.value);
      PoolIsOwn(s);
      ResizeShape(s, side.value, id, 0, 0);
      SideIsOk(s, side.value);
      ResizeView(s.On(side.value), id, 0);
      var t := Mirror.DeleteOrder(s, id);
      hide L3Resize;
      assert t.On(side.value) == Resize(s.On(side.value), id, 0) && t.On(Opposite(side.value)) == s.On(Opposite(side.value));
    }
  }

  /** No order rests on both sides. */
  lemma OneSide(s: State, id: nat, side: Side)
    requires Inv(s, {}) && id in View(s.On(side))
    ensures Mirror.IsResting(s, id) && Mirror.SideOf(s, id) == side
  {
    hide View, Distinct, Sorted, PhantomAt, IndexOk, LookupsOk, RestsAsRecorded;
  }

  lemma PoolIsOwn(s: State)
    requires Inv(s, {})
    ensures s.orders == s.pool.Keys
  {
    assert s.orders + {} == s.orders;
  }

  /**
   A change of a resting order that is not to be requeued gives it the venue's price and quantity under its
   old priority, and at its old price in its old place; a change to nothing removes it.
   */
  lemma ChangeInPlaceLaw(cfg: Config, x: Venue, side: Side, e: Mirror.Event)
    requires cfg.engine.Valid() && VenueInv(x) && Admissible(cfg, x, MarketOrder(e))
    requires e.ChangeMarketOrder? && !e.requeue && e.id in View(x.book.On(side))
    ensures var y, was := Step(cfg, x, MarketOrder(e)), View(x.book.On(side))[e.id];
            && OnlyThis(x.book, y.book, e.id, if e.qty == 0 then None else Some(Resting(e.id, e.price, e.qty, was.priority)), side)
            && (e.price == was.price ==> y.book.On(side) == Resize(x.book.On(side), e.id, e.qty))
  {
    hide View, Inv, Resize, Insert;
    var s := x.book;
    var q, was := s.On(side), View(s.On(side))[e.id];
    PoolIsOwn(s);
    OneSide(s, e.id, side);
    SideIsOk(s, side);
    IdOf(side, q, e.id);
    var t := Mirror.ModifyOrder(s, e.id, e.price, e.qty);
    if e.qty == 0 || e.price == was.price {
      ResizeShape(s, side, e.id, e.qty, 0);
      ResizeView(q, e.id, e.qty);
      hide L3Resize;
      assert t.On(side) == Resize(q, e.id, e.qty) && t.On(Opposite(side)) == s.On(Opposite(side));
    } else {
      var r := Resting(e.id, e.price, e.qty, was.priority);
      Mirror.MoveShape(s, side, r);
      ResizeView(q, e.id, 0);
      InsertView(side, Resize(q, e.id, 0), r);
      hide L3Move;
      assert t.On(side) == Insert(side, Resize(q, e.id, 0), r) && t.On(Opposite(side)) == s.On(Opposite(side));
    }
  }

  lemma IdOf(s: Side, q: seq<Resting>, id: nat)
    requires WellFormed(s, q) && id in View(q)
    ensures View(q)[id].id == id
  {
  }

  /**
   A new mirrored order, and one that is to be requeued or no longer rests, leaves its old place if it has
   one, trades what it can, and rests what is left under the event's priority.
   */
  lemma RestsAnewLaw(cfg: Config, x: Venue, side: Option<Side>, e: Mirror.Event) returns (u: State)
    requires cfg.engine.Valid() && VenueInv(x) && Admissible(cfg, x, MarketOrder(e)) && RestsOn(x.book, e.id, side)
    requires e.NewMarketOrder? || (e.ChangeMarketOrder? && (e.requeue || side.None?))
    ensures if side.Some? then OnlyThis(x.book, u, e.id, None, side.value) else u == x.book
    ensures TradesThenRests(cfg.engine, u, Step(cfg, x, MarketOrder(e)).book, e.side, Resting(e.id, e.price, e.qty, e.priority), true)
  {
    hide View, Inv, MatchThenRest, TradesThenRests, Unused, OnlyThis;
    DeletedPlainly(x.book, e.id, side);
    Mirror.DeleteKeeps(x.book, e.id);
    u := Mirror.DeleteOrder(x.book, e.id);
    RestsWhatIsLeft(cfg.engine, u, e.side, Resting(e.id, e.price, e.qty, e.priority), 0);
  }
}
