/** Safety over whole runs of the exchange. */
module Runs {
  import opened Types
  import opened Queue
  import opened Orders
  import opened BookState
  import opened BookInvariant
  import opened BookOps
  import opened MatchPlan
  import opened Matching
  import opened Requests
  import opened RequestLaws
  import opened Reconcile
  import opened Feed
  import opened FeedMatching
  import opened Exchange
  import Rebuild
  import Mirror
  import TradeCredits

  // ----- sequences of the remaining operations

  lemma {:induction false} ReductionsSeq(s: State, side: Side, reds: seq<Reduction>, seqNum: nat)
    requires !s.Refuses(seqNum)
    ensures SeqIn(s, ApplyReductions(s, side, reds, seqNum), seqNum)
    decreases |reds|
  {
    hide View;
    if reds != [] {
      if reds[0].id in View(s.On(side)) {
        ResizeSeq(s, side, reds[0].id, reds[0].newQty, seqNum);
        hide L3Resize;
        ReductionsSeq(L3Resize(s, side, reds[0].id, reds[0].newQty, seqNum), side, reds[1..], seqNum);
      } else {
        ReductionsSeq(s, side, reds[1..], seqNum);
      }
    }
  }

  lemma ReconcileSeq(s: State, side: Side, price: Price, target: nat, id: nat, priority: nat, seqNum: nat)
    requires !s.Refuses(seqNum) && Unused(s, id)
    ensures SeqIn(s, ReconcileLevel(s, side, price, target, id, priority, seqNum), seqNum)
  {
    hide View, L3Add, ApplyReductions, Reductions, Unused;
    var md := s.MdLevelQty(price);
    AddSeq(s, side, Resting(id, price, Min0(target - md), priority), seqNum);
    ReductionsSeq(s, side, Reductions(s.On(side), price, s.orders, Min0(md - target)), seqNum);
  }

  lemma MarketOrderSeq(e: Engine, s: State, ev: Mirror.Event)
    requires e.Valid() && Inv(s, {}) && Mirror.Admissible(s, ev)
    ensures Mirror.ApplyMarketOrder(e, s, ev).lastSeq == s.lastSeq
  {
    hide View, Distinct, Sorted, PhantomAt, IndexOk, LookupsOk, RestsAsRecorded, QueuesOk, Uncrossed;
    hide MatchThenRest, Mirror.ModifyOrder, Mirror.DeleteOrder, FitsBeside;
    match ev
    case NewMarketOrder(side, id, price, qty, priority) =>
      MatchThenRestSeq(e, s, side, Resting(id, price, qty, priority), 0);
    case DeleteMarketOrder(id) =>
      Mirror.DeleteKeeps(s, id);
    case ChangeMarketOrder(side, id, price, qty, priority, requeue) =>
      if Mirror.IsResting(s, id) && !requeue {
        Mirror.ModifyKeeps(s, id, price, qty);
      } else {
        Mirror.DeleteKeeps(s, id);
        hide Inv;
        MatchThenRestSeq(e, Mirror.DeleteOrder(s, id), side, Resting(id, price, qty, priority), 0);
      }
  }

  // ----- each event keeps the invariant

  /** A freshly drawn stamp is above everything the book has seen. */
  lemma DrawnStamp(cfg: Config, x: Venue)
    requires VenueInv(x)
    ensures var y := Drawn(cfg, x);
            VenueInv(y) && y.book == x.book && !y.book.Refuses(Stamp(cfg, y)) && Stamp(cfg, y) <= y.nextBookSeq
  {
    hide Inv;
  }

  lemma FoundIsOwn(s: State, c: string, o: string)
    requires LookupsOk(s) && Find(s, c, o).Some?
    ensures Find(s, c, o).value in s.orders && Find(s, c, o).value in s.pool
  {
  }

  lemma NewStep(cfg: Config, x: Venue, id: nat, o: Order, priority: nat)
    requires cfg.engine.Valid() && VenueInv(x) && Admissible(cfg, x, New(id, o, priority))
    ensures VenueInv(HandleNew(cfg, x, id, o, priority))
  {
    hide View, NewOrder, PhantomAt, IndexOk, Uncrossed, QueuesOk, RestsAsRecorded;
    if !(o.clientOrderId != "" && o.clientOrderId in x.book.byClient) {
      assert o.clientOrderId !in x.book.byClient;
      hide LookupsOk;
      NewOrderKeeps(cfg.engine, cfg.smp, x.book, id, o, priority);
      NewOrderSeq(cfg.engine, cfg.smp, x.book, id, o, priority);
    }
  }

  lemma AmendStep(cfg: Config, x: Venue, c: string, o: string, price: Price, qty: nat, priority: nat)
    requires cfg.engine.Valid() && VenueInv(x) && Admissible(cfg, x, Exchange.Amend(c, o, price, qty, priority))
    ensures VenueInv(HandleAmend(cfg, x, Find(x.book, c, o), price, qty, priority))
  {
    hide View, Requests.Amend, PhantomAt, IndexOk, Uncrossed, QueuesOk, RestsAsRecorded, LeavesNothing;
    var target := Find(x.book, c, o);
    if target.Some? {
      FoundIsOwn(x.book, c, o);
      hide LookupsOk, Find;
      AmendSafeIff(cfg.engine, cfg.smp, x.book, target.value, price, qty, priority);
      AmendSeq(cfg.engine, cfg.smp, x.book, target.value, price, qty, priority);
    }
  }

  lemma CancelStep(x: Venue, c: string, o: string)
    requires VenueInv(x)
    ensures VenueInv(HandleCancel(x, Find(x.book, c, o)))
  {
    hide View, CancelOwn, PhantomAt, IndexOk, Uncrossed, QueuesOk, RestsAsRecorded;
    var target := Find(x.book, c, o);
    if target.Some? {
      FoundIsOwn(x.book, c, o);
      hide LookupsOk, Find;
      CancelOwnKeeps(x.book, {}, target.value);
      CancelSeq(x.book, target.value);
    }
  }

  lemma RestLevelStep(cfg: Config, x: Venue, side: Side, r: Resting, seqNum: nat)
    requires cfg.engine.Valid() && VenueInv(x) && Unused(x.book, r.id) && r.price != NULL_PRICE
    requires !x.book.Refuses(seqNum) && seqNum <= x.nextBookSeq
    ensures VenueInv(RestLevel(cfg, x, side, r, seqNum))
  {
    hide Inv, MatchThenRest, Unused;
    MatchThenRestKeeps(cfg.engine, x.book, side, r, seqNum);
    MatchThenRestSeq(cfg.engine, x.book, side, r, seqNum);
  }

  lemma LevelStep(cfg: Config, x: Venue, side: Side, r: Resting, time: nat)
    requires cfg.engine.Valid() && VenueInv(x) && Unused(x.book, r.id) && r.price != NULL_PRICE
    requires !x.book.Refuses(Stamp(cfg, x)) && Stamp(cfg, x) <= x.nextBookSeq
    ensures VenueInv(HandleLevel(cfg, x, side, r, time))
  {
    hide Inv, MatchThenRest, Unused, ReconcileLevel, HasLevel, TradeCredits.TakeTradedQty;
    if HasLevel(x.book, side, r.price) {
      var unreflected := TradeCredits.TakeTradedQty(x.credits, (side, r.price), time).1;
      var target := Offset(r.qty, unreflected);
      ReconcileExact(x.book, side, r.price, target, r.id, r.priority, Stamp(cfg, x));
      ReconcileSeq(x.book, side, r.price, target, r.id, r.priority, Stamp(cfg, x));
    } else {
      RestLevelStep(cfg, x, side, r, Stamp(cfg, x));
    }
  }

  lemma PrintStep(cfg: Config, x: Venue, side: Side, r: Resting, time: nat)
    requires cfg.engine.Valid() && VenueInv(x) && Unused(x.book, r.id) && r.price != NULL_PRICE
    requires !x.book.Refuses(Stamp(cfg, x)) && Stamp(cfg, x) <= x.nextBookSeq
    ensures VenueInv(HandlePrint(cfg, x, side, r, time))
  {
    hide Inv, MatchThenRest, Unused, CreditAll;
    RestLevelStep(cfg, x, side, r, Stamp(cfg, x));
  }

  lemma MarketTradeStep(cfg: Config, x: Venue, side: Side, price: Price, qty: nat)
    requires cfg.engine.Valid() && VenueInv(x)
    ensures VenueInv(Step(cfg, x, MarketTrade(side, price, qty)))
  {
    hide View, Distinct, Sorted, AllReal, MatchFeed, IndexOk, LookupsOk, Uncrossed, RestsAsRecorded;
    MatchFeedSeq(cfg.engine, x.book, side, price, qty, 0);
    MatchFeedKeeps(cfg.engine, x.book, side, price, qty, 0);
    hide Inv;
  }

  /** Every admissible event, from any consistent state. */
  lemma StepKeeps(cfg: Config, x: Venue, ev: Event)
    requires cfg.engine.Valid() && VenueInv(x) && Admissible(cfg, x, ev)
    ensures VenueInv(Step(cfg, x, ev))
  {
    hide Inv, HandleNew, HandleAmend, HandleCancel, HandleLevel, HandlePrint, RestLevel, Unused, Find, Drawn, Stamp;
    hide Rebuild.ClearMdOrders, Mirror.ApplyMarketOrder, MatchFeed, Mirror.Admissible, Rebuild.Lists, Rebuild.BackIn;
    DrawnStamp(cfg, x);
    match ev
    case New(id, o, priority) => NewStep(cfg, x, id, o, priority);
    case Amend(c, o, price, qty, priority) => AmendStep(cfg, x, c, o, price, qty, priority);
    case Cancel(c, o) => CancelStep(x, c, o);
    case LevelUpdate(side, price, qty, time, id, priority) =>
      LevelStep(cfg, Drawn(cfg, x), side, Resting(id, price, qty, priority), time);
    case TradePrint(side, price, qty, time, id, priority) =>
      PrintStep(cfg, Drawn(cfg, x), side, Resting(id, price, qty, priority), time);
    case SnapshotBegin(ids) => Rebuild.ClearMdOrdersKeeps(x.book, ids);
    case SnapshotLevel(side, price, qty, time, id, priority) =>
      CurrentStamp(cfg, x);
      RestLevelStep(cfg, x, side, Resting(id, price, qty, priority), Stamp(cfg, x));
    case MarketOrder(e) =>
      Mirror.ApplyMarketOrderKeeps(cfg.engine, x.book, e);
      MarketOrderSeq(cfg.engine, x.book, e);
    case MarketTrade(side, price, qty) => MarketTradeStep(cfg, x, side, price, qty);
  }

  /** Levels of one snapshot share its stamp, which the book still accepts. */
  lemma CurrentStamp(cfg: Config, x: Venue)
    requires VenueInv(x)
    ensures !x.book.Refuses(Stamp(cfg, x)) && Stamp(cfg, x) <= x.nextBookSeq
  {
    hide Inv;
  }

  // ----- runs

  ghost predicate AdmissibleRun(cfg: Config, x: Venue, run: seq<Event>)
    requires cfg.engine.Valid()
    decreases |run|
  {
    run != [] ==> Admissible(cfg, x, run[0]) && AdmissibleRun(cfg, Step(cfg, x, run[0]), run[1..])
  }

  ghost function Run(cfg: Config, x: Venue, run: seq<Event>): Venue
    requires cfg.engine.Valid()
    decreases |run|
  {
    if run == [] then x else Run(cfg, Step(cfg, x, run[0]), run[1..])
  }

  lemma {:induction false} RunKeeps(cfg: Config, x: Venue, run: seq<Event>)
    requires cfg.engine.Valid() && VenueInv(x) && AdmissibleRun(cfg, x, run)
    ensures VenueInv(Run(cfg, x, run))
    decreases |run|
  {
    hide VenueInv, Step, Admissible;
    if run != [] {
      StepKeeps(cfg, x, run[0]);
      RunKeeps(cfg, Step(cfg, x, run[0]), run[1..]);
    }
  }

  // ----- what that means for a reachable state

  lemma BestPrices(s: State)
    requires Inv(s, {})
    ensures s.bids != [] && s.asks != [] ==> s.bids[0].price < s.asks[0].price
  {
    hide IndexOk, LookupsOk, RestsAsRecorded, Distinct, Sorted, AllReal;
    if s.bids != [] && s.asks != [] {
      assert View(s.bids)[s.bids[0].id] == s.bids[0] && View(s.asks)[s.asks[0].id] == s.asks[0];
    }
  }

  lemma StartInv()
    ensures VenueInv(START)
  {
    EmptyInv();
  }

  /**
   In every state reachable by client requests and feed events, with either engine, in any SMP mode:
   best bid below best ask; the phantom index exact at every price; the pool holds exactly the orders
   in the maps, each resting on its side with its leaves and balanced accounts; both lookup maps name
   exactly those orders; and no execution has been declined on sequence.
   */
  lemma Safety(cfg: Config, run: seq<Event>)
    requires cfg.engine.Valid() && AdmissibleRun(cfg, START, run)
    ensures var s := Run(cfg, START, run).book;
            && (s.bids != [] && s.asks != [] ==> s.bids[0].price < s.asks[0].price)
            && WellFormed(Buy, s.bids) && WellFormed(Sell, s.asks)
            && IndexOk(s) && LookupsOk(s)
            && s.pool.Keys == s.orders
            && (forall id :: id in s.orders ==> RestsAsRecorded(s, id))
            && Run(cfg, START, run).declines == 0
  {
    hide View, WellFormed, IndexOk, LookupsOk, RestsAsRecorded, Uncrossed, Run, AdmissibleRun;
    StartInv();
    RunKeeps(cfg, START, run);
    BestPrices(Run(cfg, START, run).book);
  }
}
