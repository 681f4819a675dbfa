/** The exchange object: one symbol's book, credits and stamps, and a handler for every event. */
module Venues {
  import opened Types
  import opened Queue
  import opened Orders
  import opened BookState
  import opened BookInvariant
  import opened BookOps
  import opened MatchPlan
  import opened Requests
  import opened RequestLaws
  import opened Feed
  import opened FeedMatching
  import opened OrderBooks
  import opened Exchange
  import opened Runs
  import opened TradeCredits
  import FeedEngines
  import FeedHandlers
  import Mirror
  import Rebuild
  import Symbols
  import TradeSummaries

  class SimulatedVenue {
    const cfg: Config
    const book: OrderBook
    const table: CreditTable
    var nextBookSeq: nat
    var lastUpdate: nat
    var declines: nat

    ghost function Now(): Venue
      reads this, book, table
    {
      Venue(book.Now(), table.credits, nextBookSeq, lastUpdate, declines)
    }

    ghost predicate Valid()
      reads this, book, table
    {
      cfg.engine.Valid() && VenueInv(Now())
    }

    constructor (c: Config)
      requires c.engine.Valid()
      ensures Valid() && cfg == c && Now() == Exchange.START && fresh(book) && fresh(table)
    {
      cfg := c;
      book := new OrderBook();
      table := new CreditTable();
      nextBookSeq, lastUpdate, declines := 0, 0, 0;
      new;
      StartInv();
    }

    /** The next sequence for a book mutation: never below what the book already holds. */
    method DrawStamp() returns (n: nat)
      modifies this
      ensures Now() == Drawn(cfg, old(Now())) && n == Stamp(cfg, Now())
    {
      if !cfg.stamps {
        return 0;
      }
      if nextBookSeq < book.lastSeq {
        nextBookSeq := book.lastSeq;
      }
      nextBookSeq := nextBookSeq + 1;
      n := nextBookSeq;
    }

    method FindOrder(clientOrderId: string, orderId: string) returns (target: Option<nat>)
      ensures target == Find(book.Now(), clientOrderId, orderId)
    {
      if clientOrderId != "" {
        target := if clientOrderId in book.byClient then Some(book.byClient[clientOrderId]) else None;
      } else {
        target := if orderId in book.byOrderId then Some(book.byOrderId[orderId]) else None;
      }
    }

    method OnNewOrder(id: nat, o: Order, priority: nat)
      requires Valid() && Admissible(cfg, Now(), New(id, o, priority))
      modifies this, book
      ensures Valid() && Now() == Step(cfg, old(Now()), New(id, o, priority))
    {
      hide View, Inv, NewOrder, Unused;
      StepKeeps(cfg, Now(), New(id, o, priority));
      if o.clientOrderId != "" && o.clientOrderId in book.byClient {
        return;
      }
      FreshNow(cfg, Now(), id, o, priority);
      var _, _ := Symbols.AddOrder(cfg.engine, cfg.smp, book, id, o, priority);
    }

    method OnModifyOrder(clientOrderId: string, orderId: string, price: Price, qty: nat, priority: nat)
      requires Valid()
      modifies this, book
      ensures Now() == Step(cfg, old(Now()), Exchange.Amend(clientOrderId, orderId, price, qty, priority))
      ensures Valid() <==> Admissible(cfg, old(Now()), Exchange.Amend(clientOrderId, orderId, price, qty, priority))
    {
      hide View, Inv, Requests.Amend, Find, LeavesNothing;
      ghost var ev := Exchange.Amend(clientOrderId, orderId, price, qty, priority);
      if Admissible(cfg, Now(), ev) {
        StepKeeps(cfg, Now(), ev);
      }
      var target := FindOrder(clientOrderId, orderId);
      if target.None? {
        return;
      }
      FoundNow(Now(), clientOrderId, orderId);
      var _, _ := Symbols.ModifyOrder(cfg.engine, cfg.smp, book, target.value, price, qty, priority);
    }

    method OnCancelOrder(clientOrderId: string, orderId: string)
      requires Valid()
      modifies this, book
      ensures Valid() && Now() == Step(cfg, old(Now()), Exchange.Cancel(clientOrderId, orderId))
    {
      hide View, Inv, CancelOwn, Find;
      StepKeeps(cfg, Now(), Exchange.Cancel(clientOrderId, orderId));
      var target := FindOrder(clientOrderId, orderId);
      if target.None? {
        return;
      }
      FoundNow(Now(), clientOrderId, orderId);
      book.CancelOrder(target.value);
    }

    /** Counts an execution the book refused. */
    method Tally(declined: bool)
      modifies this`declines
      ensures declines == old(declines) + if declined then 1 else 0
    {
      if declined {
        declines := declines + 1;
      }
    }

    method OnLevelUpdate(side: Side, price: Price, qty: nat, time: nat, id: nat, priority: nat)
      requires Valid() && Admissible(cfg, Now(), LevelUpdate(side, price, qty, time, id, priority))
      modifies this, book, table
      ensures Valid() && Now() == Step(cfg, old(Now()), LevelUpdate(side, price, qty, time, id, priority))
    {
      hide View, Inv, Unused, MatchThenRest, ReconcileLevel, RestsAt, Reconciled, TakeTradedQty, TradeSummaries.Record;
      StepKeeps(cfg, Now(), LevelUpdate(side, price, qty, time, id, priority));
      DrawnStamp(cfg, Now());
      var n := DrawStamp();
      if cfg.stamps && time < lastUpdate {
        return;
      }
      var q := book.On(side);
      SideIsOk(book.Now(), side);
      var level := FeedHandlers.LevelExists(side, q, price);
      if level {
        FeedHandlers.ReconcilePhantomQty(book, table, side, price, qty, time, id, priority, n);
      } else {
        var _, declined := FeedEngines.MatchAndRest(cfg.engine, book, side, Resting(id, price, qty, priority), n);
        Tally(declined);
      }
      lastUpdate := time;
    }

    /** Credits each price of a replayed print with the phantom quantity it took there. */
    method CreditSummaries(side: Side, ss: seq<TradeSummaries.Summary>, time: nat)
      modifies table
      ensures table.credits == CreditAll(old(table.credits), side, ss, time)
    {
      hide CreditTradedQty;
      assert ss[0..] == ss;
      for i := 0 to |ss|
        invariant CreditAll(table.credits, side, ss[i..], time) == CreditAll(old(table.credits), side, ss, time)
      {
        assert ss[i..][1..] == ss[i + 1..];
        table.CreditQty((side, ss[i].price), ss[i].phantomQty, time);
      }
    }

    method OnTradePrint(side: Side, price: Price, qty: nat, time: nat, id: nat, priority: nat)
      requires Valid() && Admissible(cfg, Now(), TradePrint(side, price, qty, time, id, priority))
      modifies this, book, table
      ensures Valid() && Now() == Step(cfg, old(Now()), TradePrint(side, price, qty, time, id, priority))
    {
      hide View, Inv, Unused, MatchThenRest, CreditAll, TradeSummaries.Record;
      StepKeeps(cfg, Now(), TradePrint(side, price, qty, time, id, priority));
      DrawnStamp(cfg, Now());
      var n := DrawStamp();
      var ctx, declined := FeedEngines.MatchAndRest(cfg.engine, book, side, Resting(id, price, qty, priority), n);
      Tally(declined);
      CreditSummaries(Opposite(side), ctx.summaries, time);
    }

    method OnSnapshotBegin(ownInMapOrder: seq<nat>)
      requires Valid() && Admissible(cfg, Now(), SnapshotBegin(ownInMapOrder))
      modifies this, book
      ensures Valid() && Now() == Step(cfg, old(Now()), SnapshotBegin(ownInMapOrder))
    {
      hide View, Inv, Rebuild.ClearMdOrders, Rebuild.Lists;
      StepKeeps(cfg, Now(), SnapshotBegin(ownInMapOrder));
      ghost var x := Now();
      var _ := DrawStamp();
      FeedHandlers.ClearMDOrders(book, ownInMapOrder);
    }

    method OnSnapshotLevel(side: Side, price: Price, qty: nat, time: nat, id: nat, priority: nat)
      requires Valid() && Admissible(cfg, Now(), SnapshotLevel(side, price, qty, time, id, priority))
      modifies this, book
      ensures Valid() && Now() == Step(cfg, old(Now()), SnapshotLevel(side, price, qty, time, id, priority))
    {
      hide View, Inv, Unused, MatchThenRest, TradeSummaries.Record;
      StepKeeps(cfg, Now(), SnapshotLevel(side, price, qty, time, id, priority));
      var n := if cfg.stamps then nextBookSeq else 0;
      var _, declined := FeedEngines.MatchAndRest(cfg.engine, book, side, Resting(id, price, qty, priority), n);
      Tally(declined);
      if time > lastUpdate {
        lastUpdate := time;
      }
    }

    method OnMarketTrade(side: Side, price: Price, qty: nat, id: nat)
      requires Valid()
      modifies this, book
      ensures Valid() && Now() == Step(cfg, old(Now()), MarketTrade(side, price, qty))
    {
      hide View, Inv, FeedMatching.MatchFeed, TradeSummaries.Record;
      StepKeeps(cfg, Now(), MarketTrade(side, price, qty));
      var _, _, declined := FeedEngines.MatchFeed(cfg.engine, book, side, id, price, qty, 0);
      Tally(declined);
    }

    // ----- mirrored orders

    method DeleteMarketOrder(id: nat)
      modifies book
      ensures book.Now() == Mirror.DeleteOrder(old(book.Now()), id)
    {
      hide View, L3Resize;
      var bid := FindResting(book.bids, id);
      if bid.Some? {
        var _ := book.ResizeResting(Buy, id, 0, 0);
        return;
      }
      var ask := FindResting(book.asks, id);
      if ask.Some? {
        var _ := book.ResizeResting(Sell, id, 0, 0);
      }
    }

    method ChangeInPlace(side: Side, was: Resting, price: Price, qty: nat)
      requires was.id in View(book.On(side)) && View(book.On(side))[was.id] == was && side == Mirror.SideOf(book.Now(), was.id)
      modifies book
      ensures book.Now() == Mirror.ModifyOrder(old(book.Now()), was.id, price, qty)
    {
      hide View, L3Resize, L3Move;
      if qty == 0 || price == was.price {
        var _ := book.ResizeResting(side, was.id, qty, 0);
      } else {
        book.MoveResting(side, Resting(was.id, price, qty, was.priority));
      }
    }

    method OnMarketOrder(e: Mirror.Event)
      requires Valid() && Mirror.Documented(book.Now(), e)
      modifies this, book
      ensures Now() == Step(cfg, old(Now()), MarketOrder(e))
      ensures Valid() <==> Mirror.StaysClear(old(book.Now()), e)
    {
      hide View, Inv, MatchThenRest, TradeSummaries.Record, Mirror.DeleteOrder, Mirror.ModifyOrder, FitsBeside;
      ghost var s := book.Now();
      Mirror.ApplyMarketOrderSafeIff(cfg.engine, s, e);
      if Mirror.StaysClear(s, e) {
        StepKeeps(cfg, Now(), MarketOrder(e));
      }
      match e
      case NewMarketOrder(side, id, price, qty, priority) =>
        var _, _ := FeedEngines.MatchAndRest(cfg.engine, book, side, Resting(id, price, qty, priority), 0);
      case DeleteMarketOrder(id) =>
        DeleteMarketOrder(id);
      case ChangeMarketOrder(side, id, price, qty, priority, requeue) =>
        var bid := FindResting(book.bids, id);
        var ask := FindResting(book.asks, id);
        if (bid.Some? || ask.Some?) && !requeue {
          RestsUnderItsId(s, id);
          ChangeInPlace(if bid.Some? then Buy else Sell, if bid.Some? then bid.value else ask.value, price, qty);
        } else {
          Mirror.DeleteKeeps(s, id);
          DeleteMarketOrder(id);
          var _, _ := FeedEngines.MatchAndRest(cfg.engine, book, side, Resting(id, price, qty, priority), 0);
        }
    }
  }

  lemma FreshNow(cfg: Config, x: Venue, id: nat, o: Order, priority: nat)
    requires VenueInv(x) && Admissible(cfg, x, New(id, o, priority)) && (o.clientOrderId == "" || o.clientOrderId !in x.book.byClient)
    ensures FreshOrder(x.book, id, o)
  {
    hide View;
  }

  lemma FoundNow(x: Venue, clientOrderId: string, orderId: string)
    requires VenueInv(x) && Find(x.book, clientOrderId, orderId).Some?
    ensures var id := Find(x.book, clientOrderId, orderId).value;
            id in x.book.orders && id in x.book.pool && id in View(x.book.On(x.book.pool[id].side))
  {
    hide View;
    FoundIsOwn(x.book, clientOrderId, orderId);
    assert RestsAsRecorded(x.book, Find(x.book, clientOrderId, orderId).value);
  }

  lemma RestsUnderItsId(s: State, id: nat)
    requires Inv(s, {})
    ensures id in View(s.bids) ==> View(s.bids)[id].id == id
    ensures id in View(s.asks) ==> View(s.asks)[id].id == id
  {
  }
}
