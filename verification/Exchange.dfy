/**
 The exchange as one state machine. Client requests and every kind of feed event act on the same
 book; the invariant holds in every reachable state.
 */
module Exchange {
  import opened Types
  import opened Queue
  import opened Orders
  import opened BookState
  import opened BookInvariant
  import opened BookOps
  import opened MatchPlan
  import opened Matching
  import opened Requests
  import opened RequestLaws
  import opened Feed
  import opened FeedMatching
  import Rebuild
  import Mirror
  import TradeCredits
  import TradeSummaries
  import PreChecks

  /** Engine, self-match mode, and whether the venue stamps book mutations with its own sequence. */
  datatype Config = Config(engine: Engine, smp: SmpMode, stamps: bool)

  /** `declines` counts executions the book refused; `lastUpdate` is the time of the last level update. */
  datatype Venue = Venue(
    book: State,
    credits: TradeCredits.Credits,
    nextBookSeq: nat,
    lastUpdate: nat,
    declines: nat)

  const START: Venue := Venue(EMPTY, map[], 0, 0, 0)

  /**
   Ids and priorities come from process-wide counters that other books draw from too, so an event
   carries the ones it drew.
   */
  datatype Event =
    | New(id: nat, order: Order, priority: nat)
    | Amend(clientOrderId: string, orderId: string, price: Price, qty: nat, priority: nat)
    | Cancel(clientOrderId: string, orderId: string)
    | LevelUpdate(side: Side, price: Price, qty: nat, time: nat, id: nat, priority: nat)
    | TradePrint(side: Side, price: Price, qty: nat, time: nat, id: nat, priority: nat)
    | SnapshotBegin(ownInMapOrder: seq<nat>)
    | SnapshotLevel(side: Side, price: Price, qty: nat, time: nat, id: nat, priority: nat)
    | MarketOrder(event: Mirror.Event)
    | MarketTrade(side: Side, price: Price, qty: nat)

  // ----- stamps

  /** Catch up with the book, then advance. */
  function NextBookSeqNum(x: Venue): nat {
    (if x.nextBookSeq < x.book.lastSeq then x.book.lastSeq else x.nextBookSeq) + 1
  }

  function Drawn(cfg: Config, x: Venue): Venue {
    if cfg.stamps then x.(nextBookSeq := NextBookSeqNum(x)) else x
  }

  function Stamp(cfg: Config, x: Venue): nat {
    if cfg.stamps then x.nextBookSeq else 0
  }

  // ----- lookups

  /** By client order id when the request carries one, otherwise by order id. */
  function Find(s: State, clientOrderId: string, orderId: string): Option<nat> {
    if clientOrderId != "" then
      if clientOrderId in s.byClient then Some(s.byClient[clientOrderId]) else None
    else if orderId in s.byOrderId then Some(s.byOrderId[orderId]) else None
  }

  // ----- handlers

  function WithBook(x: Venue, s: State, declined: bool): Venue {
    x.(book := s, declines := x.declines + if declined then 1 else 0)
  }

  ghost function HandleNew(cfg: Config, x: Venue, id: nat, o: Order, priority: nat): Venue
    requires cfg.engine.Valid()
  {
    if o.clientOrderId != "" && o.clientOrderId in x.book.byClient then x
    else WithBook(x, NewOrder(cfg.engine, cfg.smp, x.book, id, o, priority).state, false)
  }

  ghost function HandleAmend(cfg: Config, x: Venue, target: Option<nat>, price: Price, qty: nat, priority: nat): Venue
    requires cfg.engine.Valid()
  {
    if target.None? || target.value !in x.book.pool then x
    else WithBook(x, Requests.Amend(cfg.engine, cfg.smp, x.book, target.value, price, qty, priority).state, false)
  }

  ghost function HandleCancel(x: Venue, target: Option<nat>): Venue {
    if target.None? || target.value !in x.book.pool
       || target.value !in View(x.book.On(x.book.pool[target.value].side)) then x
    else WithBook(x, CancelOwn(x.book, target.value), false)
  }

  ghost function RestLevel(cfg: Config, x: Venue, side: Side, r: Resting, seqNum: nat): Venue
    requires cfg.engine.Valid()
  {
    var m := MatchThenRest(cfg.engine, x.book, side, r, seqNum);
    WithBook(x, m.state, m.declined)
  }

  /** A level update: stale ones are skipped, a new level is matched first, an existing one reconciled. */
  ghost function HandleLevel(cfg: Config, x: Venue, side: Side, r: Resting, time: nat): Venue
    requires cfg.engine.Valid()
  {
    if cfg.stamps && time < x.lastUpdate then x
    else if HasLevel(x.book, side, r.price) then
      var (credits, unreflected) := TradeCredits.TakeTradedQty(x.credits, (side, r.price), time);
      var s := ReconcileLevel(x.book, side, r.price, Offset(r.qty, unreflected), r.id, r.priority, Stamp(cfg, x));
      x.(book := s, credits := credits, lastUpdate := time)
    else RestLevel(cfg, x, side, r, Stamp(cfg, x)).(lastUpdate := time)
  }

  ghost function CreditAll(m: TradeCredits.Credits, side: Side, ss: seq<TradeSummaries.Summary>, time: nat): TradeCredits.Credits
    decreases |ss|
  {
    if ss == [] then m
    else CreditAll(TradeCredits.CreditTradedQty(m, (side, ss[0].price), ss[0].phantomQty, time), side, ss[1..], time)
  }

  ghost predicate RealPrices(acts: seq<Action>) {
    forall i :: 0 <= i < |acts| && acts[i].Fill? ==> acts[i].price != NULL_PRICE
  }

  /** A trade print: replayed as an aggressor whose remainder rests, crediting the phantom part. */
  ghost function HandlePrint(cfg: Config, x: Venue, side: Side, r: Resting, time: nat): Venue
    requires cfg.engine.Valid()
  {
    var m := MatchThenRest(cfg.engine, x.book, side, r, Stamp(cfg, x));
    var credits :=
      if RealPrices(m.actions) then
        CreditAll(x.credits, Opposite(side),
                  TradeSummaries.Record(TradeSummaries.START, m.actions, x.book.orders, r.id).summaries, time)
      else x.credits;
    WithBook(x, m.state, m.declined).(credits := credits)
  }

  ghost function Step(cfg: Config, x: Venue, ev: Event): Venue
    requires cfg.engine.Valid()
  {
    match ev
    case New(id, o, priority) => HandleNew(cfg, x, id, o, priority)
    case Amend(c, o, price, qty, priority) => HandleAmend(cfg, x, Find(x.book, c, o), price, qty, priority)
    case Cancel(c, o) => HandleCancel(x, Find(x.book, c, o))
    case LevelUpdate(side, price, qty, time, id, priority) =>
      HandleLevel(cfg, Drawn(cfg, x), side, Resting(id, price, qty, priority), time)
    case TradePrint(side, price, qty, time, id, priority) =>
      HandlePrint(cfg, Drawn(cfg, x), side, Resting(id, price, qty, priority), time)
    case SnapshotBegin(ids) =>
      Drawn(cfg, x).(book := Rebuild.ClearMdOrders(x.book, ids))
    case SnapshotLevel(side, price, qty, time, id, priority) =>
      RestLevel(cfg, x, side, Resting(id, price, qty, priority), Stamp(cfg, x))
        .(lastUpdate := if time > x.lastUpdate then time else x.lastUpdate)
    case MarketOrder(e) => x.(book := Mirror.ApplyMarketOrder(cfg.engine, x.book, e))
    case MarketTrade(side, price, qty) =>
      var m := MatchFeed(cfg.engine, x.book, side, price, qty, 0);
      WithBook(x, m.state, m.declined)
  }

  // ----- the invariant and what each event may assume

  ghost predicate VenueInv(x: Venue) {
    Inv(x.book, {}) && x.book.lastSeq <= x.nextBookSeq && x.declines == 0
  }

  /**
   Ids are unused, generated order ids unique, feed prices real. An amendment of a known order carries
   a price, or leaves nothing that would have to rest without one.
   */
  ghost predicate Admissible(cfg: Config, x: Venue, ev: Event) {
    match ev
    case New(id, o, _) =>
      && Unused(x.book, id) && o.leaves == o.quantity && o.cum == 0 && o.status == PendingNew
      && o.orderId !in x.book.byOrderId
    case Amend(c, o, price, qty, _) =>
      var target := Find(x.book, c, o);
      target.Some? && target.value in x.book.pool ==>
        price != NULL_PRICE || LeavesNothing(cfg.engine, cfg.smp, x.book, target.value, price, qty)
    case Cancel(_, _) => true
    case LevelUpdate(_, price, _, _, id, _) => price != NULL_PRICE && Unused(x.book, id)
    case TradePrint(_, price, _, _, id, _) => price != NULL_PRICE && Unused(x.book, id)
    case SnapshotBegin(ids) => Rebuild.Lists(ids, x.book.orders)
    case SnapshotLevel(_, price, _, _, id, _) => price != NULL_PRICE && Unused(x.book, id)
    case MarketOrder(e) => Mirror.Admissible(x.book, e)
    case MarketTrade(_, _, _) => true
  }

  // ----- the book's sequence

  lemma {:induction false} ClientApplySeq(s: State, side: Side, agg: nat, acts: seq<Action>)
    ensures ApplyAll(s, side, Some(agg), acts, 0).lastSeq == s.lastSeq
    decreases |acts|
  {
    hide View, Resize;
    if acts != [] {
      var a := acts[0];
      if Ready(s, side, Some(agg), a) {
        if a.Cancel? {
          CancelSeq(s, a.id);
        } else {
          var u := AggressorFill(s, agg, a.price, a.qty);
          assert u.On(side) == s.On(side) && u.lastSeq == s.lastSeq;
          FillPassiveSeq(u, side, a.id, a.qty, 0);
        }
      }
      hide FillPassive, CancelOwn, AggressorFill, Ready;
      ClientApplySeq(Apply(s, side, Some(agg), a, 0), side, agg, acts[1..]);
    }
  }

  lemma CancelSeq(s: State, id: nat)
    requires id in s.pool && id in View(s.On(s.pool[id].side))
    ensures CancelOwn(s, id).lastSeq == s.lastSeq
  {
    hide View, Resize;
    ResizeSeq(s, s.pool[id].side, id, 0, 0);
    hide L3Resize;
  }

  lemma MatchOrderSeq(e: Engine, s: State, agg: nat, limit: Price, qty: nat, smp: SmpMode)
    requires e.Valid() && agg in s.pool
    ensures MatchOrder(e, s, agg, limit, qty, smp).state.lastSeq == s.lastSeq
  {
    hide View, Plan, ApplyAll, PreChecks.InReach, PreChecks.CanFill, SelfOf;
    var p := Prepare(e, s, agg, limit, qty, smp);
    assert p.state.lastSeq == s.lastSeq;
    hide Prepare;
    if p.Go? && agg in p.state.pool {
      var t := TermsOf(p.state, agg, limit, smp);
      ClientApplySeq(p.state, t.side, agg, Plan(e, t, p.state.On(t.side), p.state.pool[agg].leaves).actions);
    }
  }

  lemma NewOrderSeq(e: Engine, smp: SmpMode, s: State, id: nat, o: Order, priority: nat)
    requires e.Valid()
    ensures NewOrder(e, smp, s, id, o, priority).state.lastSeq == s.lastSeq
  {
    MatchOrderSeq(e, Allocate(s, id, o), id, o.price, o.quantity, smp);
    var m := MatchOrder(e, Allocate(s, id, o), id, o.price, o.quantity, smp);
    hide MatchOrder, View, Insert;
    if id in m.state.pool && m.state.pool[id].leaves > 0 {
      RestOwnShape(m.state, id, priority);
    }
    hide RestOwn;
  }

  lemma AmendSeq(e: Engine, smp: SmpMode, s: State, id: nat, price: Price, qty: nat, priority: nat)
    requires e.Valid() && Inv(s, {}) && id in s.orders && id in s.pool
    ensures Requests.Amend(e, smp, s, id, price, qty, priority).state.lastSeq == s.lastSeq
  {
    hide View, PhantomAt, IndexOk, Uncrossed, LookupsOk, RestsAsRecorded, QueuesOk, MatchOrder, FitsBeside, SettleAmended;
    var a := Marked(s, id);
    MarkedIsIncoming(s, id, price, qty);
    MatchOrderOutcomes(e, a, id, price, qty, smp);
    MatchOrderSeq(e, a, id, price, qty, smp);
    var m := MatchOrder(e, a, id, price, qty, smp);
    if m.reason == Accepted {
      AmendedRests(s, m.state, id);
      hide Shrinks, Inv;
      var pr := if price != s.pool[id].price || qty > s.pool[id].quantity then priority else m.state.pool[id].priority;
      if m.state.pool[id].leaves == 0 {
        SettleDoneShape(m.state, id, pr);
      } else {
        SettleLiveShape(m.state, id, pr);
      }
    }
  }

  /** The last sequence is the old one or the one just used. */
  ghost predicate SeqIn(s: State, t: State, seqNum: nat) {
    t.lastSeq == s.lastSeq || (seqNum > 0 && t.lastSeq == seqNum)
  }

  lemma MatchFeedSeq(e: Engine, s: State, aggSide: Side, limit: Price, qty: nat, seqNum: nat)
    requires e.Valid() && !s.Refuses(seqNum) && WellFormed(Opposite(aggSide), s.On(Opposite(aggSide)))
    ensures SeqIn(s, MatchFeed(e, s, aggSide, limit, qty, seqNum).state, seqNum)
  {
    hide View, Plan, ApplyAll, WellFormed;
    var t := FeedTerms(aggSide, limit);
    Requests.PlanCancelsOwn(e, t, s.On(t.side), qty, {});
    NoSelfNoCancel(Plan(e, t, s.On(t.side), qty).actions);
    ApplyAllSeq(s, t.side, Plan(e, t, s.On(t.side), qty).actions, seqNum);
  }

  lemma MatchThenRestSeq(e: Engine, s: State, aggSide: Side, x: Resting, seqNum: nat)
    requires e.Valid() && Inv(s, {}) && !s.Refuses(seqNum) && Unused(s, x.id)
    ensures SeqIn(s, MatchThenRest(e, s, aggSide, x, seqNum).state, seqNum)
  {
    hide View, Distinct, Sorted, AllReal, MatchFeed, Unused, FitsBeside, ActionsOk, ActAll, Filled, L3Add;
    hide IndexOk, LookupsOk, Uncrossed, RestsAsRecorded;
    MatchFeedSeq(e, s, aggSide, x.price, x.qty, seqNum);
    MatchFeedKeeps(e, s, aggSide, x.price, x.qty, seqNum);
    hide Inv;
    var m := MatchFeed(e, s, aggSide, x.price, x.qty, seqNum);
    StillUnused(s, m.state, Opposite(aggSide), x.id);
    if m.remaining > 0 {
      AddSeq(m.state, aggSide, x.(qty := m.remaining), seqNum);
    }
  }
}
