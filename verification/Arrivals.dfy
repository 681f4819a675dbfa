/**
 Time priority over whole runs: an order that comes to rest with a priority above all drawn before it
 stands last of its level, among own and mirrored orders alike.
 */
module Arrivals {
  import opened Types
  import opened Queue
  import opened Orders
  import opened BookState
  import opened BookInvariant
  import opened BookOps
  import opened MatchPlan
  import opened Matching
  import opened Requests
  import opened RequestLaws
  import opened Reconcile
  import opened Feed
  import opened FeedMatching
  import opened Exchange
  import opened StatementLaws
  import opened Priority
  import Mirror
  import PreChecks
  import Rebuild
  import Runs
  import StatementRuns
  import TradeCredits

  // ----- what rests after an event, and since when

  /** Every order of `r` rested in `q` with the same priority, or is `id` resting with priority `p`. */
  ghost predicate GrownBy(q: seq<Resting>, r: seq<Resting>, id: nat, p: nat) {
    forall j :: j in View(r) ==>
      (j in View(q) && View(r)[j].priority == View(q)[j].priority) || (j == id && View(r)[j].priority == p)
  }

  /** Nothing new, and nobody's priority changed. */
  ghost predicate Thinned(q: seq<Resting>, r: seq<Resting>) {
    forall j :: j in View(r) ==> j in View(q) && View(r)[j].priority == View(q)[j].priority
  }

  lemma ResizeThins(q: seq<Resting>, id: nat, n: nat)
    requires Distinct(q) && id in View(q)
    ensures Distinct(Resize(q, id, n)) && Thinned(q, Resize(q, id, n))
  {
    ResizeView(q, id, n);
    hide View, Distinct, Resize;
  }

  lemma {:induction false} ActAllThins(q: seq<Resting>, acts: seq<Action>)
    requires Distinct(q) && ActionsOk(q, acts)
    ensures Thinned(q, ActAll(q, acts))
    decreases |acts|
  {
    hide View, Distinct, Resize;
    if acts != [] {
      var a := acts[0];
      ResizeThins(q, a.id, if a.Fill? then View(q)[a.id].qty - a.qty else 0);
      ActAllThins(Act(q, a), acts[1..]);
    }
  }

  lemma InsertGrows(side: Side, q: seq<Resting>, x: Resting)
    requires Distinct(q) && x.id !in View(q)
    ensures GrownBy(q, Insert(side, q, x), x.id, x.priority)
  {
    InsertView(side, q, x);
    hide View, Distinct, Insert;
  }

  /** A client match thins the other side and leaves its own alone. */
  lemma MatchOrderThins(e: Engine, s: State, agg: nat, limit: Price, qty: nat, smp: SmpMode)
    requires e.Valid() && Incoming(s, agg, limit, qty)
    ensures var t, side := MatchOrder(e, s, agg, limit, qty, smp).state, s.pool[agg].side;
            t.On(side) == s.On(side) && Thinned(s.On(Opposite(side)), t.On(Opposite(side)))
  {
    hide View, Inv, PreChecks.InReach, PreChecks.CanFill, FitsBeside, Loop, SelfOf, Opposing;
    PreparedSameBook(e, s, agg, limit, qty, smp);
    var p := Prepare(e, s, agg, limit, qty, smp);
    hide Prepare;
    if p.Go? {
      GoThins(e, s, agg, limit, qty, smp);
    }
  }

  /** Nothing before the loop touches the book. */
  lemma PreparedSameBook(e: Engine, s: State, agg: nat, limit: Price, qty: nat, smp: SmpMode)
    requires agg in s.pool
    ensures var r := Prepare(e, s, agg, limit, qty, smp).state;
            r.bids == s.bids && r.asks == s.asks && (Prepare(e, s, agg, limit, qty, smp).Go? ==> agg in r.pool)
  {
    hide View, PreChecks.InReach, PreChecks.CanFill, SelfOf;
  }

  lemma GoThins(e: Engine, s: State, agg: nat, limit: Price, qty: nat, smp: SmpMode)
    requires e.Valid() && Incoming(s, agg, limit, qty) && Prepare(e, s, agg, limit, qty, smp).Go?
    ensures var r, side := Prepare(e, s, agg, limit, qty, smp).state, s.pool[agg].side;
            && agg in r.pool
            && var t := Loop(e, r, agg, limit, smp).state;
               t.On(side) == s.On(side) && Thinned(s.On(Opposite(side)), t.On(Opposite(side)))
  {
    hide View, Inv, PreChecks.InReach, PreChecks.CanFill, FitsBeside, Loop, SelfOf, StepOk, ActAll, ActionsOk, Thinned;
    PreparedState(s, agg, limit, qty);
    var r, side := Prepare(e, s, agg, limit, qty, smp).state, s.pool[agg].side;
    assert r.On(side) == s.On(side) && r.On(Opposite(side)) == s.On(Opposite(side));
    SameTerms(s, r, agg, limit, smp);
    LoopKeeps(e, r, agg, limit, smp);
    LoopThins(r, Loop(e, r, agg, limit, smp), agg, limit);
  }

  lemma LoopThins(s: State, m: Matched, agg: nat, limit: Price)
    requires Inv(s, {agg}) && MatchOk(s, m, agg, limit)
    ensures var side := s.pool[agg].side;
            m.state.On(side) == s.On(side) && Thinned(s.On(Opposite(side)), m.state.On(Opposite(side)))
  {
    hide View, Filled, PhantomAt, IndexOk, LookupsOk, Uncrossed, RestsAsRecorded, ActAll, ActionsOk, FitsBeside;
    var opp := Opposite(s.pool[agg].side);
    assert Opposite(opp) == s.pool[agg].side;
    assert WellFormed(opp, s.On(opp));
    if ActionsOk(s.On(opp), m.actions) {
      ActAllThins(s.On(opp), m.actions);
    }
  }

  lemma MatchFeedThins(e: Engine, s: State, side: Side, price: Price, qty: nat, seqNum: nat)
    requires e.Valid() && Inv(s, {}) && !s.Refuses(seqNum)
    ensures var t := MatchFeed(e, s, side, price, qty, seqNum).state;
            t.On(side) == s.On(side) && Thinned(s.On(Opposite(side)), t.On(Opposite(side)))
  {
    hide View, Inv, MatchFeed, ActAll, ActionsOk, FitsBeside, Filled;
    MatchFeedKeeps(e, s, side, price, qty, seqNum);
    SideIsOk(s, Opposite(side));
    ActAllThins(s.On(Opposite(side)), MatchFeed(e, s, side, price, qty, seqNum).actions);
    assert Opposite(Opposite(side)) == side;
  }

  // ----- the counter

  ghost predicate Below(q: seq<Resting>, next: nat) {
    forall j :: j in View(q) ==> View(q)[j].priority < next
  }

  ghost predicate AllBelow(s: State, next: nat) {
    Below(s.bids, next) && Below(s.asks, next)
  }

  /** An event draws a priority when an order comes to rest by it, or an accepted amendment moves or grows one. */
  ghost predicate Takes(cfg: Config, x: Venue, ev: Event)
    requires cfg.engine.Valid()
  {
    || StatementRuns.Draws(cfg, x, ev)
    || ((ev.LevelUpdate? || ev.TradePrint? || ev.SnapshotLevel?) && Mirror.IsResting(Step(cfg, x, ev).book, ev.id))
    || (ev.MarketOrder? && !ev.event.DeleteMarketOrder? && Mirror.IsResting(Step(cfg, x, ev).book, ev.event.id))
  }

  /** The priority an event carries. */
  function Carried(ev: Event): nat {
    match ev
    case New(_, _, p) => p
    case Amend(_, _, _, _, p) => p
    case LevelUpdate(_, _, _, _, _, p) => p
    case TradePrint(_, _, _, _, _, p) => p
    case SnapshotLevel(_, _, _, _, _, p) => p
    case MarketOrder(e) => if e.DeleteMarketOrder? then 0 else e.priority
    case _ => 0
  }

  /** One more than the highest priority drawn so far. A mirrored order may rest again under an earlier one. */
  ghost function Next(cfg: Config, x: Venue, ev: Event, next: nat): nat
    requires cfg.engine.Valid()
  {
    if Takes(cfg, x, ev) && Carried(ev) >= next then Carried(ev) + 1 else next
  }

  ghost function NextAfter(cfg: Config, x: Venue, run: seq<Event>, next: nat): nat
    requires cfg.engine.Valid()
    decreases |run|
  {
    if run == [] then next else NextAfter(cfg, Step(cfg, x, run[0]), run[1..], Next(cfg, x, run[0], next))
  }

  lemma GrownBelow(q: seq<Resting>, r: seq<Resting>, id: nat, p: nat, next: nat)
    requires GrownBy(q, r, id, p) && Below(q, next)
    ensures p >= next ==> Below(r, p + 1)
    ensures id !in View(r) || p < next ==> Below(r, next)
  {
    hide View;
  }

  lemma ThinnedBelow(q: seq<Resting>, r: seq<Resting>, next: nat, later: nat)
    requires Thinned(q, r) && Below(q, next) && later >= next
    ensures Below(r, later)
  {
    hide View;
  }

  // ----- each event

  ghost predicate Grown(s: State, t: State, id: nat, p: nat) {
    GrownBy(s.bids, t.bids, id, p) && GrownBy(s.asks, t.asks, id, p)
  }

  /** From what happened on one side and on the other. */
  lemma GrownSides(s: State, t: State, side: Side, id: nat, p: nat)
    requires GrownBy(s.On(side), t.On(side), id, p) && GrownBy(s.On(Opposite(side)), t.On(Opposite(side)), id, p)
    ensures Grown(s, t, id, p)
  {
    hide GrownBy;
  }

  lemma ThinnedGrows(q: seq<Resting>, r: seq<Resting>, id: nat, p: nat)
    requires Thinned(q, r)
    ensures GrownBy(q, r, id, p)
  {
    hide View;
  }

  lemma NotResting(t: State, side: Side, id: nat)
    requires id !in View(t.On(side)) && id !in View(t.On(Opposite(side)))
    ensures !Mirror.IsResting(t, id)
  {
    hide View;
  }

  lemma NewGrows(e: Engine, smp: SmpMode, s: State, id: nat, o: Order, priority: nat)
    requires e.Valid() && Inv(s, {}) && FreshOrder(s, id, o)
    ensures var t := NewOrder(e, smp, s, id, o, priority).state;
            Grown(s, t, id, priority) && (id !in t.pool ==> !Mirror.IsResting(t, id))
  {
    hide View, Inv, MatchOrder, Thinned, GrownBy, Outcomes, RestOwn, Grown;
    var a := Allocate(s, id, o);
    assert a.On(o.side) == s.On(o.side) && a.On(Opposite(o.side)) == s.On(Opposite(o.side));
    AllocatedIsIncoming(s, id, o);
    MatchOrderThins(e, a, id, o.price, o.quantity, smp);
    var m := MatchOrder(e, a, id, o.price, o.quantity, smp);
    var t := NewOrder(e, smp, s, id, o, priority).state;
    ThinnedGrows(s.On(Opposite(o.side)), m.state.On(Opposite(o.side)), id, priority);
    UnusedOn(s, o.side, id);
    if m.reason == Accepted && id in m.state.pool && m.state.pool[id].leaves > 0 && m.state.pool[id].RestsRemainder() {
      SideOfMatched(e, a, id, o.price, o.quantity, smp);
      RestOwnShape(m.state, id, priority);
      SideIsOk(s, o.side);
      var x := Resting(id, o.price, m.state.pool[id].leaves, priority);
      InsertGrows(o.side, s.On(o.side), x);
      hide Insert;
      assert t.On(o.side) == Insert(o.side, s.On(o.side), x);
      assert t.On(Opposite(o.side)) == m.state.On(Opposite(o.side));
    } else {
      assert t.On(o.side) == s.On(o.side) && t.On(Opposite(o.side)) == m.state.On(Opposite(o.side));
      SelfGrows(s.On(o.side), id, priority);
      ThinnedAbsent(s.On(Opposite(o.side)), t.On(Opposite(o.side)), id);
      NotResting(t, o.side, id);
    }
    GrownSides(s, t, o.side, id, priority);
  }

  lemma UnusedOn(s: State, side: Side, id: nat)
    requires Unused(s, id)
    ensures id !in View(s.On(side)) && id !in View(s.On(Opposite(side)))
  {
    hide View;
  }

  lemma SelfGrows(q: seq<Resting>, id: nat, p: nat)
    ensures GrownBy(q, q, id, p)
  {
    hide View;
  }

  lemma ThinnedAbsent(q: seq<Resting>, r: seq<Resting>, id: nat)
    requires Thinned(q, r) && id !in View(q)
    ensures id !in View(r)
  {
    hide View;
  }

  lemma SideOfMatched(e: Engine, s: State, agg: nat, limit: Price, qty: nat, smp: SmpMode)
    requires e.Valid() && Incoming(s, agg, limit, qty) && MatchOrder(e, s, agg, limit, qty, smp).reason == Accepted
    ensures var t := MatchOrder(e, s, agg, limit, qty, smp).state;
            agg in t.pool && t.pool[agg].side == s.pool[agg].side && t.pool[agg].price == limit
  {
    hide View, Inv, MatchOrder, FitsBeside;
    MatchOrderOutcomes(e, s, agg, limit, qty, smp);
  }

  lemma AmendGrows(e: Engine, smp: SmpMode, s: State, id: nat, price: Price, qty: nat, priority: nat)
    requires e.Valid() && Inv(s, {}) && id in s.orders && id in s.pool
    ensures var m, side := Requests.Amend(e, smp, s, id, price, qty, priority), s.pool[id].side;
            var pr := if m.reason == Accepted && Requeues(s, id, price, qty) then priority else s.pool[id].priority;
            && Grown(s, m.state, id, pr)
            && id in View(s.On(side)) && View(s.On(side))[id].priority == s.pool[id].priority
  {
    hide View, Inv, MatchOrder, Thinned, GrownBy, Outcomes, SettleAmended, Grown, Incoming, Shrinks;
    var a, side := Marked(s, id), s.pool[id].side;
    MarkedIsIncoming(s, id, price, qty);
    MatchOrderThins(e, a, id, price, qty, smp);
    assert a.On(side) == s.On(side) && a.On(Opposite(side)) == s.On(Opposite(side));
    RestingNow(s, id);
    var m, n := MatchOrder(e, a, id, price, qty, smp), Requests.Amend(e, smp, s, id, price, qty, priority);
    var pr := if n.reason == Accepted && Requeues(s, id, price, qty) then priority else s.pool[id].priority;
    ThinnedGrows(s.On(Opposite(side)), m.state.On(Opposite(side)), id, pr);
    if n.reason == Accepted {
      AmendedQueue(e, smp, s, id, price, qty, priority);
      AmendedOther(e, smp, s, id, price, qty, priority);
      SideIsOk(s, side);
      if id in n.state.pool {
        ModifiedGrows(side, s.On(side), Resting(id, price, n.state.pool[id].leaves, pr));
      } else {
        ResizeThins(s.On(side), id, 0);
        ThinnedGrows(s.On(side), Resize(s.On(side), id, 0), id, pr);
      }
    } else {
      SelfGrows(s.On(side), id, pr);
    }
    GrownSides(s, n.state, side, id, pr);
  }

  lemma RestingNow(s: State, id: nat)
    requires Inv(s, {}) && id in s.orders
    ensures id in s.pool && id in View(s.On(s.pool[id].side))
    ensures View(s.On(s.pool[id].side))[id].priority == s.pool[id].priority
  {
    hide View, QueuesOk, Uncrossed, IndexOk, LookupsOk;
    assert RestsAsRecorded(s, id);
  }

  lemma ModifiedGrows(side: Side, q: seq<Resting>, x: Resting)
    requires WellFormed(side, q) && x.id in View(q)
    ensures GrownBy(q, ModifiedQueue(side, q, x), x.id, x.priority)
  {
    ResizeView(q, x.id, x.qty);
    ResizeView(q, x.id, 0);
    InsertView(side, Resize(q, x.id, 0), x);
    hide View, WellFormed, Resize, Insert;
  }

  /** Settling an amendment touches its own side only. */
  lemma AmendedOther(e: Engine, smp: SmpMode, s: State, id: nat, price: Price, qty: nat, priority: nat)
    requires e.Valid() && Inv(s, {}) && id in s.orders && id in s.pool
    requires Requests.Amend(e, smp, s, id, price, qty, priority).reason == Accepted
    ensures var opp := Opposite(s.pool[id].side);
            Requests.Amend(e, smp, s, id, price, qty, priority).state.On(opp)
            == MatchOrder(e, Marked(s, id), id, price, qty, smp).state.On(opp)
  {
    hide View, Inv, MatchOrder, SettleAmended, Resize, Insert, Incoming, FitsBeside;
    var a := Marked(s, id);
    MarkedIsIncoming(s, id, price, qty);
    MatchOrderOutcomes(e, a, id, price, qty, smp);
    var m := MatchOrder(e, a, id, price, qty, smp);
    AmendedRests(s, m.state, id);
    var pr := if Requeues(s, id, price, qty) then priority else m.state.pool[id].priority;
    hide ModifiedQueue, Shrinks;
    if m.state.pool[id].leaves == 0 {
      SettleDoneShape(m.state, id, pr);
    } else {
      SettleLiveShape(m.state, id, pr);
    }
  }

  lemma CancelGrows(s: State, id: nat)
    requires Inv(s, {}) && id in s.orders
    ensures id in s.pool && id in View(s.On(s.pool[id].side)) && Grown(s, CancelOwn(s, id), id, s.pool[id].priority)
  {
    hide View, CancelOwn, Distinct, Sorted, PhantomAt, IndexOk, Uncrossed, LookupsOk, GrownBy, Resize, Grown;
    RestingNow(s, id);
    assert RestsAsRecorded(s, id);
    CancelOwnShape(s, id);
    var side, t := s.pool[id].side, CancelOwn(s, id);
    SideIsOk(s, side);
    ResizeThins(s.On(side), id, 0);
    ThinnedGrows(s.On(side), Resize(s.On(side), id, 0), id, s.pool[id].priority);
    SelfGrows(s.On(Opposite(side)), id, s.pool[id].priority);
    assert t.On(side) == Resize(s.On(side), id, 0) && t.On(Opposite(side)) == s.On(Opposite(side));
    GrownSides(s, t, side, id, s.pool[id].priority);
  }

  lemma MatchThenRestGrows(e: Engine, s: State, side: Side, x: Resting, seqNum: nat)
    requires e.Valid() && Inv(s, {}) && !s.Refuses(seqNum) && Unused(s, x.id)
    ensures Grown(s, MatchThenRest(e, s, side, x, seqNum).state, x.id, x.priority)
  {
    hide View, Inv, MatchFeed, Thinned, GrownBy, Insert, FitsBeside, ActAll, ActionsOk, Filled, Shrinks, Grown;
    MatchFeedKeeps(e, s, side, x.price, x.qty, seqNum);
    MatchFeedThins(e, s, side, x.price, x.qty, seqNum);
    var m := MatchFeed(e, s, side, x.price, x.qty, seqNum);
    ThinnedGrows(s.On(Opposite(side)), m.state.On(Opposite(side)), x.id, x.priority);
    SelfGrows(s.On(side), x.id, x.priority);
    UnusedOn(s, side, x.id);
    if m.remaining > 0 {
      var y := x.(qty := m.remaining);
      OwnUnused(s, x.id);
      ShrunkOrders(s, m.state, side);
      AddShape(m.state, side, y, seqNum);
      SideIsOk(s, side);
      InsertGrows(side, s.On(side), y);
      var t := L3Add(m.state, side, y, seqNum);
      hide L3Add;
      assert t.On(side) == Insert(side, s.On(side), y) && t.On(Opposite(side)) == m.state.On(Opposite(side));
    }
    GrownSides(s, MatchThenRest(e, s, side, x, seqNum).state, side, x.id, x.priority);
  }

  lemma OwnUnused(s: State, id: nat)
    requires Inv(s, {}) && Unused(s, id)
    ensures id !in s.orders
  {
    hide View, QueuesOk, Uncrossed, IndexOk, RestsAsRecorded;
  }

  lemma ShrunkOrders(s: State, t: State, side: Side)
    requires Shrinks(s, t, Opposite(side), None)
    ensures t.orders <= s.orders
  {
    hide View;
  }

  lemma {:induction false} TrimmedThins(q: seq<Resting>, p: Price, own: set<nat>, keep: nat)
    requires Distinct(q)
    ensures Thinned(q, Trimmed(q, p, own, keep))
  {
    if q != [] {
      var k := if IsPhantomAt(q[0], p, own) then Min(keep, q[0].qty) else 0;
      TrimmedThins(q[1..], p, own, keep - k);
      var rest := Trimmed(q[1..], p, own, keep - k);
      ViewCons(if k > 0 then q[0].(qty := k) else q[0], rest);
    }
  }

  lemma ReconciledGrows(s: State, t: State, side: Side, price: Price, target: nat, id: nat, priority: nat)
    requires Inv(s, {}) && Unused(s, id) && Reconciled(s, t, side, price, target, id, priority)
    ensures Grown(s, t, id, priority)
  {
    hide View, Inv, PhantomAt, Insert, Trimmed, GrownBy, Grown, OwnUntouched;
    SideIsOk(s, side);
    UnusedOn(s, side, id);
    SelfGrows(s.On(Opposite(side)), id, priority);
    var have := PhantomAt(s.On(side), price, s.orders);
    if target > have {
      InsertGrows(side, s.On(side), Resting(id, price, target - have, priority));
    } else {
      TrimmedThins(s.On(side), price, s.orders, target);
      ThinnedGrows(s.On(side), t.On(side), id, priority);
    }
    GrownSides(s, t, side, id, priority);
  }

  lemma GrownAllBelow(s: State, t: State, id: nat, p: nat, next: nat)
    requires Grown(s, t, id, p) && AllBelow(s, next)
    ensures p >= next ==> AllBelow(t, p + 1)
    ensures !Mirror.IsResting(t, id) || p < next ==> AllBelow(t, next)
  {
    hide View, GrownBy, Below;
    GrownBelow(s.bids, t.bids, id, p, next);
    GrownBelow(s.asks, t.asks, id, p, next);
  }

  lemma ThinnedAllBelow(s: State, t: State, side: Side, next: nat)
    requires AllBelow(s, next) && t.On(side) == s.On(side) && Thinned(s.On(Opposite(side)), t.On(Opposite(side)))
    ensures AllBelow(t, next)
  {
    hide View, Thinned, Below;
    ThinnedBelow(s.On(Opposite(side)), t.On(Opposite(side)), next, next);
    assert t.On(Buy) == t.bids && t.On(Sell) == t.asks && s.On(Buy) == s.bids && s.On(Sell) == s.asks;
  }

  lemma RestingBelow(s: State, side: Side, id: nat, next: nat)
    requires AllBelow(s, next) && id in View(s.On(side))
    ensures View(s.On(side))[id].priority < next
  {
    hide View;
  }

  lemma NewBelow(cfg: Config, x: Venue, id: nat, o: Order, priority: nat, next: nat)
    requires cfg.engine.Valid() && VenueInv(x) && AllBelow(x.book, next)
    requires Admissible(cfg, x, New(id, o, priority))
    ensures var ev := New(id, o, priority); AllBelow(Step(cfg, x, ev).book, Next(cfg, x, ev, next))
  {
    hide View, NewOrder, PhantomAt, IndexOk, Uncrossed, QueuesOk, RestsAsRecorded, AllBelow, Grown;
    if !(o.clientOrderId != "" && o.clientOrderId in x.book.byClient) {
      assert o.clientOrderId !in x.book.byClient;
      hide LookupsOk;
      NewGrows(cfg.engine, cfg.smp, x.book, id, o, priority);
      GrownAllBelow(x.book, NewOrder(cfg.engine, cfg.smp, x.book, id, o, priority).state, id, priority, next);
    }
  }

  lemma AmendBelow(cfg: Config, x: Venue, c: string, o: string, price: Price, qty: nat, priority: nat, next: nat)
    requires cfg.engine.Valid() && VenueInv(x) && AllBelow(x.book, next)
    ensures var ev := Exchange.Amend(c, o, price, qty, priority);
            AllBelow(Step(cfg, x, ev).book, Next(cfg, x, ev, next))
  {
    hide View, Requests.Amend, PhantomAt, IndexOk, Uncrossed, QueuesOk, RestsAsRecorded, AllBelow, Grown;
    var target := Find(x.book, c, o);
    if target.Some? {
      Runs.FoundIsOwn(x.book, c, o);
      hide LookupsOk, Find;
      var id := target.value;
      AmendGrows(cfg.engine, cfg.smp, x.book, id, price, qty, priority);
      RestingBelow(x.book, x.book.pool[id].side, id, next);
      var m := Requests.Amend(cfg.engine, cfg.smp, x.book, id, price, qty, priority);
      var pr := if m.reason == Accepted && Requeues(x.book, id, price, qty) then priority else x.book.pool[id].priority;
      GrownAllBelow(x.book, m.state, id, pr, next);
    }
  }

  lemma CancelBelow(x: Venue, c: string, o: string, next: nat)
    requires VenueInv(x) && AllBelow(x.book, next)
    ensures AllBelow(HandleCancel(x, Find(x.book, c, o)).book, next)
  {
    hide View, CancelOwn, PhantomAt, IndexOk, Uncrossed, QueuesOk, RestsAsRecorded, AllBelow, Grown;
    var target := Find(x.book, c, o);
    if target.Some? {
      Runs.FoundIsOwn(x.book, c, o);
      hide LookupsOk, Find;
      RestingNow(x.book, target.value);
      RestingBelow(x.book, x.book.pool[target.value].side, target.value, next);
      CancelGrows(x.book, target.value);
      GrownAllBelow(x.book, CancelOwn(x.book, target.value), target.value, x.book.pool[target.value].priority, next);
    }
  }

  lemma NothingNew(s: State, id: nat, p: nat)
    ensures Grown(s, s, id, p)
  {
    SelfGrows(s.bids, id, p);
    SelfGrows(s.asks, id, p);
    hide GrownBy;
  }

  lemma LevelGrows(cfg: Config, x: Venue, side: Side, r: Resting, time: nat)
    requires cfg.engine.Valid() && VenueInv(x) && Unused(x.book, r.id) && r.price != NULL_PRICE
    requires !x.book.Refuses(Stamp(cfg, x))
    ensures Grown(x.book, HandleLevel(cfg, x, side, r, time).book, r.id, r.priority)
  {
    hide Inv, MatchThenRest, Unused, ReconcileLevel, HasLevel, TradeCredits.TakeTradedQty, Reconciled, Grown;
    NothingNew(x.book, r.id, r.priority);
    if HasLevel(x.book, side, r.price) {
      var target := Offset(r.qty, TradeCredits.TakeTradedQty(x.credits, (side, r.price), time).1);
      ReconcileExact(x.book, side, r.price, target, r.id, r.priority, Stamp(cfg, x));
      ReconciledGrows(x.book, ReconcileLevel(x.book, side, r.price, target, r.id, r.priority, Stamp(cfg, x)),
                      side, r.price, target, r.id, r.priority);
    } else {
      MatchThenRestGrows(cfg.engine, x.book, side, r, Stamp(cfg, x));
    }
  }

  lemma FeedGrows(cfg: Config, x: Venue, ev: Event)
    requires cfg.engine.Valid() && VenueInv(x) && Admissible(cfg, x, ev)
    requires ev.LevelUpdate? || ev.TradePrint? || ev.SnapshotLevel?
    ensures Grown(x.book, Step(cfg, x, ev).book, ev.id, ev.priority)
  {
    hide Inv, HandleLevel, Unused, Exchange.Drawn, Stamp, MatchThenRest, Grown, CreditAll;
    Runs.DrawnStamp(cfg, x);
    var y := Exchange.Drawn(cfg, x);
    match ev
    case LevelUpdate(side, price, qty, time, id, priority) =>
      LevelGrows(cfg, y, side, Resting(id, price, qty, priority), time);
    case TradePrint(side, price, qty, time, id, priority) =>
      MatchThenRestGrows(cfg.engine, y.book, side, Resting(id, price, qty, priority), Stamp(cfg, y));
    case SnapshotLevel(side, price, qty, time, id, priority) =>
      Runs.CurrentStamp(cfg, x);
      MatchThenRestGrows(cfg.engine, x.book, side, Resting(id, price, qty, priority), Stamp(cfg, x));
  }

  lemma DeleteThins(s: State, id: nat)
    requires Inv(s, {}) && id !in s.orders
    ensures Thinned(s.bids, Mirror.DeleteOrder(s, id).bids) && Thinned(s.asks, Mirror.DeleteOrder(s, id).asks)
  {
    hide View, Inv, Resize, Thinned;
    SideIsOk(s, Buy);
    SideIsOk(s, Sell);
    SelfThins(s.bids);
    SelfThins(s.asks);
    if Mirror.IsResting(s, id) {
      var side := Mirror.SideOf(s, id);
      ResizeShape(s, side, id, 0, 0);
      ResizeThins(s.On(side), id, 0);
    }
    hide L3Resize;
  }

  lemma SelfThins(q: seq<Resting>)
    ensures Thinned(q, q)
  {
  }

  /** A change in place keeps the order's priority, wherever it moves it. */
  lemma ModifyGrows(s: State, id: nat, price: Price, qty: nat)
    requires Inv(s, {}) && Mirror.IsResting(s, id) && id !in s.orders
    ensures var p := View(s.On(Mirror.SideOf(s, id)))[id].priority;
            Grown(s, Mirror.ModifyOrder(s, id, price, qty), id, p)
  {
    hide View, Inv, Resize, Insert, GrownBy, Grown, Thinned;
    var side := Mirror.SideOf(s, id);
    var q, was, t := s.On(side), View(s.On(side))[id], Mirror.ModifyOrder(s, id, price, qty);
    SideIsOk(s, side);
    ViewIds(q);
    SelfGrows(s.On(Opposite(side)), id, was.priority);
    if qty == 0 || price == was.price {
      ResizeShape(s, side, id, qty, 0);
      ResizeThins(q, id, qty);
      ThinnedGrows(q, Resize(q, id, qty), id, was.priority);
      assert t.On(side) == Resize(q, id, qty) && t.On(Opposite(side)) == s.On(Opposite(side));
    } else {
      var x := Resting(id, price, qty, was.priority);
      Mirror.MoveShape(s, side, x);
      MovedGrows(side, q, x);
      assert t.On(side) == Insert(side, Resize(q, id, 0), x) && t.On(Opposite(side)) == s.On(Opposite(side));
    }
    hide L3Resize, L3Move;
    GrownSides(s, t, side, id, was.priority);
  }

  lemma MovedGrows(side: Side, q: seq<Resting>, x: Resting)
    requires WellFormed(side, q) && x.id in View(q)
    ensures GrownBy(q, Insert(side, Resize(q, x.id, 0), x), x.id, x.priority)
  {
    ResizeView(q, x.id, 0);
    InsertView(side, Resize(q, x.id, 0), x);
    hide View, WellFormed, Resize, Insert;
  }

  lemma GrownAfterThinned(s: State, u: State, t: State, id: nat, p: nat)
    requires Thinned(s.bids, u.bids) && Thinned(s.asks, u.asks) && Grown(u, t, id, p)
    ensures Grown(s, t, id, p)
  {
    hide View;
  }

  lemma RestsAnew(cfg: Config, s: State, e: Mirror.Event)
    requires cfg.engine.Valid() && Inv(s, {}) && e.id !in s.pool && !e.DeleteMarketOrder?
    ensures var u := Mirror.DeleteOrder(s, e.id);
            Grown(s, Mirror.RestMarketOrder(cfg.engine, u, e), e.id, e.priority)
  {
    hide View, Inv, MatchThenRest, Mirror.DeleteOrder, Grown, Thinned, Unused;
    NotOwn(s, e.id);
    Mirror.DeleteKeeps(s, e.id);
    DeleteThins(s, e.id);
    var u := Mirror.DeleteOrder(s, e.id);
    MatchThenRestGrows(cfg.engine, u, e.side, Resting(e.id, e.price, e.qty, e.priority), 0);
    GrownAfterThinned(s, u, Mirror.RestMarketOrder(cfg.engine, u, e), e.id, e.priority);
  }

  lemma NotOwn(s: State, id: nat)
    requires Inv(s, {}) && id !in s.pool
    ensures id !in s.orders
  {
  }

  lemma MarketOrderBelow(cfg: Config, x: Venue, e: Mirror.Event, next: nat)
    requires cfg.engine.Valid() && VenueInv(x) && Mirror.Admissible(x.book, e) && AllBelow(x.book, next)
    ensures var ev := MarketOrder(e); AllBelow(Step(cfg, x, ev).book, Next(cfg, x, ev, next))
  {
    hide View, Inv, MatchThenRest, Mirror.ModifyOrder, AllBelow, Grown, Thinned, FitsBeside;
    var s, t := x.book, Mirror.ApplyMarketOrder(cfg.engine, x.book, e);
    NotOwn(s, e.id);
    if e.DeleteMarketOrder? {
      DeleteThins(s, e.id);
      hide Mirror.DeleteOrder;
      BothThinnedBelow(s, t, next);
    } else if Mirror.InPlace(s, e) {
      var side := Mirror.SideOf(s, e.id);
      RestingBelow(s, side, e.id, next);
      ModifyGrows(s, e.id, e.price, e.qty);
      GrownAllBelow(s, t, e.id, View(s.On(side))[e.id].priority, next);
      LaterBelow(t, next, Next(cfg, x, MarketOrder(e), next));
    } else {
      RestsAnew(cfg, s, e);
      GrownAllBelow(s, t, e.id, e.priority, next);
    }
  }

  lemma BothThinnedBelow(s: State, t: State, next: nat)
    requires AllBelow(s, next) && Thinned(s.bids, t.bids) && Thinned(s.asks, t.asks)
    ensures AllBelow(t, next)
  {
    ThinnedBelow(s.bids, t.bids, next, next);
    ThinnedBelow(s.asks, t.asks, next, next);
    hide Below, Thinned;
  }

  lemma LaterBelow(s: State, next: nat, later: nat)
    requires AllBelow(s, next) && later >= next
    ensures AllBelow(s, later)
  {
    hide View;
  }

  lemma RebuiltBelow(s: State, ids: seq<nat>, next: nat)
    requires Inv(s, {}) && Rebuild.Lists(ids, s.orders) && AllBelow(s, next)
    ensures AllBelow(Rebuild.ClearMdOrders(s, ids), next)
  {
    hide View, Inv, Rebuild.ClearMdOrders, Rebuild.Lists;
    Rebuild.ClearMdOrdersKeeps(s, ids);
  }

  lemma StepBelow(cfg: Config, x: Venue, ev: Event, next: nat)
    requires cfg.engine.Valid() && VenueInv(x) && Admissible(cfg, x, ev) && AllBelow(x.book, next)
    ensures AllBelow(Step(cfg, x, ev).book, Next(cfg, x, ev, next))
  {
    if ev.New? {
      NewBelow(cfg, x, ev.id, ev.order, ev.priority, next);
    } else if ev.Amend? {
      AmendBelow(cfg, x, ev.clientOrderId, ev.orderId, ev.price, ev.qty, ev.priority, next);
    } else if ev.LevelUpdate? || ev.TradePrint? || ev.SnapshotLevel? {
      FeedGrows(cfg, x, ev);
      hide Step, AllBelow, Grown, Mirror.IsResting;
      GrownAllBelow(x.book, Step(cfg, x, ev).book, ev.id, ev.priority, next);
    } else if ev.Cancel? {
      CancelBelow(x, ev.clientOrderId, ev.orderId, next);
    } else if ev.MarketOrder? {
      MarketOrderBelow(cfg, x, ev.event, next);
    } else if ev.SnapshotBegin? {
      RebuiltBelow(x.book, ev.ownInMapOrder, next);
    } else {
      hide Inv, MatchFeed, AllBelow, Thinned;
      MatchFeedThins(cfg.engine, x.book, ev.side, ev.price, ev.qty, 0);
      ThinnedAllBelow(x.book, MatchFeed(cfg.engine, x.book, ev.side, ev.price, ev.qty, 0).state, ev.side, next);
    }
  }

  lemma {:induction false} RunBelow(cfg: Config, x: Venue, run: seq<Event>, next: nat)
    requires cfg.engine.Valid() && VenueInv(x) && Runs.AdmissibleRun(cfg, x, run)
    requires AllBelow(x.book, next)
    ensures VenueInv(Runs.Run(cfg, x, run)) && AllBelow(Runs.Run(cfg, x, run).book, NextAfter(cfg, x, run, next))
    decreases |run|
  {
    hide VenueInv, Step, Admissible, AllBelow, Takes;
    if run != [] {
      Runs.StepKeeps(cfg, x, run[0]);
      StepBelow(cfg, x, run[0], next);
      RunBelow(cfg, Step(cfg, x, run[0]), run[1..], Next(cfg, x, run[0], next));
    }
  }

  lemma StartBelow()
    ensures AllBelow(START.book, 0)
  {
  }

  lemma BelowIsYoungest(s: State, side: Side, x: Resting, next: nat)
    requires AllBelow(s, next) && x.priority >= next
    ensures Youngest(s.On(side), x)
  {
    hide View;
  }

  /**
   After any run, a new order that comes to rest under a priority above all drawn before stands last of its
   level, among own and mirrored orders alike.
   */
  lemma NewArrivesLast(cfg: Config, run: seq<Event>, id: nat, o: Order, priority: nat)
    requires cfg.engine.Valid() && Runs.AdmissibleRun(cfg, START, run)
    requires Admissible(cfg, Runs.Run(cfg, START, run), New(id, o, priority))
    requires priority >= NextAfter(cfg, START, run, 0)
    requires id in Step(cfg, Runs.Run(cfg, START, run), New(id, o, priority)).book.orders
    ensures var s := Runs.Run(cfg, START, run).book;
            var t := Step(cfg, Runs.Run(cfg, START, run), New(id, o, priority)).book;
            && id in t.pool
            && LastOfItsLevel(o.side, s.On(o.side), Resting(id, o.price, t.pool[id].leaves, priority), t.On(o.side))
  {
    hide Runs.Run, Runs.AdmissibleRun, NextAfter, AllBelow, View, LastOfItsLevel, NewOrder, Youngest;
    Runs.StartInv();
    StartBelow();
    RunBelow(cfg, START, run, 0);
    var x := Runs.Run(cfg, START, run);
    UnusedIsNotOwn(x, id);
    FreshHere(cfg, x, id, o, priority);
    hide Inv, FreshOrder;
    BelowIsYoungest(x.book, o.side, Resting(id, o.price, 0, priority), NextAfter(cfg, START, run, 0));
    NewRestsLast(cfg.engine, cfg.smp, x.book, id, o, priority);
  }

  lemma UnusedIsNotOwn(x: Venue, id: nat)
    requires VenueInv(x) && Unused(x.book, id)
    ensures id !in x.book.orders
  {
    OwnUnused(x.book, id);
  }

  lemma FreshHere(cfg: Config, x: Venue, id: nat, o: Order, priority: nat)
    requires VenueInv(x) && Admissible(cfg, x, New(id, o, priority))
    ensures o.clientOrderId == "" || o.clientOrderId !in x.book.byClient ==> FreshOrder(x.book, id, o)
  {
    hide View, QueuesOk, Uncrossed, IndexOk, RestsAsRecorded;
  }

  /** And so does an order that an accepted amendment moves or grows, if anything of it is left. */
  lemma RequeuedArrivesLast(cfg: Config, run: seq<Event>, id: nat, price: Price, qty: nat, priority: nat)
    requires cfg.engine.Valid() && Runs.AdmissibleRun(cfg, START, run)
    requires priority >= NextAfter(cfg, START, run, 0)
    requires var s := Runs.Run(cfg, START, run).book;
             && id in s.orders && id in s.pool && (price != s.pool[id].price || qty > s.pool[id].quantity)
             && Requests.Amend(cfg.engine, cfg.smp, s, id, price, qty, priority).reason == Accepted
    ensures var s := Runs.Run(cfg, START, run).book;
            var t, side := Requests.Amend(cfg.engine, cfg.smp, s, id, price, qty, priority).state, s.pool[id].side;
            id in t.pool ==>
              LastOfItsLevel(side, Resize(s.On(side), id, 0), Resting(id, price, t.pool[id].leaves, priority), t.On(side))
  {
    hide Runs.Run, Runs.AdmissibleRun, NextAfter, AllBelow, View, LastOfItsLevel, Requests.Amend, Youngest, Inv;
    Runs.StartInv();
    StartBelow();
    RunBelow(cfg, START, run, 0);
    var s := Runs.Run(cfg, START, run).book;
    RestingNow(s, id);
    RestingBelow(s, s.pool[id].side, id, NextAfter(cfg, START, run, 0));
    BelowIsYoungest(s, s.pool[id].side, Resting(id, price, 0, priority), NextAfter(cfg, START, run, 0));
    RequeuedGoesLast(cfg.engine, cfg.smp, s, id, price, qty, priority);
  }
}
