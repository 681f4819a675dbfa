/** What becomes of a request, said in the terms of its sender: prices, quantities, times in force, client ids. */
module OrderFates {
  import opened Types
  import opened Queue
  import opened Orders
  import opened BookState
  import opened BookInvariant
  import opened BookOps
  import opened MatchPlan
  import opened Matching
  import opened Requests
  import opened RequestLaws
  import opened Liquidity
  import opened Statements
  import opened StatementLaws
  import Priority
  import PreChecks
  import ProRata

  // ----- orders of one client

  /** Two orders of one identified client; -1 identifies nobody. */
  predicate SameClient(a: Order, b: Order) {
    a.clientId == b.clientId && a.clientId != -1
  }

  /** Our own resting orders of the aggressor's client. */
  ghost function OfSameClient(s: State, agg: nat): set<nat>
    requires agg in s.pool
  {
    set id | id in s.orders && id in s.pool && SameClient(s.pool[agg], s.pool[id])
  }

  lemma SelfIsSameClient(s: State, agg: nat)
    requires agg in s.pool
    ensures SelfOf(s, agg) == OfSameClient(s, agg)
  {
  }

  /** Only orders outside `removed` are filled, only orders inside it cancelled. */
  ghost predicate KeepsApart(acts: seq<Action>, removed: set<nat>) {
    forall i :: 0 <= i < |acts| ==> if acts[i].Fill? then acts[i].id !in removed else acts[i].id in removed
  }

  lemma {:induction false} FifoKeepsApart(t: Terms, q: seq<Resting>, qty: nat)
    ensures KeepsApart(FifoPlan(t, q, qty).actions, Removed(t))
  {
    if !t.Stops(q, qty) {
      FifoKeepsApart(t, q[1..], if t.Blocks(q[0]) then qty else qty - Min(qty, q[0].qty));
    }
  }

  lemma {:induction false} CancelsRemove(t: Terms, level: seq<Resting>)
    ensures KeepsApart(Cancels(t, level), Removed(t))
    ensures forall i :: 0 <= i < |Kept(t, level)| ==> Kept(t, level)[i].id !in Removed(t)
  {
    if level != [] {
      CancelsRemove(t, level[1..]);
    }
  }

  lemma {:induction false} FillsKept(level: seq<Resting>, alloc: seq<nat>, removed: set<nat>)
    requires forall i :: 0 <= i < |level| ==> level[i].id !in removed
    ensures KeepsApart(LevelFills(level, alloc), removed)
  {
    if level != [] && alloc != [] {
      FillsKept(level[1..], alloc[1..], removed);
    }
  }

  lemma {:induction false} ProRataKeepsApart(split: Splitting, t: Terms, q: seq<Resting>, qty: nat)
    ensures KeepsApart(ProRataPlan(split, t, q, qty).actions, Removed(t))
    decreases |q|
  {
    hide Total, Front, Crosses;
    if !t.Stops(q, qty) {
      var kept := Kept(t, Front(q));
      CancelsRemove(t, Front(q));
      FillsKept(kept, split(Sizes(kept), qty), Removed(t));
      ProRataKeepsApart(split, t, Behind(q), qty - Min(qty, Total(kept)));
    }
  }

  lemma PlanKeepsApart(e: Engine, t: Terms, q: seq<Resting>, qty: nat)
    requires e.Valid()
    ensures KeepsApart(Plan(e, t, q, qty).actions, Removed(t))
  {
    match e
    case Fifo => FifoKeepsApart(t, q, qty);
    case ProRataEngine(cfg) => ProRataKeepsApart(ProRata.Splitter(cfg), t, q, qty);
  }

  /** What the aggressor's match may not trade with. */
  ghost function KeptOut(s: State, agg: nat, smp: SmpMode): set<nat>
    requires agg in s.pool
  {
    if smp == SmpNone then {} else OfSameClient(s, agg)
  }

  /** An order of the aggressor's client rests on the other side at a price the aggressor would accept. */
  ghost predicate MeetsOwn(s: State, agg: nat, limit: Price) {
    agg in s.pool &&
    exists id :: id in OfSameClient(s, agg) && id in View(s.On(Opposite(s.pool[agg].side)))
                 && Acceptable(Opposite(s.pool[agg].side), View(s.On(Opposite(s.pool[agg].side)))[id].price, limit)
  }

  lemma ReachMeetsOwn(e: Engine, s: State, agg: nat, limit: Price, smp: SmpMode, qty: nat)
    requires agg in s.pool && WellFormed(Opposite(s.pool[agg].side), s.On(Opposite(s.pool[agg].side)))
    requires var t := TermsOf(s, agg, limit, smp); PreChecks.InReach(e, t, s.On(t.side), qty)
    ensures MeetsOwn(s, agg, limit)
  {
    var t := TermsOf(s, agg, limit, smp);
    var q := s.On(t.side);
    SelfIsSameClient(s, agg);
    var i: nat :| i < |q| && q[i].id in t.self && Crosses(t.side, q[i].price, t.limit);
    ViewMember(q);
    assert q[i] in q;
  }

  /** How self-match prevention shows in a match, whatever the mode. */
  ghost predicate ClientsKeptApart(s: State, m: Matched, agg: nat, limit: Price, smp: SmpMode)
    requires agg in s.pool
  {
    && KeepsApart(m.actions, KeptOut(s, agg, smp))
    && (m.reason == SelfMatch ==> smp == CancelNewest && MeetsOwn(s, agg, limit))
  }

  /** What a match trades, in plain terms, and that it is taken from the orders resting on the other side. */
  ghost predicate TradesPlainly(s: State, m: Matched, agg: nat, limit: Price, qty: nat, smp: SmpMode)
    requires agg in s.pool
  {
    var opp := Opposite(s.pool[agg].side);
    && (m.reason != Accepted ==> m.actions == [])
    && (m.reason == Accepted ==>
          Filled(m.actions) == Min(qty, Tradable(opp, s.On(opp), limit, KeptOut(s, agg, smp))))
    && PaysWithin(opp, m.actions, limit)
    && ActionsOk(s.On(opp), m.actions) && m.state.On(opp) == ActAll(s.On(opp), m.actions)
  }

  lemma MatchPlainly(e: Engine, s: State, agg: nat, limit: Price, qty: nat, smp: SmpMode)
    requires e.Valid() && Incoming(s, agg, limit, qty)
    ensures var m := MatchOrder(e, s, agg, limit, qty, smp);
            && ClientsKeptApart(s, m, agg, limit, smp)
            && TradesPlainly(s, m, agg, limit, PreviewLeaves(s.pool[agg], qty), smp)
  {
    hide View, Inv, PreChecks.InReach, PreChecks.CanFill, FitsBeside, Loop, SelfOf, KeepsApart, Tradable;
    hide OfSameClient, MeetsOwn, ActAll, ActionsOk;
    SelfIsSameClient(s, agg);
    PreparedState(s, agg, limit, qty);
    var t := TermsOf(s, agg, limit, smp);
    NoActions(t, KeptOut(s, agg, smp), s.On(t.side));
    var p := Prepare(e, s, agg, limit, qty, smp);
    if p.Go? {
      var r := p.state;
      SameTerms(s, r, agg, limit, smp);
      assert r.On(t.side) == s.On(t.side);
      LoopPlainly(e, r, agg, limit, smp);
      SelfIsSameClient(r, agg);
    } else if p.reason == SelfMatch {
      SideOk(s, agg, limit, qty);
      ReachMeetsOwn(e, s, agg, limit, smp, PreviewLeaves(s.pool[agg], qty));
    }
  }

  lemma LoopPlainly(e: Engine, s: State, agg: nat, limit: Price, smp: SmpMode)
    requires e.Valid() && Inv(s, {agg}) && agg in s.pool
    requires Opposing(s, Opposite(s.pool[agg].side), Some(agg)) && s.pool[agg].leaves > 0
    requires var t := TermsOf(s, agg, limit, smp);
             smp == CancelNewest ==> !PreChecks.InReach(e, t, s.On(t.side), s.pool[agg].leaves)
    ensures var m, t := Loop(e, s, agg, limit, smp), TermsOf(s, agg, limit, smp);
            var q := s.On(t.side);
            && m.reason == Accepted && KeepsApart(m.actions, Removed(t))
            && Filled(m.actions) == Min(s.pool[agg].leaves, Tradable(t.side, q, limit, Removed(t)))
            && PaysWithin(t.side, m.actions, limit) && ActionsOk(q, m.actions) && m.state.On(t.side) == ActAll(q, m.actions)
  {
    LoopKeeps(e, s, agg, limit, smp);
    hide View, Distinct, Sorted, AllReal, PhantomAt, IndexOk, LookupsOk, Uncrossed, RestsAsRecorded, FitsBeside, Shrinks;
    hide PreChecks.InReach, ApplyAll, Plan, SelfOf, KeepsApart, Tradable, ActAll, ActionsOk, Filled, Removed, PaysWithin;
    var t := TermsOf(s, agg, limit, smp);
    NotTurnedBack(e, t, s.On(t.side), s.pool[agg].leaves);
    MatchTakes(e, t, s.On(t.side), s.pool[agg].leaves);
    PlanKeepsApart(e, t, s.On(t.side), s.pool[agg].leaves);
  }

  lemma SideOk(s: State, agg: nat, limit: Price, qty: nat)
    requires Incoming(s, agg, limit, qty)
    ensures WellFormed(Opposite(s.pool[agg].side), s.On(Opposite(s.pool[agg].side)))
  {
  }

  lemma NoActions(t: Terms, removed: set<nat>, q: seq<Resting>)
    ensures KeepsApart([], removed) && Filled([]) == 0 && PaysWithin(t.side, [], t.limit)
    ensures ActionsOk(q, []) && ActAll(q, []) == q
  {
  }

  // ----- new orders

  /** A limit order for the day, until cancelled, or until a date. */
  predicate MayRest(price: Price, tif: TimeInForce) {
    price != NULL_PRICE && (tif == Day || tif == GoodTillCancel || tif == GoodTillDate)
  }

  /** Out of the book, the maps and the pool. */
  ghost predicate Gone(s: State, id: nat) {
    id !in s.orders && id !in s.pool && id !in View(s.bids) && id !in View(s.asks)
  }

  /** Whose order it is, what it is called, which way it trades and how long it is good for. */
  predicate SameIdentity(a: Order, b: Order) {
    && a.side == b.side && a.clientId == b.clientId && a.clientOrderId == b.clientOrderId && a.orderId == b.orderId
    && a.tif == b.tif
  }

  lemma MatchedIdentity(s: State, m: Matched, agg: nat, limit: Price, qty: nat)
    requires Outcomes(s, m, agg, limit, qty) && m.reason == Accepted
    ensures SameIdentity(m.state.pool[agg], s.pool[agg])
    ensures m.state.pool[agg].leaves > 0 ==> m.state.pool[agg].cum + m.state.pool[agg].leaves == m.state.pool[agg].quantity
  {
    hide View, Inv, FitsBeside;
  }

  /** Resting on its side with exactly this record and this place. */
  ghost predicate RestsWith(s: State, id: nat, side: Side, price: Price, leaves: nat, priority: nat) {
    && id in s.orders && id in s.pool && id in View(s.On(side))
    && View(s.On(side))[id] == Resting(id, price, leaves, priority)
    && s.pool[id].side == side && s.pool[id].price == price && s.pool[id].leaves == leaves && s.pool[id].priority == priority
  }

  lemma GoneOn(t: State, side: Side, id: nat)
    requires id !in t.orders && id !in t.pool && id !in View(t.On(side)) && id !in View(t.On(Opposite(side)))
    ensures Gone(t, id)
  {
    hide View;
  }

  /** What the match leaves of an order of its own kind: nothing of it is in the book yet. */
  lemma MatchedAbsent(e: Engine, smp: SmpMode, s: State, id: nat, o: Order)
    requires e.Valid() && Inv(s, {}) && FreshOrder(s, id, o)
    ensures var m := MatchOrder(e, Allocate(s, id, o), id, o.price, o.quantity, smp);
            && id !in m.state.orders && id in m.state.pool
            && id !in View(m.state.On(o.side)) && id !in View(m.state.On(Opposite(o.side)))
            && m.state.On(o.side) == s.On(o.side) && m.state.pool[id].side == o.side
  {
    hide View, PhantomAt, IndexOk, Uncrossed, LookupsOk, RestsAsRecorded, QueuesOk, MatchOrder, FitsBeside;
    var a := Allocate(s, id, o);
    AllocatedIsIncoming(s, id, o);
    MatchOrderOutcomes(e, a, id, o.price, o.quantity, smp);
    assert a.On(o.side) == s.On(o.side) && a.On(Opposite(o.side)) == s.On(Opposite(o.side));
    assert id !in View(s.On(o.side)) && id !in View(s.On(Opposite(o.side)));
  }

  /**
   An accepted new order trades the smaller of its quantity and the quantity resting at prices it accepts,
   orders of its own client apart. What is left rests at its own price, if it has one and is good for the
   day, till cancelled or till a date; anything else is gone.
   */
  lemma NewOrderFate(e: Engine, smp: SmpMode, s: State, id: nat, o: Order, priority: nat)
    requires e.Valid() && Inv(s, {}) && FreshOrder(s, id, o)
    ensures var m, a := NewOrder(e, smp, s, id, o, priority), Allocate(s, id, o);
            var traded := Filled(m.actions);
            && traded <= o.quantity
            && ClientsKeptApart(a, m, id, o.price, smp) && TradesPlainly(a, m, id, o.price, o.quantity, smp)
            && if m.reason == Accepted && traded < o.quantity && MayRest(o.price, o.tif)
               then && RestsWith(m.state, id, o.side, o.price, o.quantity - traded, priority)
                    && m.state.pool[id].cum == traded && m.state.pool[id].quantity == o.quantity && SameIdentity(m.state.pool[id], o)
               else Gone(m.state, id)
  {
    hide View, PhantomAt, IndexOk, Uncrossed, LookupsOk, RestsAsRecorded, QueuesOk, MatchOrder, FitsBeside, RestOwn, Shrinks;
    hide ClientsKeptApart, TradesPlainly, Inv;
    var a := Allocate(s, id, o);
    AllocatedIsIncoming(s, id, o);
    MatchPlainly(e, a, id, o.price, o.quantity, smp);
    MatchOrderOutcomes(e, a, id, o.price, o.quantity, smp);
    MatchedAbsent(e, smp, s, id, o);
    var m, t := MatchOrder(e, a, id, o.price, o.quantity, smp), NewOrder(e, smp, s, id, o, priority).state;
    NothingFilled();
    NewOrderOtherSide(e, smp, s, id, o, priority);
    SameTrades(a, m, NewOrder(e, smp, s, id, o, priority), id, o.price, o.quantity, smp);
    if m.reason == Accepted && m.state.pool[id].leaves > 0 && m.state.pool[id].RestsRemainder() {
      MatchedIdentity(a, m, id, o.price, o.quantity);
      RestsNow(m.state, id, o.side, priority, o.price);
    } else {
      assert t == FreeOrder(m.state, id);
      assert t.On(o.side) == m.state.On(o.side) && t.On(Opposite(o.side)) == m.state.On(Opposite(o.side));
      GoneOn(t, o.side, id);
    }
  }

  /** Coming to rest leaves the other side as the match left it. */
  lemma NewOrderOtherSide(e: Engine, smp: SmpMode, s: State, id: nat, o: Order, priority: nat)
    requires e.Valid() && Inv(s, {}) && FreshOrder(s, id, o)
    ensures var m := MatchOrder(e, Allocate(s, id, o), id, o.price, o.quantity, smp);
            NewOrder(e, smp, s, id, o, priority).state.On(Opposite(o.side)) == m.state.On(Opposite(o.side))
  {
    hide View, Inv, MatchOrder, RestOwn, FitsBeside;
    AllocatedIsIncoming(s, id, o);
    MatchOrderOutcomes(e, Allocate(s, id, o), id, o.price, o.quantity, smp);
    var m := MatchOrder(e, Allocate(s, id, o), id, o.price, o.quantity, smp);
    if m.reason == Accepted && m.state.pool[id].leaves > 0 {
      RestOwnShape(m.state, id, priority);
    }
  }

  lemma AmendOtherSide(e: Engine, smp: SmpMode, s: State, id: nat, price: Price, qty: nat, priority: nat)
    requires e.Valid() && Inv(s, {}) && id in s.orders && id in s.pool
    ensures var m, opp := MatchOrder(e, Marked(s, id), id, price, qty, smp), Opposite(s.pool[id].side);
            Amend(e, smp, s, id, price, qty, priority).state.On(opp) == m.state.On(opp)
  {
    hide View, PhantomAt, IndexOk, Uncrossed, LookupsOk, QueuesOk, RestsAsRecorded, MatchOrder, FitsBeside, SettleAmended;
    MarkedIsIncoming(s, id, price, qty);
    MatchOrderOutcomes(e, Marked(s, id), id, price, qty, smp);
    var m := MatchOrder(e, Marked(s, id), id, price, qty, smp);
    if m.reason == Accepted {
      AmendedRests(s, m.state, id);
      var pr := if price != s.pool[id].price || qty > s.pool[id].quantity then priority else m.state.pool[id].priority;
      if m.state.pool[id].leaves == 0 {
        SettleDoneShape(m.state, id, pr);
      } else {
        SettleLiveShape(m.state, id, pr);
      }
    }
  }

  lemma SameTrades(s: State, m: Matched, n: Matched, agg: nat, limit: Price, qty: nat, smp: SmpMode)
    requires agg in s.pool && n.reason == m.reason && n.actions == m.actions
    requires n.state.On(Opposite(s.pool[agg].side)) == m.state.On(Opposite(s.pool[agg].side))
    requires ClientsKeptApart(s, m, agg, limit, smp) && TradesPlainly(s, m, agg, limit, qty, smp)
    ensures ClientsKeptApart(s, n, agg, limit, smp) && TradesPlainly(s, n, agg, limit, qty, smp)
  {
  }

  lemma RestsNow(s: State, id: nat, side: Side, priority: nat, price: Price)
    requires Inv(s, {id}) && id in s.pool && s.pool[id].leaves > 0 && s.pool[id].side == side && s.pool[id].price == price
    requires id !in View(s.On(side))
    ensures RestsWith(RestOwn(s, id, priority), id, side, price, s.pool[id].leaves, priority)
    ensures RestOwn(s, id, priority).pool == s.pool[id := s.pool[id].(priority := priority)]
  {
    hide View, Insert, PhantomAt, IndexOk, Uncrossed, LookupsOk, RestsAsRecorded, Distinct, Sorted, AllReal;
    RestOwnShape(s, id, priority);
    hide RestOwn;
    var x := Resting(id, price, s.pool[id].leaves, priority);
    assert WellFormed(side, s.On(side));
    InsertView(side, s.On(side), x);
    assert RestOwn(s, id, priority).On(side) == Insert(side, s.On(side), x);
  }

  /** What its sender was told, when nothing of the order stays behind. */
  lemma NewOrderToldInFull(e: Engine, smp: SmpMode, s: State, id: nat, o: Order, priority: nat, places: map<nat, nat>)
    requires e.Valid() && Inv(s, {}) && FreshOrder(s, id, o) && o.cumValue == 0
    requires Told(s, {}, places) && StandingOf(s.reports, id).Silent?
    ensures var m := NewOrder(e, smp, s, id, o, priority);
            var st := StandingOf(m.state.reports, id);
            if m.reason == SelfMatch then st.Silent?
            else if m.reason == Accepted && Filled(m.actions) < o.quantity && MayRest(o.price, o.tif) then st.Open?
            else st.Shut?
  {
    hide View, PhantomAt, IndexOk, Uncrossed, LookupsOk, RestsAsRecorded, QueuesOk, MatchOrder, FitsBeside, RestOwn, Shrinks;
    hide StandingOf, Inv, Incoming;
    var a, places' := Allocate(s, id, o), places[id := priority];
    AllocatedIsIncoming(s, id, o);
    assert Told(a, {id}, places');
    hide Told;
    MatchOrderTold(e, a, id, o.price, o.quantity, smp, places');
    MatchOrderOutcomes(e, a, id, o.price, o.quantity, smp);
    var m := MatchOrder(e, a, id, o.price, o.quantity, smp);
    if m.reason == Accepted && m.state.pool[id].leaves > 0 && m.state.pool[id].RestsRemainder() {
      RestOwnShape(m.state, id, priority);
    }
  }

  // ----- refusals

  /** The quantity of `q` at prices strictly better than `p` for an aggressor. */
  function BetterThan(resting: Side, q: seq<Resting>, p: Price): nat {
    if q == [] then 0
    else (if (resting == Sell && q[0].price < p) || (resting == Buy && q[0].price > p) then q[0].qty else 0)
         + BetterThan(resting, q[1..], p)
  }

  /** What the engine could trade before the order at `i`: FIFO counts the queue, pro-rata whole better levels. */
  function Before(e: Engine, resting: Side, q: seq<Resting>, i: nat): nat
    requires i < |q|
  {
    if e.Fifo? then Total(q[..i]) else BetterThan(resting, q, q[i].price)
  }

  /** An order of the aggressor's client rests within the quantity wanted. */
  ghost predicate WithinReach(e: Engine, s: State, agg: nat, limit: Price, wanted: nat)
    requires agg in s.pool
  {
    var opp := Opposite(s.pool[agg].side);
    var q := s.On(opp);
    exists i: nat :: i < |q| && q[i].id in OfSameClient(s, agg) && Acceptable(opp, q[i].price, limit) && Before(e, opp, q, i) < wanted
  }

  lemma {:induction false} BetterIs(s: Side, q: seq<Resting>, p: Price)
    ensures PreChecks.BetterTotal(s, q, p) == BetterThan(s, q, p)
  {
    if q != [] {
      BetterIs(s, q[1..], p);
    }
  }

  lemma ReachIs(e: Engine, s: State, agg: nat, limit: Price, smp: SmpMode, wanted: nat)
    requires agg in s.pool
    ensures var t := TermsOf(s, agg, limit, smp);
            PreChecks.InReach(e, t, s.On(t.side), wanted) <==> WithinReach(e, s, agg, limit, wanted)
  {
    hide Total, PreChecks.BetterTotal, BetterThan;
    var t := TermsOf(s, agg, limit, smp);
    var q := s.On(t.side);
    SelfIsSameClient(s, agg);
    forall i: nat | i < |q| ensures PreChecks.BetterTotal(t.side, q, q[i].price) == BetterThan(t.side, q, q[i].price) {
      BetterIs(t.side, q, q[i].price);
    }
    if PreChecks.InReach(e, t, q, wanted) {
      var i: nat :| if e.Fifo? then PreChecks.ReachesInQueue(t, q, wanted, i) else PreChecks.ReachesOnLevel(t, q, wanted, i);
      assert Before(e, t.side, q, i) < wanted;
    }
    if WithinReach(e, s, agg, limit, wanted) {
      var i: nat :| i < |q| && q[i].id in OfSameClient(s, agg) && Acceptable(t.side, q[i].price, limit) && Before(e, t.side, q, i) < wanted;
      assert if e.Fifo? then PreChecks.ReachesInQueue(t, q, wanted, i) else PreChecks.ReachesOnLevel(t, q, wanted, i);
    }
  }

  lemma ScanIsTradable(e: Engine, s: State, agg: nat, limit: Price, smp: SmpMode, qty: nat)
    requires e.Valid() && agg in s.pool && WellFormed(Opposite(s.pool[agg].side), s.On(Opposite(s.pool[agg].side))) && qty > 0
    requires smp == CancelNewest ==> !WithinReach(e, s, agg, limit, qty)
    ensures var t := TermsOf(s, agg, limit, smp);
            PreChecks.CanFill(t, s.On(t.side), qty) <==> qty <= Tradable(t.side, s.On(t.side), limit, KeptOut(s, agg, smp))
  {
    hide View, WellFormed, PreChecks.CanFill, Tradable, SelfOf, OfSameClient, WithinReach, PreChecks.InReach, PreChecks.Available, PreChecks.QueueReach, PreChecks.LevelReach;
    var t := TermsOf(s, agg, limit, smp);
    var q := s.On(t.side);
    SelfIsSameClient(s, agg);
    ReachIs(e, s, agg, limit, smp, qty);
    AvailableIsTradable(t, q);
    if smp == CancelNewest {
      QueueFromReach(e, t, q, qty);
      PreChecks.CanFillUnreached(t, q, qty);
    } else {
      PreChecks.CanFillAvailable(t, q, qty);
    }
  }

  lemma QueueFromReach(e: Engine, t: Terms, q: seq<Resting>, qty: nat)
    requires WellFormed(t.side, q) && !PreChecks.InReach(e, t, q, qty)
    ensures !PreChecks.QueueReach(t, q, qty)
  {
    hide View, WellFormed, PreChecks.LevelReach;
    if PreChecks.QueueReach(t, q, qty) {
      PreChecks.QueueReachIsLevelReach(t, q, qty);
    }
  }

  /**
   A new order of any positive quantity is turned back under CANCEL_NEWEST exactly when an order of its own
   client rests within its reach, and a fill-or-kill order that is not is refused exactly when less than its
   quantity rests at prices it accepts. Nothing else is ever refused.
   */
  lemma NewOrderRefusals(e: Engine, smp: SmpMode, s: State, id: nat, o: Order, priority: nat)
    requires e.Valid() && Inv(s, {}) && FreshOrder(s, id, o) && o.quantity > 0
    ensures var m, a, opp := NewOrder(e, smp, s, id, o, priority), Allocate(s, id, o), Opposite(o.side);
            && (m.reason == SelfMatch <==> smp == CancelNewest && WithinReach(e, a, id, o.price, o.quantity))
            && (m.reason == FokCannotFill <==>
                  m.reason != SelfMatch && o.tif == FillOrKill
                  && o.quantity > Tradable(opp, s.On(opp), o.price, KeptOut(a, id, smp)))
  {
    hide View, PhantomAt, IndexOk, Uncrossed, LookupsOk, RestsAsRecorded, QueuesOk, FitsBeside, RestOwn, Shrinks, Inv;
    hide Tradable, OfSameClient, WithinReach, PreChecks.InReach, PreChecks.CanFill, SelfOf;
    var a, opp := Allocate(s, id, o), Opposite(o.side);
    assert a.On(opp) == s.On(opp);
    AllocatedIsIncoming(s, id, o);
    SideOk(a, id, o.price, o.quantity);
    ReachIs(e, a, id, o.price, smp, o.quantity);
    RefusalIs(e, a, id, o.price, o.quantity, smp);
    if !(smp == CancelNewest && WithinReach(e, a, id, o.price, o.quantity)) {
      ScanIsTradable(e, a, id, o.price, smp, o.quantity);
    }
    hide MatchOrder;
  }

  lemma RefusalIs(e: Engine, s: State, agg: nat, limit: Price, qty: nat, smp: SmpMode)
    requires e.Valid() && Incoming(s, agg, limit, qty) && s.pool[agg].status == PendingNew && qty > 0
    ensures var m, t := MatchOrder(e, s, agg, limit, qty, smp), TermsOf(s, agg, limit, smp);
            var turned := smp == CancelNewest && PreChecks.InReach(e, t, s.On(t.side), qty);
            && (m.reason == SelfMatch <==> turned)
            && (m.reason == FokCannotFill <==> !turned && s.pool[agg].tif == FillOrKill && !PreChecks.CanFill(t, s.On(t.side), qty))
  {
    hide View, Inv, PreChecks.InReach, PreChecks.CanFill, FitsBeside, ApplyAll, Plan, SelfOf, StepOk;
    var p := Prepare(e, s, agg, limit, qty, smp);
    if p.Go? {
      var t := TermsOf(s, agg, limit, smp);
      PreparedState(s, agg, limit, qty);
      SameTerms(s, p.state, agg, limit, smp);
      assert p.state.On(t.side) == s.On(t.side);
      LoopKeeps(e, p.state, agg, limit, smp);
    }
  }

  // ----- amendments

  /** What an amendment to `qty` would leave of an order, had nothing traded since. */
  function StillWanted(o: Order, qty: nat): nat {
    if qty > o.cum then qty - o.cum else 0
  }

  lemma PreviewIsWanted(o: Order, qty: nat)
    requires o.cum + o.leaves == o.quantity
    ensures PreviewLeaves(o.(status := PendingReplace), qty) == StillWanted(o, qty)
  {
  }

  lemma RecordedNow(s: State, id: nat)
    requires Inv(s, {}) && id in s.orders
    ensures id in s.pool && RestsAsRecorded(s, id)
  {
    hide View, QueuesOk, Uncrossed, IndexOk;
  }

  /**
   An accepted amendment trades the smaller of what is still wanted and what rests at prices it accepts;
   what is left rests at the new price and total, and nothing left means gone.
   */
  lemma AmendFate(e: Engine, smp: SmpMode, s: State, id: nat, price: Price, qty: nat, priority: nat)
    requires e.Valid() && Inv(s, {}) && id in s.orders && id in s.pool
    ensures var m, a, o := Amend(e, smp, s, id, price, qty, priority), Marked(s, id), s.pool[id];
            var traded, wanted := Filled(m.actions), StillWanted(o, qty);
            var moved := price != o.price || qty > o.quantity;
            && ClientsKeptApart(a, m, id, price, smp) && TradesPlainly(a, m, id, price, wanted, smp)
            && (m.reason != Accepted ==> m.reason == SelfMatch && m.state == a)
            && (m.reason == SelfMatch <==> smp == CancelNewest && wanted > 0 && WithinReach(e, a, id, price, wanted))
            && (m.reason == Accepted ==>
                  && traded <= wanted
                  && if traded < wanted
                     then && RestsWith(m.state, id, o.side, price, wanted - traded, if moved then priority else o.priority)
                          && m.state.pool[id].quantity == qty && m.state.pool[id].cum == o.cum + traded
                          && SameIdentity(m.state.pool[id], o)
                     else Gone(m.state, id))
  {
    hide View, PhantomAt, IndexOk, Uncrossed, LookupsOk, QueuesOk, MatchOrder, FitsBeside, SettleAmended, Shrinks;
    hide ClientsKeptApart, TradesPlainly, RestsAsRecorded;
    var a, o := Marked(s, id), s.pool[id];
    RecordedNow(s, id);
    BalancedNow(s, id);
    PreviewIsWanted(o, qty);
    TifRests(s, id);
    MarkedIsIncoming(s, id, price, qty);
    MatchPlainly(e, a, id, price, qty, smp);
    MatchOrderOutcomes(e, a, id, price, qty, smp);
    NotFok(e, a, id, price, qty, smp);
    PlanLeaves(e, a, id, price, qty, smp);
    ReachIs(e, a, id, price, smp, StillWanted(o, qty));
    hide WithinReach, PreChecks.InReach, PreChecks.Available;
    var m, n := MatchOrder(e, a, id, price, qty, smp), Amend(e, smp, s, id, price, qty, priority);
    AmendOtherSide(e, smp, s, id, price, qty, priority);
    SameTrades(a, m, n, id, price, StillWanted(o, qty), smp);
    if m.reason == Accepted {
      AmendedRests(s, m.state, id);
      MatchedIdentity(a, m, id, price, qty);
      var pr := if price != o.price || qty > o.quantity then priority else m.state.pool[id].priority;
      SettledFate(m.state, id, pr);
    } else {
      RejectedLeavesNoTrace(e, smp, s, id, price, qty, priority);
    }
  }

  lemma BalancedNow(s: State, id: nat)
    requires id in s.pool && RestsAsRecorded(s, id)
    ensures s.pool[id].cum + s.pool[id].leaves == s.pool[id].quantity
  {
  }

  lemma ModifiedView(side: Side, q: seq<Resting>, x: Resting)
    requires Distinct(q) && x.id in View(q) && x.qty > 0
    ensures View(ModifiedQueue(side, q, x)) == View(q)[x.id := x]
  {
    hide View, Distinct, Insert, Resize;
    if View(q)[x.id].price == x.price && View(q)[x.id].priority == x.priority {
      ViewIds(q);
      ResizeView(q, x.id, x.qty);
    } else {
      ResizeView(q, x.id, 0);
      InsertView(side, Resize(q, x.id, 0), x);
      assert (View(q) - {x.id})[x.id := x] == View(q)[x.id := x];
    }
  }

  lemma SettledFate(s: State, id: nat, priority: nat)
    requires Inv(s, {id}) && id in s.orders && id in s.pool && id in View(s.On(s.pool[id].side))
    ensures var t, o := SettleAmended(s, id, priority), s.pool[id];
            if o.leaves > 0 then RestsWith(t, id, o.side, o.price, o.leaves, priority) && t.pool[id] == o.(priority := priority)
            else Gone(t, id)
  {
    hide View, Distinct, Sorted, AllReal, PhantomAt, IndexOk, LookupsOk, Uncrossed, SettleAmended;
    var t := SettleAmended(s, id, priority);
    if s.pool[id].leaves > 0 {
      SettleLiveShape(s, id, priority);
      var side, x := s.pool[id].side, Resting(id, s.pool[id].price, s.pool[id].leaves, priority);
      assert Distinct(s.On(side));
      ModifiedView(side, s.On(side), x);
      assert t.On(side) == ModifiedQueue(side, s.On(side), x);
    } else {
      SettleDoneShape(s, id, priority);
      GoneOthers(s, t, s.pool[id].side, id);
    }
  }

  // ----- strangers

  /** An order that does not rest in the queue is in none of the actions. */
  lemma {:induction false} NotNamed(q: seq<Resting>, acts: seq<Action>, j: nat)
    requires Distinct(q) && ActionsOk(q, acts) && j !in View(q)
    ensures forall i :: 0 <= i < |acts| ==> acts[i].id != j
    decreases |acts|
  {
    hide View, Distinct, Resize;
    if acts != [] {
      var a := acts[0];
      ResizeView(q, a.id, if a.Fill? then View(q)[a.id].qty - a.qty else 0);
      NotNamed(Act(q, a), acts[1..], j);
      assert forall i :: 0 < i < |acts| ==> acts[i] == acts[1..][i - 1];
    }
  }

  /** An anonymous order, or one whose client has nothing resting. */
  ghost predicate AmongStrangers(s: State, clientId: int, id: nat) {
    clientId == -1 || forall j :: j in s.orders && j in s.pool && j != id ==> s.pool[j].clientId != clientId
  }

  /** Self-match prevention never shows among strangers, whatever its mode: nobody is turned back and nothing is cancelled. */
  lemma StrangersTrade(e: Engine, smp: SmpMode, s: State, id: nat, o: Order, priority: nat)
    requires e.Valid() && Inv(s, {}) && FreshOrder(s, id, o) && AmongStrangers(s, o.clientId, id)
    ensures var m := NewOrder(e, smp, s, id, o, priority);
            m.reason != SelfMatch && forall i :: 0 <= i < |m.actions| ==> m.actions[i].Fill?
  {
    hide View, PhantomAt, IndexOk, Uncrossed, LookupsOk, RestsAsRecorded, QueuesOk, NewOrder, FitsBeside, TradesPlainly;
    NewOrderFate(e, smp, s, id, o, priority);
    var a := Allocate(s, id, o);
    assert id !in s.orders;
    assert OfSameClient(a, id) == {};
  }

  /** And so of an amendment, whose own order is on its side of the book. */
  lemma StrangersAmend(e: Engine, smp: SmpMode, s: State, id: nat, price: Price, qty: nat, priority: nat)
    requires e.Valid() && Inv(s, {}) && id in s.orders && id in s.pool && AmongStrangers(s, s.pool[id].clientId, id)
    ensures var m := Amend(e, smp, s, id, price, qty, priority);
            m.reason != SelfMatch && forall i :: 0 <= i < |m.actions| ==> m.actions[i].Fill?
  {
    hide View, PhantomAt, IndexOk, Uncrossed, LookupsOk, QueuesOk, Amend, FitsBeside, WithinReach, ActAll, ActionsOk, Tradable, Filled;
    AmendFate(e, smp, s, id, price, qty, priority);
    var a, m, opp := Marked(s, id), Amend(e, smp, s, id, price, qty, priority), Opposite(s.pool[id].side);
    assert OfSameClient(a, id) <= {id};
    assert a.On(opp) == s.On(opp);
    NotOpposite(s, id);
    NotNamed(s.On(opp), m.actions, id);
  }

  lemma NotOpposite(s: State, id: nat)
    requires Inv(s, {}) && id in s.orders && id in s.pool
    ensures id !in View(s.On(Opposite(s.pool[id].side))) && Distinct(s.On(Opposite(s.pool[id].side)))
  {
    hide View, Distinct, Sorted, IndexOk, Uncrossed, LookupsOk;
    assert RestsAsRecorded(s, id);
  }
}
