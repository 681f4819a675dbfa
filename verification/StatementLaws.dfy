/** Every client request and every feed operation keeps what clients were told in step with the records. */
module StatementLaws {
  import opened Types
  import opened Queue
  import opened Orders
  import opened BookState
  import opened BookInvariant
  import opened BookOps
  import opened MatchPlan
  import opened Matching
  import opened Requests
  import opened RequestLaws
  import opened Statements
  import PreChecks

  /** A matched order: open if something of it may rest, shut otherwise. */
  ghost predicate Settled(s: State, agg: nat) {
    && agg in s.pool && AverageOk(s.pool[agg])
    && var o := s.pool[agg];
       StandingOf(s.reports, agg) ==
       if o.leaves == 0 || !o.RestsRemainder() then Shut(o.cum, o.cumValue) else Open(o.cum, o.cumValue)
  }

  /** An order about to be matched: a new one nobody heard of, or an open one being amended. */
  ghost predicate Expected(s: State, agg: nat) {
    && agg in s.pool && AverageOk(s.pool[agg])
    && var o := s.pool[agg];
       if o.status == PendingNew then StandingOf(s.reports, agg).Silent? && o.cum == 0 && o.cumValue == 0
       else o.status == PendingReplace && o.tif != FillOrKill && StandingOf(s.reports, agg) == Open(o.cum, o.cumValue)
  }

  /** The acknowledgement opens a new order, a replacement leaves an open one open. */
  lemma ReplacedTold(s: State, agg: nat, limit: Price, qty: nat, places: map<nat, nat>)
    requires agg in s.pool && Told(s, {agg}, places) && Expected(s, agg)
    ensures var r := Replace(Acknowledge(s, agg), agg, limit, qty);
            && agg in r.pool && Told(r, {agg}, places) && AverageOk(r.pool[agg])
            && StandingOf(r.reports, agg) == Open(r.pool[agg].cum, r.pool[agg].cumValue)
  {
    hide Told, StandingOf;
    var a := Acknowledge(s, agg);
    if s.pool[agg].status == PendingNew {
      TellsOne(s, a, Acked(agg), {agg}, places);
    } else {
      var o := ApplyReplace(s.pool[agg], limit, qty);
      TellsOne(s, Replace(a, agg, limit, qty), Replaced(agg, limit, qty, o.leaves), {agg}, places);
    }
  }

  lemma CancelledTold(s: State, agg: nat, places: map<nat, nat>)
    requires agg in s.pool && Told(s, {agg}, places) && StandingOf(s.reports, agg) == Open(s.pool[agg].cum, s.pool[agg].cumValue)
    ensures var t := s.Say(Cancelled(agg));
            && Told(t, {agg}, places) && StandingOf(t.reports, agg) == Shut(s.pool[agg].cum, s.pool[agg].cumValue)
  {
    hide Told, StandingOf;
    TellsOne(s, s.Say(Cancelled(agg)), Cancelled(agg), {agg}, places);
  }

  lemma LoopTold(e: Engine, s: State, agg: nat, limit: Price, smp: SmpMode, places: map<nat, nat>)
    requires e.Valid() && Inv(s, {agg}) && agg in s.pool
    requires Opposing(s, Opposite(s.pool[agg].side), Some(agg)) && s.pool[agg].leaves > 0
    requires var t := TermsOf(s, agg, limit, smp);
             smp == CancelNewest ==> !PreChecks.InReach(e, t, s.On(t.side), s.pool[agg].leaves)
    requires Told(s, {agg}, places) && Working(s, agg)
    ensures var m := Loop(e, s, agg, limit, smp);
            m.reason == Accepted && Told(m.state, {agg}, places) && Settled(m.state, agg)
  {
    hide View, Distinct, Sorted, AllReal, PhantomAt, LookupsOk, IndexOk, Uncrossed, RestsAsRecorded;
    hide Plan, ApplyAll, Shrinks, SelfOf, PreChecks.InReach, ActionsOk, ActAll, Filled, Told, StandingOf;
    var t := TermsOf(s, agg, limit, smp);
    var q, leaves := s.On(t.side), s.pool[agg].leaves;
    var o := Plan(e, t, q, leaves);
    NotTurnedBack(e, t, q, leaves);
    PlanSound(e, t, q, leaves);
    SelfIsOwn(s, agg);
    PlanCancelsOwn(e, t, q, leaves, s.orders);
    ApplyAllKeeps(s, t.side, Some(agg), o.actions, 0, s.orders);
    ApplyAllTold(s, t.side, Some(agg), o.actions, 0, s.orders, places);
    var r := ApplyAll(s, t.side, Some(agg), o.actions, 0);
    if o.remaining > 0 {
      CancelledTold(r, agg, places);
    }
  }

  ghost predicate Ended(s: State, m: Matched, agg: nat, places: map<nat, nat>) {
    && agg in m.state.pool && Told(m.state, {agg}, places)
    && (m.reason == SelfMatch ==> m.state == s)
    && (m.reason == FokCannotFill ==> StandingOf(m.state.reports, agg).Shut?)
    && (m.reason == Accepted ==> Settled(m.state, agg))
  }

  lemma DoneTold(e: Engine, s: State, agg: nat, limit: Price, qty: nat, smp: SmpMode, places: map<nat, nat>)
    requires e.Valid() && agg in s.pool && Told(s, {agg}, places) && Expected(s, agg)
    requires Prepare(e, s, agg, limit, qty, smp).Done?
    ensures var d := Prepare(e, s, agg, limit, qty, smp);
            Ended(s, Matched(d.state, d.reason, []), agg, places)
  {
    hide PreChecks.InReach, PreChecks.CanFill, Told, StandingOf, SelfOf;
    ReplacedTold(s, agg, limit, qty, places);
    CancelledTold(Replace(Acknowledge(s, agg), agg, limit, qty), agg, places);
  }

  lemma GoTold(e: Engine, s: State, agg: nat, limit: Price, qty: nat, smp: SmpMode, places: map<nat, nat>)
    requires e.Valid() && Incoming(s, agg, limit, qty) && Told(s, {agg}, places) && Expected(s, agg)
    requires Prepare(e, s, agg, limit, qty, smp).Go?
    ensures var r := Prepare(e, s, agg, limit, qty, smp).state;
            agg in r.pool && Ended(s, Loop(e, r, agg, limit, smp), agg, places)
  {
    hide View, Inv, PreChecks.InReach, PreChecks.CanFill, Loop, Told, StandingOf, SelfOf;
    PreparedState(s, agg, limit, qty);
    ReplacedTold(s, agg, limit, qty, places);
    var r := Prepare(e, s, agg, limit, qty, smp).state;
    SameTerms(s, r, agg, limit, smp);
    assert r.On(Opposite(s.pool[agg].side)) == s.On(Opposite(s.pool[agg].side));
    hide Replace, Acknowledge;
    LoopTold(e, r, agg, limit, smp, places);
  }

  /** A whole match, however it ends. */
  lemma MatchOrderTold(e: Engine, s: State, agg: nat, limit: Price, qty: nat, smp: SmpMode, places: map<nat, nat>)
    requires e.Valid() && Incoming(s, agg, limit, qty) && Told(s, {agg}, places) && Expected(s, agg)
    ensures Ended(s, MatchOrder(e, s, agg, limit, qty, smp), agg, places)
  {
    hide Inv, Prepare, Loop, Told, Ended, Expected, Opposing;
    if Prepare(e, s, agg, limit, qty, smp).Done? {
      DoneTold(e, s, agg, limit, qty, smp, places);
    } else {
      GoTold(e, s, agg, limit, qty, smp, places);
    }
  }

  // ----- new orders

  lemma PlacesElsewhere(s: State, ex: set<nat>, places: map<nat, nat>, id: nat, p: nat)
    requires Told(s, ex, places) && (id !in s.pool || id in ex)
    ensures Told(s, ex, places[id := p])
  {
    hide StandingOf;
  }

  lemma FreedTold(s: State, id: nat, places: map<nat, nat>)
    requires Told(s, {id}, places) && (StandingOf(s.reports, id).Silent? || StandingOf(s.reports, id).Shut?)
    ensures Told(FreeOrder(s, id), {}, places)
  {
    hide StandingOf;
  }

  /** A new order that nobody was told about yet, with nothing filled. */
  lemma NewOrderTold(e: Engine, smp: SmpMode, s: State, id: nat, o: Order, priority: nat, places: map<nat, nat>)
    requires e.Valid() && Inv(s, {}) && FreshOrder(s, id, o) && o.cumValue == 0
    requires Told(s, {}, places) && StandingOf(s.reports, id).Silent?
    ensures Told(NewOrder(e, smp, s, id, o, priority).state, {}, places[id := priority])
  {
    hide View, PhantomAt, IndexOk, Uncrossed, LookupsOk, RestsAsRecorded, QueuesOk, MatchOrder, FitsBeside, RestOwn;
    hide StandingOf, Inv, Incoming, Outcomes;
    var a, places' := Allocate(s, id, o), places[id := priority];
    AllocatedIsIncoming(s, id, o);
    assert Told(a, {id}, places');
    hide Told;
    MatchOrderTold(e, a, id, o.price, o.quantity, smp, places');
    var m := MatchOrder(e, a, id, o.price, o.quantity, smp);
    if m.reason == Accepted && m.state.pool[id].leaves > 0 && m.state.pool[id].RestsRemainder() {
      RestedTold(m.state, id, priority, places');
    } else {
      FreedTold(m.state, id, places');
    }
  }

  lemma RestedTold(s: State, id: nat, priority: nat, places: map<nat, nat>)
    requires Told(s, {id}, places) && Settled(s, id) && s.pool[id].leaves > 0 && s.pool[id].RestsRemainder()
    requires id in places && places[id] == priority
    ensures Told(RestOwn(s, id, priority), {}, places)
  {
    RestOwnShape(s, id, priority);
    hide RestOwn, StandingOf;
  }

  // ----- amendments

  ghost predicate Requeues(s: State, id: nat, price: Price, qty: nat)
    requires id in s.pool
  {
    price != s.pool[id].price || qty > s.pool[id].quantity
  }

  /** An amendment that leaves the book consistent: the order takes a new place only if it moves or grows. */
  lemma AmendTold(e: Engine, smp: SmpMode, s: State, id: nat, price: Price, qty: nat, priority: nat, places: map<nat, nat>)
    requires e.Valid() && Inv(s, {}) && id in s.orders && Told(s, {}, places)
    requires id in s.pool && Inv(Amend(e, smp, s, id, price, qty, priority).state, {})
    ensures var m := Amend(e, smp, s, id, price, qty, priority);
            Told(m.state, {}, if m.reason == Accepted && Requeues(s, id, price, qty) then places[id := priority] else places)
  {
    hide View, PhantomAt, IndexOk, Uncrossed, LookupsOk, QueuesOk, MatchOrder, FitsBeside, StandingOf;
    hide SettleAmended, Incoming, Shrinks, RestsAsRecorded;
    var a := Marked(s, id);
    TifRests(s, id);
    MarkedIsIncoming(s, id, price, qty);
    assert Told(a, {id}, places) && Expected(a, id);
    hide Told, Expected;
    MatchOrderTold(e, a, id, price, qty, smp, places);
    MatchOrderOutcomes(e, a, id, price, qty, smp);
    var m := MatchOrder(e, a, id, price, qty, smp);
    if m.reason == Accepted {
      AmendedRests(s, m.state, id);
      var r := Requeues(s, id, price, qty);
      var p := if r then priority else m.state.pool[id].priority;
      var places' := if r then places[id := priority] else places;
      assert s.pool[id].priority == p || r;
      PlaceOf(s, places, id);
      if r {
        PlacesElsewhere(m.state, {id}, places, id, priority);
      }
      SettledTold(m.state, id, p, places');
    } else {
      assert m.reason == SelfMatch by {
        NotFok(e, a, id, price, qty, smp);
      }
      MarkedTold(s, id, places);
    }
  }

  lemma PlaceOf(s: State, places: map<nat, nat>, id: nat)
    requires Told(s, {}, places) && id in s.pool
    ensures id in places && s.pool[id].priority == places[id]
  {
    hide StandingOf;
  }

  lemma MarkedTold(s: State, id: nat, places: map<nat, nat>)
    requires Told(s, {}, places) && id in s.pool
    ensures Told(Marked(s, id), {}, places)
  {
    hide StandingOf;
  }

  lemma NotFok(e: Engine, s: State, agg: nat, limit: Price, qty: nat, smp: SmpMode)
    requires e.Valid() && agg in s.pool && s.pool[agg].tif != FillOrKill
    ensures MatchOrder(e, s, agg, limit, qty, smp).reason != FokCannotFill
  {
    hide Plan, ApplyAll, PreChecks.CanFill, PreChecks.InReach;
  }

  lemma SettledTold(s: State, id: nat, priority: nat, places: map<nat, nat>)
    requires Told(s, {id}, places) && Settled(s, id) && id in places && places[id] == priority
    requires id in s.orders && id in View(s.On(s.pool[id].side))
    requires Inv(SettleAmended(s, id, priority), {})
    ensures Told(SettleAmended(s, id, priority), {}, places)
  {
    hide View, Distinct, Sorted, PhantomAt, IndexOk, Uncrossed, QueuesOk, LookupsOk, StandingOf, SettleAmended;
    var t := SettleAmended(s, id, priority);
    if s.pool[id].leaves == 0 {
      SettleDoneShape(s, id, priority);
    } else {
      SettleLiveShape(s, id, priority);
      assert RestsAsRecorded(t, id);
    }
  }
}
