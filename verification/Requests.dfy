/** Client requests: what an order goes through before it matches, the match, and what rests. */
module Requests {
  import opened Types
  import opened Queue
  import opened Orders
  import opened BookState
  import opened BookInvariant
  import opened BookOps
  import opened MatchPlan
  import opened Matching
  import ProRata
  import PreChecks

  datatype Reason = Accepted | SelfMatch | FokCannotFill

  ghost function SelfOf(s: State, agg: nat): set<nat>
    requires agg in s.pool
  {
    set id | id in s.orders && id in s.pool && IsSelfMatch(s.pool[agg], s.pool[id])
  }

  ghost function TermsOf(s: State, agg: nat, limit: Price, smp: SmpMode): Terms
    requires agg in s.pool
  {
    Terms(Opposite(s.pool[agg].side), limit, smp, SelfOf(s, agg))
  }

  // ----- before matching

  datatype Prepared = Done(state: State, reason: Reason) | Go(state: State)

  ghost function Acknowledge(s: State, agg: nat): State
    requires agg in s.pool
  {
    if s.pool[agg].status == PendingNew then s.Say(Acked(agg)) else s
  }

  ghost function Replace(s: State, agg: nat, limit: Price, qty: nat): State
    requires agg in s.pool
  {
    if s.pool[agg].status == PendingReplace then
      var o := ApplyReplace(s.pool[agg], limit, qty);
      s.(pool := s.pool[agg := o]).Say(Replaced(agg, limit, qty, o.leaves))
    else s
  }

  ghost function Prepare(e: Engine, s: State, agg: nat, limit: Price, qty: nat, smp: SmpMode): Prepared
    requires agg in s.pool
  {
    var o, t := s.pool[agg], TermsOf(s, agg, limit, smp);
    var preview := PreviewLeaves(o, qty);
    if smp == CancelNewest && preview > 0 && PreChecks.InReach(e, t, s.On(t.side), preview) then Done(s, SelfMatch)
    else if o.tif == FillOrKill && !PreChecks.CanFill(t, s.On(t.side), qty) then
      Done(Acknowledge(s, agg).Say(Cancelled(agg)), FokCannotFill)
    else
      var r := Replace(Acknowledge(s, agg), agg, limit, qty);
      if r.pool[agg].leaves == 0 then Done(r.Say(Cancelled(agg)), Accepted) else Go(r)
  }

  // ----- the match

  datatype Matched = Matched(state: State, reason: Reason, actions: seq<Action>)

  ghost function Loop(e: Engine, s: State, agg: nat, limit: Price, smp: SmpMode): Matched
    requires e.Valid() && agg in s.pool
  {
    var t := TermsOf(s, agg, limit, smp);
    var o := Plan(e, t, s.On(t.side), s.pool[agg].leaves);
    var r := ApplyAll(s, t.side, Some(agg), o.actions, 0);
    if o.rejected then Matched(r, SelfMatch, o.actions)
    else if o.remaining > 0 && !(agg in r.pool && r.pool[agg].RestsRemainder()) then
      Matched(r.Say(Cancelled(agg)), Accepted, o.actions)
    else Matched(r, Accepted, o.actions)
  }

  ghost function MatchOrder(e: Engine, s: State, agg: nat, limit: Price, qty: nat, smp: SmpMode): Matched
    requires e.Valid() && agg in s.pool
  {
    match Prepare(e, s, agg, limit, qty, smp)
    case Done(t, reason) => Matched(t, reason, [])
    case Go(t) => if agg in t.pool then Loop(e, t, agg, limit, smp) else Matched(t, Accepted, [])
  }

  // ----- what the loop guarantees

  lemma {:induction false} FifoCancelsSelf(t: Terms, q: seq<Resting>, qty: nat)
    ensures CancelsOwn(FifoPlan(t, q, qty).actions, t.self)
  {
    if !t.Stops(q, qty) {
      FifoCancelsSelf(t, q[1..], if t.Blocks(q[0]) then qty else qty - Min(qty, q[0].qty));
    }
  }

  lemma {:induction false} ProRataCancelsSelf(split: Splitting, t: Terms, q: seq<Resting>, qty: nat)
    ensures CancelsOwn(ProRataPlan(split, t, q, qty).actions, t.self)
    decreases |q|
  {
    hide LevelActions, Total, Kept, Front, Crosses;
    if !t.Stops(q, qty) {
      ProRataCancelsSelf(split, t, Behind(q), qty - Min(qty, Total(Kept(t, Front(q)))));
      LevelCancelsSelf(split, t, q, qty);
    }
  }

  lemma LevelCancelsSelf(split: Splitting, t: Terms, q: seq<Resting>, qty: nat)
    ensures CancelsOwn(LevelActions(split, t, q, qty), t.self)
  {
    CancelsAreSelf(t, Front(q));
    FillsCancelNothing(Kept(t, Front(q)), split(Sizes(Kept(t, Front(q))), qty));
  }

  lemma {:induction false} CancelsAreSelf(t: Terms, level: seq<Resting>)
    ensures CancelsOwn(Cancels(t, level), t.self)
  {
    if level != [] {
      CancelsAreSelf(t, level[1..]);
    }
  }

  lemma {:induction false} FillsCancelNothing(level: seq<Resting>, alloc: seq<nat>)
    ensures forall i :: 0 <= i < |LevelFills(level, alloc)| ==> LevelFills(level, alloc)[i].Fill?
  {
    if level != [] && alloc != [] {
      FillsCancelNothing(level[1..], alloc[1..]);
    }
  }

  lemma PlanCancelsOwn(e: Engine, t: Terms, q: seq<Resting>, qty: nat, own: set<nat>)
    requires e.Valid() && t.self <= own
    ensures CancelsOwn(Plan(e, t, q, qty).actions, own)
  {
    match e
    case Fifo => FifoCancelsSelf(t, q, qty);
    case ProRataEngine(cfg) => ProRataCancelsSelf(ProRata.Splitter(cfg), t, q, qty);
  }

  /** A loop that stopped with quantity left leaves nothing that a resting remainder would trade with. */
  lemma StoppedFits(s: State, t: Terms, left: nat)
    requires WellFormed(t.side, s.On(t.side)) && t.Stops(s.On(t.side), left) && left > 0
    ensures FitsBeside(s, Opposite(t.side), t.limit)
  {
    var q := s.On(t.side);
    assert Opposite(Opposite(t.side)) == t.side;
    forall id | id in View(q) ensures !IsPriceBetterOrEqual(t.side, View(q)[id].price, t.limit) {
      ViewMember(q);
      assert View(q)[id].id == id;
      assert View(q)[id] in q;
      var i :| 0 <= i < |q| && q[i] == View(q)[id];
      PreChecks.WorseBehind(t, q, i);
    }
  }

  /** What a match leaves: the invariant, an aggressor filled by exactly what was taken, and room to rest. */
  ghost predicate MatchOk(s: State, m: Matched, agg: nat, limit: Price) {
    && agg in s.pool && agg in m.state.pool
    && var side := Opposite(s.pool[agg].side);
       && StepOk(s, m.state, side, Some(agg), Filled(m.actions))
       && m.state.On(side) == (if ActionsOk(s.On(side), m.actions) then ActAll(s.On(side), m.actions) else s.On(side))
       && (m.state.pool[agg].leaves > 0 ==> FitsBeside(m.state, s.pool[agg].side, limit))
  }

  lemma SayKeeps(s: State, t: State, r: Report, side: Side, agg: Option<nat>, n: nat)
    requires StepOk(s, t, side, agg, n)
    ensures StepOk(s, t.Say(r), side, agg, n)
  {
    hide View, LookupsOk, IndexOk, Uncrossed, QueuesOk, RestsAsRecorded;
    ReportsKeep(t, t.Say(r), InHand(agg));
    hide Inv;
  }

  /**
   The matching loop from any consistent state: the CANCEL_NEWEST backstop is never taken, the
   invariant survives, and if the aggressor has quantity left it no longer crosses the book.
   */
  lemma LoopKeeps(e: Engine, s: State, agg: nat, limit: Price, smp: SmpMode)
    requires e.Valid() && Inv(s, {agg}) && agg in s.pool
    requires Opposing(s, Opposite(s.pool[agg].side), Some(agg)) && s.pool[agg].leaves > 0
    requires var t := TermsOf(s, agg, limit, smp);
             smp == CancelNewest ==> !PreChecks.InReach(e, t, s.On(t.side), s.pool[agg].leaves)
    ensures var m := Loop(e, s, agg, limit, smp);
            m.reason == Accepted && MatchOk(s, m, agg, limit)
  {
    hide View, Distinct, Sorted, AllReal, PhantomAt, LookupsOk, IndexOk, Uncrossed, RestsAsRecorded;
    hide Plan, ApplyAll, Shrinks, SelfOf, PreChecks.InReach, ActionsOk, ActAll, Filled;
    var t := TermsOf(s, agg, limit, smp);
    var q, leaves := s.On(t.side), s.pool[agg].leaves;
    var o := Plan(e, t, q, leaves);
    NotTurnedBack(e, t, q, leaves);
    PlanSound(e, t, q, leaves);
    SelfIsOwn(s, agg);
    PlanCancelsOwn(e, t, q, leaves, s.orders);
    ApplyAllKeeps(s, t.side, Some(agg), o.actions, 0, s.orders);
    var r := ApplyAll(s, t.side, Some(agg), o.actions, 0);
    if o.remaining > 0 {
      StoppedFits(r, t, o.remaining);
    }
    LoopResult(e, s, agg, limit, smp, r);
  }

  lemma SelfIsOwn(s: State, agg: nat)
    requires agg in s.pool
    ensures SelfOf(s, agg) <= s.orders
  {
  }

  lemma NotTurnedBack(e: Engine, t: Terms, q: seq<Resting>, qty: nat)
    requires e.Valid() && WellFormed(t.side, q)
    requires t.smp == CancelNewest ==> !PreChecks.InReach(e, t, q, qty)
    ensures !Plan(e, t, q, qty).rejected
  {
    if t.smp == CancelNewest {
      PreChecks.BackstopExact(e, t, q, qty);
    } else {
      PreChecks.NeverRejected(if e.Fifo? then (s: seq<nat>, n: nat) => s else ProRata.Splitter(e.cfg), t, q, qty);
    }
  }

  lemma LoopResult(e: Engine, s: State, agg: nat, limit: Price, smp: SmpMode, r: State)
    requires e.Valid() && agg in s.pool
    requires var t := TermsOf(s, agg, limit, smp);
             var o := Plan(e, t, s.On(t.side), s.pool[agg].leaves);
             && !o.rejected && r == ApplyAll(s, t.side, Some(agg), o.actions, 0)
             && StepOk(s, r, t.side, Some(agg), Filled(o.actions)) && Sound(t, s.On(t.side), s.pool[agg].leaves, o)
             && r.On(t.side) == ActAll(s.On(t.side), o.actions)
             && (o.remaining > 0 ==> FitsBeside(r, s.pool[agg].side, limit))
    ensures var m := Loop(e, s, agg, limit, smp);
            m.reason == Accepted && MatchOk(s, m, agg, limit)
  {
    hide View, Inv, Plan, ApplyAll, Shrinks, SelfOf, ActAll, ActionsOk, Filled, FitsBeside;
    var t := TermsOf(s, agg, limit, smp);
    var o := Plan(e, t, s.On(t.side), s.pool[agg].leaves);
    var m := Loop(e, s, agg, limit, smp);
    SayKeeps(s, r, Cancelled(agg), t.side, Some(agg), Filled(o.actions));
    assert m.state == r || m.state == r.Say(Cancelled(agg));
    assert m.state.bids == r.bids && m.state.asks == r.asks && m.state.pool == r.pool;
    SameFits(r, m.state, s.pool[agg].side, limit);
    hide Loop;
  }

  lemma SameFits(s: State, t: State, side: Side, price: Price)
    requires t.bids == s.bids && t.asks == s.asks
    ensures FitsBeside(t, side, price) == FitsBeside(s, side, price)
  {
    hide View;
    assert t.On(Opposite(side)) == s.On(Opposite(side));
  }

  // ----- the three requests

  /** A new order: allocate, match, then rest what can rest and return everything else to the pool. */
  ghost function NewOrder(e: Engine, smp: SmpMode, s: State, id: nat, o: Order, priority: nat): Matched
    requires e.Valid()
  {
    var m := MatchOrder(e, Allocate(s, id, o), id, o.price, o.quantity, smp);
    if m.reason == Accepted && id in m.state.pool && m.state.pool[id].leaves > 0 && m.state.pool[id].RestsRemainder() then
      m.(state := RestOwn(m.state, id, priority))
    else m.(state := FreeOrder(m.state, id))
  }

  /** An amendment: mark it, match at the new terms, then move what is left to its new place. */
  ghost function Amend(e: Engine, smp: SmpMode, s: State, id: nat, price: Price, qty: nat, priority: nat): Matched
    requires e.Valid() && id in s.pool
  {
    var o := s.pool[id];
    var requeue := price != o.price || qty > o.quantity;
    var m := MatchOrder(e, s.(pool := s.pool[id := o.(status := PendingReplace)]), id, price, qty, smp);
    if m.reason == Accepted && id in m.state.pool && id in View(m.state.On(m.state.pool[id].side)) then
      m.(state := SettleAmended(m.state, id, if requeue then priority else m.state.pool[id].priority))
    else m
  }

  // ----- the invariant over a request

  /** An order about to be matched: a fresh one, or one of ours marked for replacement. */
  ghost predicate Incoming(s: State, agg: nat, limit: Price, qty: nat) {
    && Inv(s, {agg}) && agg in s.pool
    && Opposing(s, Opposite(s.pool[agg].side), Some(agg))
    && (s.pool[agg].status == PendingReplace || (s.pool[agg].status == PendingNew && s.pool[agg].leaves == qty
                                                  && s.pool[agg].price == limit))
  }

  /** Replacing or acknowledging an order in hand touches only its record and the reports. */
  lemma PreparedState(s: State, agg: nat, limit: Price, qty: nat)
    requires Incoming(s, agg, limit, qty)
    ensures var r := Replace(Acknowledge(s, agg), agg, limit, qty);
            && Inv(r, {agg}) && r.bids == s.bids && r.asks == s.asks && r.orders == s.orders
            && r.byClient == s.byClient && r.byOrderId == s.byOrderId && r.pool.Keys == s.pool.Keys
            && r.pool == s.pool[agg := r.pool[agg]] && r.pool[agg].price == limit
            && r.pool[agg].leaves == PreviewLeaves(s.pool[agg], qty)
            && r.pool[agg].side == s.pool[agg].side && r.pool[agg].clientId == s.pool[agg].clientId
            && r.pool[agg].tif == s.pool[agg].tif && r.pool[agg].cum == s.pool[agg].cum
            && r.pool[agg].clientOrderId == s.pool[agg].clientOrderId && r.pool[agg].orderId == s.pool[agg].orderId
            && r.pool[agg].priority == s.pool[agg].priority
            && (r.pool[agg].leaves > 0 ==> r.pool[agg].cum + r.pool[agg].leaves == r.pool[agg].quantity)
  {
    hide View, Distinct, Sorted, PhantomAt, IndexOk, Uncrossed, QueuesOk, LookupsOk, RestsAsRecorded;
    var a := Acknowledge(s, agg);
    ReportsKeep(s, a, {agg});
    if s.pool[agg].status == PendingReplace {
      var o := ApplyReplace(s.pool[agg], limit, qty);
      RecordKeeps(a, {agg}, agg, o);
      ReportsKeep(a.(pool := a.pool[agg := o]), Replace(a, agg, limit, qty), {agg});
    }
  }

  /** The terms do not depend on what the preamble writes. */
  lemma SameTerms(s: State, r: State, agg: nat, limit: Price, smp: SmpMode)
    requires agg in s.pool && agg in r.pool && r.pool == s.pool[agg := r.pool[agg]] && r.orders == s.orders
    requires r.pool[agg].side == s.pool[agg].side && r.pool[agg].clientId == s.pool[agg].clientId
    ensures TermsOf(r, agg, limit, smp) == TermsOf(s, agg, limit, smp)
  {
    assert SelfOf(r, agg) == SelfOf(s, agg);
  }

  /**
   A match of any incoming order. A CANCEL_NEWEST rejection leaves no trace; otherwise the book is
   consistent and whatever is left of the order does not cross it.
   */
  ghost predicate Outcomes(s: State, m: Matched, agg: nat, limit: Price, qty: nat) {
    && agg in s.pool && agg in m.state.pool && Inv(m.state, {agg})
    && (m.reason == SelfMatch ==> m.state == s && m.actions == [])
    && (m.reason == FokCannotFill ==> m.state == s.(reports := m.state.reports) && m.actions == [])
    && (m.reason == Accepted ==>
          && Shrinks(s, m.state, Opposite(s.pool[agg].side), Some(agg))
          && m.state.pool[agg].leaves + Filled(m.actions) == PreviewLeaves(s.pool[agg], qty)
          && m.state.pool[agg].cum == s.pool[agg].cum + Filled(m.actions)
          && m.state.pool[agg].price == limit
          && m.state.pool[agg].tif == s.pool[agg].tif && m.state.pool[agg].priority == s.pool[agg].priority
          && m.state.pool[agg].clientOrderId == s.pool[agg].clientOrderId
          && m.state.pool[agg].orderId == s.pool[agg].orderId
          && (m.state.pool[agg].leaves > 0 ==>
                && m.state.pool[agg].cum + m.state.pool[agg].leaves == m.state.pool[agg].quantity
                && FitsBeside(m.state, s.pool[agg].side, limit)))
  }

  lemma MatchOrderOutcomes(e: Engine, s: State, agg: nat, limit: Price, qty: nat, smp: SmpMode)
    requires e.Valid() && Incoming(s, agg, limit, qty)
    ensures Outcomes(s, MatchOrder(e, s, agg, limit, qty, smp), agg, limit, qty)
  {
    hide View, Inv, PreChecks.InReach, PreChecks.CanFill, FitsBeside, Outcomes, Opposing, Prepare, Loop;
    var p := Prepare(e, s, agg, limit, qty, smp);
    if p.Done? {
      DoneOutcome(e, s, agg, limit, qty, smp);
    } else {
      LoopOutcome(e, s, agg, limit, qty, smp);
    }
  }

  lemma DoneOutcome(e: Engine, s: State, agg: nat, limit: Price, qty: nat, smp: SmpMode)
    requires e.Valid() && Incoming(s, agg, limit, qty) && Prepare(e, s, agg, limit, qty, smp).Done?
    ensures var d := Prepare(e, s, agg, limit, qty, smp);
            Outcomes(s, Matched(d.state, d.reason, []), agg, limit, qty)
  {
    hide View, Distinct, Sorted, AllReal, PhantomAt, IndexOk, Uncrossed, QueuesOk, LookupsOk, RestsAsRecorded;
    hide PreChecks.InReach, PreChecks.CanFill, FitsBeside, TermsOf;
    var r := Replace(Acknowledge(s, agg), agg, limit, qty);
    PreparedState(s, agg, limit, qty);
    ReportsKeep(s, Acknowledge(s, agg).Say(Cancelled(agg)), {agg});
    ReportsKeep(r, r.Say(Cancelled(agg)), {agg});
    QuietShrinks(s, r.Say(Cancelled(agg)), agg);
    hide Inv, Replace, Shrinks;
  }

  lemma QuietShrinks(s: State, t: State, agg: nat)
    requires agg in s.pool && agg in t.pool && t.pool == s.pool[agg := t.pool[agg]]
    requires t.pool[agg].clientId == s.pool[agg].clientId && t.pool[agg].side == s.pool[agg].side
    requires t.bids == s.bids && t.asks == s.asks && t.orders == s.orders
    requires t.byClient == s.byClient && t.byOrderId == s.byOrderId
    ensures Shrinks(s, t, Opposite(s.pool[agg].side), Some(agg))
  {
    hide View;
    var side := Opposite(s.pool[agg].side);
    assert s.On(side) == t.On(side) && s.On(Opposite(side)) == t.On(Opposite(side));
  }

  lemma LoopOutcome(e: Engine, s: State, agg: nat, limit: Price, qty: nat, smp: SmpMode)
    requires e.Valid() && Incoming(s, agg, limit, qty) && Prepare(e, s, agg, limit, qty, smp).Go?
    ensures var r := Prepare(e, s, agg, limit, qty, smp).state;
            agg in r.pool && Outcomes(s, Loop(e, r, agg, limit, smp), agg, limit, qty)
  {
    hide View, Inv, PreChecks.InReach, PreChecks.CanFill, FitsBeside, Outcomes, Loop;
    var r := Prepare(e, s, agg, limit, qty, smp).state;
    PreparedState(s, agg, limit, qty);
    SameTerms(s, r, agg, limit, smp);
    assert r.On(Opposite(s.pool[agg].side)) == s.On(Opposite(s.pool[agg].side));
    hide Acknowledge, Replace, SelfOf;
    LoopKeeps(e, r, agg, limit, smp);
    GoOutcome(s, r, Loop(e, r, agg, limit, smp), agg, limit, qty);
  }

  lemma GoOutcome(s: State, r: State, m: Matched, agg: nat, limit: Price, qty: nat)
    requires agg in s.pool && agg in r.pool && m.reason == Accepted && MatchOk(r, m, agg, limit)
    requires r.bids == s.bids && r.asks == s.asks && r.orders == s.orders && r.byClient == s.byClient
    requires r.byOrderId == s.byOrderId && r.pool == s.pool[agg := r.pool[agg]] && r.pool[agg].price == limit
    requires r.pool[agg].leaves == PreviewLeaves(s.pool[agg], qty) && r.pool[agg].leaves > 0
    requires r.pool[agg].side == s.pool[agg].side && r.pool[agg].clientId == s.pool[agg].clientId
    requires r.pool[agg].tif == s.pool[agg].tif && r.pool[agg].cum == s.pool[agg].cum
    requires r.pool[agg].clientOrderId == s.pool[agg].clientOrderId && r.pool[agg].orderId == s.pool[agg].orderId
    requires r.pool[agg].priority == s.pool[agg].priority
    ensures Outcomes(s, m, agg, limit, qty)
  {
    hide View, Inv, FitsBeside, Filled, ActAll, ActionsOk;
    var side := Opposite(s.pool[agg].side);
    assert r.On(side) == s.On(side) && r.On(Opposite(side)) == s.On(Opposite(side));
    assert Shrinks(s, m.state, side, Some(agg));
  }
}
