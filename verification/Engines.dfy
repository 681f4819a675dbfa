/** The two matching engines: their loops, proved to carry out the plans. */
module Engines {
  import opened Types
  import opened Queue
  import opened Orders
  import opened BookState
  import opened BookOps
  import opened MatchPlan
  import opened Matching
  import opened Requests
  import opened OrderBooks
  import TradeSummaries

  // ----- shared steps

  /** One fill of a client order: its own record and report first, then the resting side's. */
  method FillResting(book: OrderBook, side: Side, agg: nat, id: nat, price: Price, n: nat)
    requires Ready(book.Now(), side, Some(agg), Fill(id, price, n))
    modifies book
    ensures book.Now() == Apply(old(book.Now()), side, Some(agg), Fill(id, price, n), 0)
  {
    var o := ExecuteOrder(book.pool[agg], price, n);
    book.pool := book.pool[agg := o];
    book.Say(Executed(agg, price, n, o.leaves, o.cum, true));
    assert book.Now() == AggressorFill(old(book.Now()), agg, price, n);
    assert book.On(side) == old(book.On(side));
    var _ := book.FillRestingOrder(side, id, n, 0);
  }

  /** The owner's other orders, as the self-match check sees them while the loop runs. */
  ghost predicate SelfAgrees(s: State, t: Terms, agg: nat) {
    agg in s.pool &&
    forall j :: j in View(s.On(t.side)) ==>
      (j in t.self <==> j in s.orders && j in s.pool && IsSelfMatch(s.pool[agg], s.pool[j]))
  }

  /** Everything a client matching loop keeps. */
  ghost predicate Looping(s: State, t: Terms, agg: nat, qty: nat, own: set<nat>) {
    && Inv(s, {agg}) && Opposing(s, t.side, Some(agg)) && s.pool[agg].leaves == qty
    && OwnersAs(s, t.side, own) && SelfAgrees(s, t, agg) && t.self <= own
  }

  lemma LoopStarts(s: State, agg: nat, limit: Price, smp: SmpMode)
    requires Inv(s, {agg}) && agg in s.pool && Opposing(s, Opposite(s.pool[agg].side), Some(agg))
    ensures Looping(s, TermsOf(s, agg, limit, smp), agg, s.pool[agg].leaves, s.orders)
  {
    hide View, Inv;
  }

  /** One action of the plan: what it needs, and what the loop keeps. */
  lemma LoopStep(s: State, t: Terms, agg: nat, qty: nat, own: set<nat>, a: Action)
    requires Looping(s, t, agg, qty, own) && ActionOk(s.On(t.side), a)
    requires FillOf(a) <= qty && (a.Cancel? ==> a.id in t.self)
    ensures Ready(s, t.side, Some(agg), a)
    ensures Looping(Apply(s, t.side, Some(agg), a, 0), t, agg, qty - FillOf(a), own)
    ensures Apply(s, t.side, Some(agg), a, 0).On(t.side) == Act(s.On(t.side), a)
  {
    hide View, Inv, Apply, Act, ActionOk;
    ActionReady(s, t.side, Some(agg), a, own);
    ActionStep(s, t.side, Some(agg), a, 0, own);
    OwnInPool(s, {agg});
    OwnInPool(Apply(s, t.side, Some(agg), a, 0), {agg});
  }

  lemma OwnInPool(s: State, ex: set<nat>)
    requires Inv(s, ex)
    ensures s.orders <= s.pool.Keys
  {
  }

  lemma FrontAction(t: Terms, q: seq<Resting>, qty: nat)
    requires WellFormed(t.side, q) && !t.Stops(q, qty)
    ensures q[0].id in View(q) && View(q)[q[0].id] == q[0] && q[0].qty > 0 && q[0].price != NULL_PRICE
  {
  }

  // ----- FIFO

  /** What FIFO does to the front of the queue. */
  ghost function FifoFront(t: Terms, q: seq<Resting>, qty: nat): Action
    requires q != []
  {
    if t.Blocks(q[0]) then Cancel(q[0].id) else Fill(q[0].id, q[0].price, Min(qty, q[0].qty))
  }

  /** The rest of the plan is the plan for what the first action leaves. */
  lemma FifoNext(t: Terms, q: seq<Resting>, qty: nat)
    requires WellFormed(t.side, q) && !t.Stops(q, qty) && !(t.Blocks(q[0]) && t.smp == CancelNewest)
    ensures var a := FifoFront(t, q, qty);
            && ActionOk(q, a)
            && FifoPlan(t, q, qty) == FifoPlan(t, Act(q, a), qty - FillOf(a)).After([a])
            && (a.Cancel? || a.qty == q[0].qty ==> Act(q, a) == q[1..])
  {
    FrontAction(t, q, qty);
  }

  lemma ApplyFirst(s: State, side: Side, agg: Option<nat>, a: Action, rest: seq<Action>, seqNum: nat)
    ensures ApplyAll(s, side, agg, [a] + rest, seqNum) == ApplyAll(Apply(s, side, agg, a, seqNum), side, agg, rest, seqNum)
  {
    assert ([a] + rest)[1..] == rest;
  }

  ghost predicate CanRecord(c: TradeSummaries.Context, acts: seq<Action>) {
    && (c.lastFillPrice == NULL_PRICE || c.summaries != [])
    && (forall i :: 0 <= i < |acts| && acts[i].Fill? ==> acts[i].price != NULL_PRICE)
  }

  ghost predicate Recordable(c: TradeSummaries.Context, a: Action) {
    a.Fill? && (c.lastFillPrice == a.price ==> c.summaries != [])
  }

  ghost function Recorded(c: TradeSummaries.Context, a: Action, own: set<nat>, agg: nat): TradeSummaries.Context {
    if Recordable(c, a) then
      TradeSummaries.RecordTrade(c, agg, a.id, a.price, a.qty, if a.id in own then 0 else a.qty)
    else c
  }

  lemma RecordedIs(c: TradeSummaries.Context, a: Action, own: set<nat>, agg: nat)
    requires Recordable(c, a)
    ensures c.lastFillPrice == a.price ==> c.summaries != []
    ensures Recorded(c, a, own, agg) ==
            TradeSummaries.RecordTrade(c, agg, a.id, a.price, a.qty, if a.id in own then 0 else a.qty)
  {
  }

  lemma RecordFirst(c: TradeSummaries.Context, a: Action, rest: seq<Action>, own: set<nat>, agg: nat)
    requires CanRecord(c, [a] + rest)
    ensures a.Cancel? ==> CanRecord(c, rest)
                          && TradeSummaries.Record(c, [a] + rest, own, agg) == TradeSummaries.Record(c, rest, own, agg)
    ensures a.Fill? ==> Recordable(c, a)
    ensures a.Fill? ==>
              && CanRecord(Recorded(c, a, own, agg), rest)
              && TradeSummaries.Record(c, [a] + rest, own, agg) ==
                 TradeSummaries.Record(Recorded(c, a, own, agg), rest, own, agg)
  {
    assert ([a] + rest)[0] == a;
    assert ([a] + rest)[1..] == rest;
    assert forall i :: 0 <= i < |rest| ==> rest[i] == ([a] + rest)[i + 1];
  }

  lemma NothingRecorded(own: set<nat>, agg: nat)
    ensures CanRecord(TradeSummaries.START, [])
    ensures TradeSummaries.Record(TradeSummaries.START, [], own, agg) == TradeSummaries.START
  {
  }

  lemma PlanRecordable(e: Engine, t: Terms, q: seq<Resting>, qty: nat)
    requires e.Valid() && WellFormed(t.side, q)
    ensures CanRecord(TradeSummaries.START, Plan(e, t, q, qty).actions)
  {
    TradeSummaries.PlanWorsens(e, t, q, qty);
  }

  /** Where a loop that has done part of its plan stands: finishing the plan gives the planned result. */
  ghost predicate OnPlan(s: State, c: TradeSummaries.Context, t: Terms, agg: nat, own: set<nat>,
                         o: Outcome, goal: State, record: TradeSummaries.Context, full: Outcome) {
    && ApplyAll(s, t.side, Some(agg), o.actions, 0) == goal
    && CanRecord(c, o.actions) && TradeSummaries.Record(c, o.actions, own, agg) == record
    && o.remaining == full.remaining && o.rejected == full.rejected
  }

  /** Taking the plan's next action stays on plan. */
  lemma OnPlanStep(s: State, c: TradeSummaries.Context, t: Terms, agg: nat, own: set<nat>,
                   a: Action, o: Outcome, goal: State, record: TradeSummaries.Context, full: Outcome)
    requires OnPlan(s, c, t, agg, own, o.After([a]), goal, record, full)
    ensures a.Fill? ==> Recordable(c, a)
    ensures a.Fill? ==>
              OnPlan(Apply(s, t.side, Some(agg), a, 0), Recorded(c, a, own, agg), t, agg, own, o, goal, record, full)
    ensures a.Cancel? ==> OnPlan(Apply(s, t.side, Some(agg), a, 0), c, t, agg, own, o, goal, record, full)
  {
    hide Apply, ApplyAll, TradeSummaries.Record;
    ApplyFirst(s, t.side, Some(agg), a, o.actions, 0);
    RecordFirst(c, a, o.actions, own, agg);
  }

  lemma PlanStarts(s: State, c: TradeSummaries.Context, t: Terms, agg: nat, own: set<nat>, o: Outcome)
    requires CanRecord(c, o.actions)
    ensures OnPlan(s, c, t, agg, own, o, ApplyAll(s, t.side, Some(agg), o.actions, 0),
                   TradeSummaries.Record(c, o.actions, own, agg), o)
  {
  }

  lemma OnPlanDone(s: State, c: TradeSummaries.Context, t: Terms, agg: nat, own: set<nat>,
                   o: Outcome, goal: State, record: TradeSummaries.Context, full: Outcome)
    requires OnPlan(s, c, t, agg, own, o, goal, record, full) && o.actions == []
    ensures s == goal && c == record && o.remaining == full.remaining && o.rejected == full.rejected
  {
  }

  /** FIFO's loop over the best order on the other side. */
  method FifoLoop(book: OrderBook, t: Terms, agg: nat)
    returns (remaining: nat, rejected: bool, ctx: TradeSummaries.Context)
    requires agg in book.pool && Looping(book.Now(), t, agg, book.pool[agg].leaves, book.orders)
    modifies book
    ensures var o := FifoPlan(t, old(book.On(t.side)), old(book.pool)[agg].leaves);
            && book.Now() == ApplyAll(old(book.Now()), t.side, Some(agg), o.actions, 0)
            && remaining == o.remaining && rejected == o.rejected
            && CanRecord(TradeSummaries.START, o.actions)
            && ctx == TradeSummaries.Record(TradeSummaries.START, o.actions, old(book.orders), agg)
  {
    hide View, Distinct, Sorted, AllReal, PhantomAt, IndexOk, LookupsOk, Uncrossed, RestsAsRecorded;
    hide Apply, ApplyAll, FifoPlan, TradeSummaries.Record, CanRecord, Opposing, OwnersAs, OnPlan, Recorded;
    var qty: nat := book.pool[agg].leaves;
    ctx := TradeSummaries.START;
    ghost var own, full := book.orders, FifoPlan(t, book.On(t.side), qty);
    ghost var goal := ApplyAll(book.Now(), t.side, Some(agg), full.actions, 0);
    PlanRecordable(Fifo, t, book.On(t.side), qty);
    ghost var record := TradeSummaries.Record(ctx, full.actions, own, agg);
    PlanStarts(book.Now(), ctx, t, agg, own, full);
    while qty > 0
      invariant Looping(book.Now(), t, agg, qty, own)
      invariant OnPlan(book.Now(), ctx, t, agg, own, FifoPlan(t, book.On(t.side), qty), goal, record, full)
      decreases qty + |book.On(t.side)|
    {
      var q := book.On(t.side);
      if q == [] || !Crosses(t.side, q[0].price, t.limit) {
        break;
      }
      var x := q[0];
      FrontAction(t, q, qty);
      if t.smp != SmpNone && x.id in book.orders && x.id in book.pool && IsSelfMatch(book.pool[agg], book.pool[x.id]) {
        if t.smp == CancelNewest {
          FifoTurnsBack(t, q, qty);
          OnPlanDone(book.Now(), ctx, t, agg, own, FifoPlan(t, q, qty), goal, record, full);
          return qty, true, ctx;
        }
        FifoNext(t, q, qty);
        LoopStep(book.Now(), t, agg, qty, own, Cancel(x.id));
        OnPlanStep(book.Now(), ctx, t, agg, own, Cancel(x.id), FifoPlan(t, Act(q, Cancel(x.id)), qty), goal, record, full);
        ApplyCancel(book.Now(), t.side, agg, x.id);
        book.CancelOrder(x.id);
      } else {
        var n: nat := Min(qty, x.qty);
        ghost var a := Fill(x.id, x.price, n);
        FifoNext(t, q, qty);
        LoopStep(book.Now(), t, agg, qty, own, a);
        OnPlanStep(book.Now(), ctx, t, agg, own, a, FifoPlan(t, Act(q, a), qty - n), goal, record, full);
        OwnersKept(book.Now(), t, agg, qty, own, x.id);
        var phantom := if x.id in book.orders then 0 else n;
        RecordedIs(ctx, a, own, agg);
        qty := qty - n;
        FillResting(book, t.side, agg, x.id, x.price, n);
        ctx := TradeSummaries.RecordTrade(ctx, agg, x.id, x.price, n, phantom);
      }
    }
    FifoStops(t, book.On(t.side), qty);
    OnPlanDone(book.Now(), ctx, t, agg, own, FifoPlan(t, book.On(t.side), qty), goal, record, full);
    remaining, rejected := qty, false;
  }

  lemma FifoTurnsBack(t: Terms, q: seq<Resting>, qty: nat)
    requires !t.Stops(q, qty) && t.Blocks(q[0]) && t.smp == CancelNewest
    ensures FifoPlan(t, q, qty) == Outcome([], qty, true)
  {
  }

  lemma FifoStops(t: Terms, q: seq<Resting>, qty: nat)
    requires t.Stops(q, qty)
    ensures FifoPlan(t, q, qty) == Outcome([], qty, false)
  {
  }

  lemma ApplyCancel(s: State, side: Side, agg: nat, id: nat)
    requires Ready(s, side, Some(agg), Cancel(id))
    ensures Apply(s, side, Some(agg), Cancel(id), 0) == CancelOwn(s, id)
    ensures id in s.pool && id in s.orders && id in View(s.On(s.pool[id].side))
  {
    hide View;
  }

  lemma OwnersKept(s: State, t: Terms, agg: nat, qty: nat, own: set<nat>, id: nat)
    requires Looping(s, t, agg, qty, own) && id in View(s.On(t.side))
    ensures id in own <==> id in s.orders
  {
    hide View, Inv;
  }
}
