/**
 The engines' feed loops: market liquidity has no order of its own to fill or report, and the book
 may decline an execution whose sequence regresses, which ends the match.
 */
module FeedEngines {
  import opened Types
  import opened Queue
  import opened BookState
  import opened BookOps
  import opened MatchPlan
  import opened Matching
  import opened FeedMatching
  import opened OrderBooks
  import opened Engines
  import PE = ProRataEngines
  import TradeSummaries
  import ProRata

  type Context = TradeSummaries.Context

  ghost predicate Matchable(s: State, t: Terms, own: set<nat>) {
    Inv(s, {}) && OwnersAs(s, t.side, own)
  }

  /** Where a feed loop that has done part of its plan stands: finishing the plan gives the planned result. */
  ghost predicate OnFeedPlan(s: State, c: Context, t: Terms, agg: nat, own: set<nat>, seqNum: nat,
                             o: Outcome, goal: State, record: Context, left: nat) {
    && !s.Refuses(seqNum)
    && ApplyAll(s, t.side, None, o.actions, seqNum) == goal
    && CanRecord(c, o.actions) && TradeSummaries.Record(c, o.actions, own, agg) == record
    && o.remaining == left
  }

  lemma StartsMatchable(s: State, t: Terms)
    requires Inv(s, {})
    ensures Matchable(s, t, s.orders) && WellFormed(t.side, s.On(t.side))
  {
    hide View, IndexOk, LookupsOk, Uncrossed, RestsAsRecorded;
  }

  lemma MatchableSide(s: State, t: Terms, own: set<nat>)
    requires Matchable(s, t, own)
    ensures WellFormed(t.side, s.On(t.side))
  {
  }

  /** The book can take a planned fill; whether it does depends on the sequence alone. */
  lemma FeedReady(s: State, t: Terms, own: set<nat>, a: Action)
    requires Matchable(s, t, own) && ActionOk(s.On(t.side), a) && a.Fill?
    ensures Ready(s, t.side, None, a) && CanFillPassive(s, t.side, a.id, a.qty)
    ensures a.id in own <==> a.id in s.orders
  {
    hide View, Inv;
    ActionReady(s, t.side, None, a, own);
  }

  lemma FeedStep(s: State, c: Context, t: Terms, agg: nat, own: set<nat>, seqNum: nat,
                 a: Action, o: Outcome, goal: State, record: Context, left: nat)
    requires Matchable(s, t, own) && ActionOk(s.On(t.side), a) && a.Fill?
    requires OnFeedPlan(s, c, t, agg, own, seqNum, o.After([a]), goal, record, left)
    ensures Ready(s, t.side, None, a) && Recordable(c, a)
    ensures var u := FillPassive(s, t.side, a.id, a.qty, seqNum);
            && Matchable(u, t, own) && u.On(t.side) == Act(s.On(t.side), a)
            && OnFeedPlan(u, Recorded(c, a, own, agg), t, agg, own, seqNum, o, goal, record, left)
  {
    hide View, Inv, FillPassive, Act, ActionOk, ApplyAll, TradeSummaries.Record, CanRecord, Recorded, CanFillPassive;
    ActionReady(s, t.side, None, a, own);
    ActionStep(s, t.side, None, a, seqNum, own);
    ApplyFirst(s, t.side, None, a, o.actions, seqNum);
    RecordFirst(c, a, o.actions, own, agg);
    assert Apply(s, t.side, None, a, seqNum) == FillPassive(s, t.side, a.id, a.qty, seqNum);
  }

  /** A refused sequence leaves the book as it was. */
  lemma Declined(s: State, side: Side, id: nat, n: nat, seqNum: nat)
    requires CanFillPassive(s, side, id, n) && s.Refuses(seqNum)
    ensures FillPassive(s, side, id, n, seqNum) == s
  {
  }

  lemma OnFeedPlanStarts(s: State, t: Terms, agg: nat, seqNum: nat, o: Outcome)
    requires !s.Refuses(seqNum) && CanRecord(TradeSummaries.START, o.actions)
    ensures OnFeedPlan(s, TradeSummaries.START, t, agg, s.orders, seqNum, o, ApplyAll(s, t.side, None, o.actions, seqNum),
                       TradeSummaries.Record(TradeSummaries.START, o.actions, s.orders, agg), o.remaining)
  {
  }

  lemma OnFeedPlanDone(s: State, c: Context, t: Terms, agg: nat, own: set<nat>, seqNum: nat,
                       o: Outcome, goal: State, record: Context, left: nat)
    requires OnFeedPlan(s, c, t, agg, own, seqNum, o, goal, record, left) && o.actions == []
    ensures s == goal && c == record && o.remaining == left
  {
  }

  lemma Accepts(s: State, c: Context, t: Terms, agg: nat, own: set<nat>, seqNum: nat,
                o: Outcome, goal: State, record: Context, left: nat)
    requires OnFeedPlan(s, c, t, agg, own, seqNum, o, goal, record, left)
    ensures !s.Refuses(seqNum)
  {
  }

  /** One fill of feed liquidity. The quantity comes back when the book declines it. */
  method FillRestingFromFeed(book: OrderBook, side: Side, agg: nat, x: Resting, n: nat, qty: nat, seqNum: nat, c: Context)
    returns (ok: bool, left: nat, ctx: Context)
    requires CanFillPassive(book.Now(), side, x.id, n) && n <= qty
    requires !book.Now().Refuses(seqNum) ==> c.lastFillPrice == x.price ==> c.summaries != []
    modifies book
    ensures ok == !old(book.Now()).Refuses(seqNum)
    ensures book.Now() == FillPassive(old(book.Now()), side, x.id, n, seqNum)
    ensures left == if ok then qty - n else qty
    ensures ctx == if ok then TradeSummaries.RecordTrade(c, agg, x.id, x.price, n, if x.id in old(book.orders) then 0 else n) else c
  {
    hide FillPassive, CanFillPassive;
    var ours := x.id in book.orders;
    left, ctx := qty - n, c;
    ok := book.FillRestingOrder(side, x.id, n, seqNum);
    if !ok {
      left := left + n;
      return;
    }
    ctx := TradeSummaries.RecordTrade(c, agg, x.id, x.price, n, if ours then 0 else n);
  }

  /** What a feed loop promises. */
  ghost predicate FeedDone(s: State, u: State, t: Terms, agg: nat, qty: nat, seqNum: nat, o: Outcome,
                           left: nat, ctx: Context, declined: bool) {
    if s.Refuses(seqNum) && o.actions != [] then u == s && left == qty && declined && ctx == TradeSummaries.START
    else
      && u == ApplyAll(s, t.side, None, o.actions, seqNum) && left == o.remaining && !declined
      && CanRecord(TradeSummaries.START, o.actions)
      && ctx == TradeSummaries.Record(TradeSummaries.START, o.actions, s.orders, agg)
  }

  lemma QuietlyDone(s: State, t: Terms, agg: nat, qty: nat, seqNum: nat)
    ensures FeedDone(s, s, t, agg, qty, seqNum, Outcome([], qty, false), qty, TradeSummaries.START, false)
  {
  }

  lemma FifoActs(t: Terms, q: seq<Resting>, qty: nat)
    requires WellFormed(t.side, q) && !t.Stops(q, qty) && t.smp == SmpNone
    ensures FifoPlan(t, q, qty).actions != []
  {
  }

  // ----- FIFO

  method FifoFeedLoop(book: OrderBook, t: Terms, agg: nat, qty: nat, seqNum: nat)
    returns (left: nat, ctx: Context, declined: bool)
    requires Inv(book.Now(), {}) && t.smp == SmpNone
    modifies book
    ensures FeedDone(old(book.Now()), book.Now(), t, agg, qty, seqNum, FifoPlan(t, old(book.On(t.side)), qty), left, ctx, declined)
  {
    hide View, Inv, Matchable, OnFeedPlan, FifoPlan, ApplyAll, TradeSummaries.Record, CanRecord, Recorded, Recordable;
    hide Act, ActionOk, FillPassive, CanFillPassive, WellFormed;
    ghost var s, own := book.Now(), book.orders;
    ghost var full := FifoPlan(t, book.On(t.side), qty);
    ghost var goal := ApplyAll(s, t.side, None, full.actions, seqNum);
    StartsMatchable(s, t);
    PlanRecordable(Fifo, t, book.On(t.side), qty);
    FifoIsPlan(t, book.On(t.side), qty);
    left, ctx, declined := qty, TradeSummaries.START, false;
    ghost var record := TradeSummaries.Record(ctx, full.actions, own, agg);
    if !s.Refuses(seqNum) {
      OnFeedPlanStarts(s, t, agg, seqNum, full);
    }
    while left > 0
      invariant Matchable(book.Now(), t, own)
      invariant s.Refuses(seqNum) ==> book.Now() == s && left == qty && ctx == TradeSummaries.START
      invariant !s.Refuses(seqNum) ==>
                  OnFeedPlan(book.Now(), ctx, t, agg, own, seqNum, FifoPlan(t, book.On(t.side), left), goal, record, full.remaining)
      decreases left
    {
      var q := book.On(t.side);
      if q == [] || !Crosses(t.side, q[0].price, t.limit) {
        break;
      }
      var x := q[0];
      MatchableSide(book.Now(), t, own);
      FrontAction(t, q, left);
      var n: nat := Min(left, x.qty);
      ghost var a := Fill(x.id, x.price, n);
      FifoNext(t, q, left);
      FeedReady(book.Now(), t, own, a);
      if !s.Refuses(seqNum) {
        Accepts(book.Now(), ctx, t, agg, own, seqNum, FifoPlan(t, q, left), goal, record, full.remaining);
        FeedStep(book.Now(), ctx, t, agg, own, seqNum, a, FifoPlan(t, Act(q, a), left - n), goal, record, full.remaining);
        RecordedIs(ctx, a, own, agg);
      } else {
        FifoActs(t, q, left);
        Declined(s, t.side, x.id, n, seqNum);
      }
      var ok;
      ok, left, ctx := FillRestingFromFeed(book, t.side, agg, x, n, left, seqNum, ctx);
      if !ok {
        declined := true;
        return;
      }
    }
    FifoStops(t, book.On(t.side), left);
    if s.Refuses(seqNum) {
      QuietlyDone(s, t, agg, qty, seqNum);
    } else {
      OnFeedPlanDone(book.Now(), ctx, t, agg, own, seqNum, FifoPlan(t, book.On(t.side), left), goal, record, full.remaining);
    }
  }

  lemma FifoIsPlan(t: Terms, q: seq<Resting>, qty: nat)
    ensures Plan(Fifo, t, q, qty) == FifoPlan(t, q, qty)
  {
  }

  // ----- pro-rata

  lemma LevelAt(level: seq<Resting>, alloc: seq<nat>, i: nat)
    requires |level| == |alloc| && i < |level|
    ensures LevelFills(level[i..], alloc[i..]) ==
            (if alloc[i] == 0 then [] else [Fill(level[i].id, level[i].price, alloc[i])])
            + LevelFills(level[i + 1..], alloc[i + 1..])
  {
    assert level[i..][1..] == level[i + 1..] && alloc[i..][1..] == alloc[i + 1..];
  }

  lemma SkipsNothing(o: Outcome, acts: seq<Action>)
    ensures o.After([] + acts) == o.After(acts) && [] + acts == acts
  {
  }

  lemma TakesFirst(o: Outcome, a: Action, acts: seq<Action>)
    ensures o.After([a] + acts) == o.After(acts).After([a])
  {
    assert [a] + (acts + o.actions) == ([a] + acts) + o.actions;
  }

  lemma FirstAction(q: seq<Resting>, a: Action, rest: seq<Action>)
    requires ActionsOk(q, [a] + rest)
    ensures ActionOk(q, a) && ActionsOk(Act(q, a), rest) && ActAll(q, [a] + rest) == ActAll(Act(q, a), rest)
    ensures Filled([a] + rest) == FillOf(a) + Filled(rest)
  {
    assert ([a] + rest)[1..] == rest;
  }

  /** Executes a level's allocations; stops at once when the book declines. */
  method FeedFillLevel(book: OrderBook, t: Terms, agg: nat, level: seq<Resting>, alloc: seq<nat>, qty: nat, seqNum: nat,
                       c: Context, ghost own: set<nat>, ghost o: Outcome, ghost goal: State, ghost record: Context, ghost left0: nat)
    returns (ok: bool, left: nat, ctx: Context)
    requires |level| == |alloc| && Matchable(book.Now(), t, own)
    requires ActionsOk(book.On(t.side), LevelFills(level, alloc)) && 0 < Filled(LevelFills(level, alloc)) <= qty
    requires !book.Now().Refuses(seqNum) ==>
               OnFeedPlan(book.Now(), c, t, agg, own, seqNum, o.After(LevelFills(level, alloc)), goal, record, left0)
    modifies book
    ensures ok == !old(book.Now()).Refuses(seqNum)
    ensures !ok ==> book.Now() == old(book.Now()) && left == qty && ctx == c
    ensures ok ==> Matchable(book.Now(), t, own) && left == qty - Filled(LevelFills(level, alloc))
    ensures ok ==> OnFeedPlan(book.Now(), ctx, t, agg, own, seqNum, o, goal, record, left0)
    ensures ok ==> book.On(t.side) == ActAll(old(book.On(t.side)), LevelFills(level, alloc))
  {
    hide View, Inv, Matchable, OnFeedPlan, LevelFills, Recorded, Recordable, Act, ActionOk, ActionsOk, ActAll, Filled;
    hide FillPassive, CanFillPassive;
    ghost var s := book.Now();
    ghost var all := ActAll(book.On(t.side), LevelFills(level, alloc));
    ghost var total := Filled(LevelFills(level, alloc));
    left, ctx := qty, c;
    var i := 0;
    assert level[0..] == level && alloc[0..] == alloc;
    while i < |level|
      invariant 0 <= i <= |level| && Matchable(book.Now(), t, own)
      invariant ActionsOk(book.On(t.side), LevelFills(level[i..], alloc[i..]))
      invariant ActAll(book.On(t.side), LevelFills(level[i..], alloc[i..])) == all
      invariant left - Filled(LevelFills(level[i..], alloc[i..])) == qty - total
      invariant s.Refuses(seqNum) ==> book.Now() == s && left == qty && ctx == c
      invariant !s.Refuses(seqNum) ==>
                  OnFeedPlan(book.Now(), ctx, t, agg, own, seqNum, o.After(LevelFills(level[i..], alloc[i..])), goal, record, left0)
    {
      ghost var rest := LevelFills(level[i + 1..], alloc[i + 1..]);
      LevelAt(level, alloc, i);
      if alloc[i] == 0 {
        SkipsNothing(o, rest);
      } else {
        var x := level[i];
        ghost var a := Fill(x.id, x.price, alloc[i]);
        TakesFirst(o, a, rest);
        FirstAction(book.On(t.side), a, rest);
        FeedReady(book.Now(), t, own, a);
        if !s.Refuses(seqNum) {
          Accepts(book.Now(), ctx, t, agg, own, seqNum, o.After(rest).After([a]), goal, record, left0);
          FeedStep(book.Now(), ctx, t, agg, own, seqNum, a, o.After(rest), goal, record, left0);
          RecordedIs(ctx, a, own, agg);
        } else {
          Declined(s, t.side, x.id, alloc[i], seqNum);
        }
        ok, left, ctx := FillRestingFromFeed(book, t.side, agg, x, alloc[i], left, seqNum, ctx);
        if !ok {
          return;
        }
      }
      i := i + 1;
    }
    assert level[i..] == [] && alloc[i..] == [];
    NoFills();
    NoActions(book.On(t.side));
    SkipsNothing(o, []);
    assert o.After([]) == o;
    ok := true;
  }

  lemma NoFills()
    ensures LevelFills([], []) == [] && Filled([]) == 0
  {
  }

  lemma NoActions(q: seq<Resting>)
    ensures ActAll(q, []) == q
  {
  }

  lemma NothingBlocked(t: Terms, level: seq<Resting>)
    requires t.smp == SmpNone
    ensures !PE.AnyBlocked(t, level)
  {
  }

  /** The level's fills as the plan has them, when nothing can be a self match. */
  lemma FeedLevel(cfg: ProRata.Config, t: Terms, q: seq<Resting>, alloc: seq<nat>, qty: nat)
    requires cfg.Valid() && WellFormed(t.side, q) && !t.Stops(q, qty) && t.smp == SmpNone
    requires alloc == ProRata.Allocation(cfg, Sizes(Front(q)), qty)
    ensures |alloc| == |Front(q)|
    ensures var acts, split := LevelFills(Front(q), alloc), ProRata.Splitter(cfg);
            && ActionsOk(q, acts) && 0 < Filled(acts) <= qty && acts != []
            && (qty > Filled(acts) ==> ActAll(q, acts) == Behind(q))
            && ProRataPlan(split, t, q, qty) == ProRataPlan(split, t, Behind(q), qty - Filled(acts)).After(acts)
  {
    hide View, WellFormed, ActionsOk, ActAll, LevelFills, Front, Behind, ProRataPlan, ProRata.Allocation, ProRata.Splitter, ProRata.Exact, Total;
    NothingBlocked(t, Front(q));
    PE.AllocIsSplit(cfg, Front(q), alloc, qty);
    ProRata.SplitterExact(cfg);
    PE.SplitOk(ProRata.Splitter(cfg), t, q, qty);
    assert LevelFills(Front(q), alloc) == [] ==> Filled(LevelFills(Front(q), alloc)) == 0;
  }

  method ProRataFeedLoop(cfg: ProRata.Config, book: OrderBook, t: Terms, agg: nat, qty: nat, seqNum: nat)
    returns (left: nat, ctx: Context, declined: bool)
    requires cfg.Valid() && Inv(book.Now(), {}) && t.smp == SmpNone
    modifies book
    ensures FeedDone(old(book.Now()), book.Now(), t, agg, qty, seqNum,
                     ProRataPlan(ProRata.Splitter(cfg), t, old(book.On(t.side)), qty), left, ctx, declined)
  {
    hide View, Inv, Matchable, OnFeedPlan, ProRataPlan, ApplyAll, TradeSummaries.Record, CanRecord, ActionsOk, ActAll, Filled;
    hide WellFormed, Front, Behind, LevelFills, ProRata.Splitter, ProRata.Allocation;
    ghost var split := ProRata.Splitter(cfg);
    ghost var s, own := book.Now(), book.orders;
    ghost var full := ProRataPlan(split, t, book.On(t.side), qty);
    ghost var goal := ApplyAll(s, t.side, None, full.actions, seqNum);
    StartsMatchable(s, t);
    PlanRecordable(ProRataEngine(cfg), t, book.On(t.side), qty);
    left, ctx, declined := qty, TradeSummaries.START, false;
    ghost var record := TradeSummaries.Record(ctx, full.actions, own, agg);
    if !s.Refuses(seqNum) {
      OnFeedPlanStarts(s, t, agg, seqNum, full);
    }
    while left > 0
      invariant Matchable(book.Now(), t, own)
      invariant s.Refuses(seqNum) ==> book.Now() == s && left == qty && ctx == TradeSummaries.START
      invariant !s.Refuses(seqNum) ==>
                  OnFeedPlan(book.Now(), ctx, t, agg, own, seqNum, ProRataPlan(split, t, book.On(t.side), left), goal, record, full.remaining)
      decreases left
    {
      var q := book.On(t.side);
      if q == [] || !Crosses(t.side, q[0].price, t.limit) {
        break;
      }
      MatchableSide(book.Now(), t, own);
      var level := Front(q);
      var alloc := ProRata.Allocate(cfg, Sizes(level), left);
      FeedLevel(cfg, t, q, alloc, left);
      ghost var acts := LevelFills(level, alloc);
      ghost var o := ProRataPlan(split, t, Behind(q), left - Filled(acts));
      if !s.Refuses(seqNum) {
        Accepts(book.Now(), ctx, t, agg, own, seqNum, o.After(acts), goal, record, full.remaining);
      }
      var ok;
      ok, left, ctx := FeedFillLevel(book, t, agg, level, alloc, left, seqNum, ctx, own, o, goal, record, full.remaining);
      if !ok {
        declined := true;
        return;
      }
      if left == 0 {
        PE.ProRataStops(split, t, book.On(t.side), 0);
        PE.ProRataStops(split, t, Behind(q), 0);
      }
    }
    PE.ProRataStops(split, t, book.On(t.side), left);
    if s.Refuses(seqNum) {
      QuietlyDone(s, t, agg, qty, seqNum);
    } else {
      OnFeedPlanDone(book.Now(), ctx, t, agg, own, seqNum, ProRataPlan(split, t, book.On(t.side), left), goal, record, full.remaining);
    }
  }

  // ----- either engine

  /** Market liquidity as an aggressor; what is left of it comes back. */
  method MatchFeed(e: Engine, book: OrderBook, aggSide: Side, agg: nat, limit: Price, qty: nat, seqNum: nat)
    returns (left: nat, ctx: Context, declined: bool)
    requires e.Valid() && Inv(book.Now(), {})
    modifies book
    ensures var m := FeedMatching.MatchFeed(e, old(book.Now()), aggSide, limit, qty, seqNum);
            && book.Now() == m.state && left == m.remaining && declined == m.declined
            && CanRecord(TradeSummaries.START, m.actions)
            && ctx == TradeSummaries.Record(TradeSummaries.START, m.actions, old(book.orders), agg)
  {
    hide View, Inv, ApplyAll, FifoPlan, ProRataPlan, TradeSummaries.Record, CanRecord;
    ghost var s := book.Now();
    NothingRecorded(s.orders, agg);
    var t := Terms(Opposite(aggSide), limit, SmpNone, {});
    if e.Fifo? {
      left, ctx, declined := FifoFeedLoop(book, t, agg, qty, seqNum);
    } else {
      left, ctx, declined := ProRataFeedLoop(e.cfg, book, t, agg, qty, seqNum);
    }
  }

  /** A new level or a trade print: match, then rest the remainder under the aggressor's id. */
  method MatchAndRest(e: Engine, book: OrderBook, side: Side, x: Resting, seqNum: nat)
    returns (ctx: Context, declined: bool)
    requires e.Valid() && Inv(book.Now(), {})
    modifies book
    ensures var m := MatchThenRest(e, old(book.Now()), side, x, seqNum);
            && book.Now() == m.state && declined == m.declined
            && CanRecord(TradeSummaries.START, m.actions)
            && ctx == TradeSummaries.Record(TradeSummaries.START, m.actions, old(book.orders), x.id)
  {
    hide View, Inv, FeedMatching.MatchFeed, L3Add, TradeSummaries.Record, CanRecord;
    var left;
    left, ctx, declined := MatchFeed(e, book, side, x.id, x.price, x.qty, seqNum);
    if left > 0 {
      var _ := book.AddResting(side, x.(qty := left), seqNum);
    }
  }
}
