/** The pro-rata engine's loop: a level at a time, every own order on it cancelled before it is split. */
module ProRataEngines {
  import opened Types
  import opened Queue
  import opened Orders
  import opened BookState
  import opened BookOps
  import opened MatchPlan
  import opened Matching
  import opened Requests
  import opened OrderBooks
  import opened Engines
  import TradeSummaries
  import ProRata

  // ----- runs of actions stay on plan

  /** A loop part way through some actions that the plan still holds in front of `o`. */
  ghost predicate Midway(s: State, c: TradeSummaries.Context, t: Terms, agg: nat, own: set<nat>, acts: seq<Action>,
                         o: Outcome, goal: State, record: TradeSummaries.Context, full: Outcome) {
    OnPlan(s, c, t, agg, own, o.After(acts), goal, record, full)
  }

  lemma MidwayStep(s: State, c: TradeSummaries.Context, t: Terms, agg: nat, own: set<nat>, a: Action, rest: seq<Action>,
                   o: Outcome, goal: State, record: TradeSummaries.Context, full: Outcome)
    requires Midway(s, c, t, agg, own, [a] + rest, o, goal, record, full)
    ensures a.Fill? ==> Recordable(c, a)
    ensures a.Fill? ==> Midway(Apply(s, t.side, Some(agg), a, 0), Recorded(c, a, own, agg), t, agg, own, rest, o, goal, record, full)
    ensures a.Cancel? ==> Midway(Apply(s, t.side, Some(agg), a, 0), c, t, agg, own, rest, o, goal, record, full)
  {
    hide Apply, OnPlan, Recorded, Recordable;
    assert o.After([a] + rest) == o.After(rest).After([a]) by {
      assert [a] + (rest + o.actions) == ([a] + rest) + o.actions;
    }
    OnPlanStep(s, c, t, agg, own, a, o.After(rest), goal, record, full);
  }

  lemma MidwayDone(s: State, c: TradeSummaries.Context, t: Terms, agg: nat, own: set<nat>,
                   o: Outcome, goal: State, record: TradeSummaries.Context, full: Outcome)
    requires Midway(s, c, t, agg, own, [], o, goal, record, full)
    ensures OnPlan(s, c, t, agg, own, o, goal, record, full)
  {
    assert o.After([]) == o;
  }

  // ----- cancelling the owner's orders on a level

  lemma CancelsCons(t: Terms, level: seq<Resting>)
    requires level != []
    ensures Cancels(t, level) ==
            (if t.Blocks(level[0]) then [Cancel(level[0].id)] else []) + Cancels(t, level[1..])
  {
  }

  /** Whether any order of the level is the owner's. */
  ghost predicate AnyBlocked(t: Terms, level: seq<Resting>) {
    exists i :: 0 <= i < |level| && t.Blocks(level[i])
  }

  lemma {:induction false} KeptShorter(t: Terms, level: seq<Resting>)
    ensures AnyBlocked(t, level) ==> |Kept(t, level)| < |level|
    ensures !AnyBlocked(t, level) ==> Kept(t, level) == level && Cancels(t, level) == []
    ensures |Kept(t, level)| <= |level|
  {
    if level != [] {
      KeptShorter(t, level[1..]);
      if AnyBlocked(t, level) && !t.Blocks(level[0]) {
        var i :| 0 <= i < |level| && t.Blocks(level[i]);
        assert t.Blocks(level[1..][i - 1]);
      }
      if AnyBlocked(t, level[1..]) {
        var i :| 0 <= i < |level[1..]| && t.Blocks(level[1..][i]);
        assert t.Blocks(level[i + 1]);
      }
    }
  }

  /** After the cancels the loop sees the same plan without them. */
  lemma PlanAfterCancels(split: Splitting, t: Terms, q: seq<Resting>, qty: nat)
    requires WellFormed(t.side, q) && !t.Stops(q, qty) && t.smp != CancelNewest
    ensures ProRataPlan(split, t, q, qty) ==
            ProRataPlan(split, t, Kept(t, Front(q)) + Behind(q), qty).After(Cancels(t, Front(q)))
  {
    hide View, WellFormed, Total, Kept, Cancels, Split, ProRataPlan, Front, Behind;
    FrontBehind(t.side, q);
    LevelPlan(split, t, q, qty);
    var kept, rest := Kept(t, Front(q)), Behind(q);
    KeptMembers(t, Front(q));
    if kept == [] {
      EmptyTotal();
      NoSplit(split, qty);
      assert kept + rest == rest;
      assert Cancels(t, Front(q)) + [] == Cancels(t, Front(q));
    } else {
      FrontOfKept(q, kept, rest);
      KeptTwice(t, kept);
      SplitPlan(split, t, kept + rest, qty);
      AfterConcat(ProRataPlan(split, t, rest, qty - Min(qty, Total(kept))), Cancels(t, Front(q)), Split(split, kept, qty));
    }
  }

  lemma LevelPlan(split: Splitting, t: Terms, q: seq<Resting>, qty: nat)
    requires !t.Stops(q, qty) && t.smp != CancelNewest
    ensures ProRataPlan(split, t, q, qty) ==
            ProRataPlan(split, t, Behind(q), qty - Min(qty, Total(Kept(t, Front(q)))))
              .After(Cancels(t, Front(q)) + Split(split, Kept(t, Front(q)), qty))
  {
    hide Kept, Cancels, Total, Split, Front, Behind;
  }

  lemma AfterConcat(o: Outcome, a: seq<Action>, b: seq<Action>)
    ensures o.After(a + b) == o.After(b).After(a)
  {
    assert (a + b) + o.actions == a + (b + o.actions);
  }

  lemma NoSplit(split: Splitting, qty: nat)
    ensures Split(split, [], qty) == []
  {
  }

  /** A level with nothing to cancel is just split. */
  lemma SplitPlan(split: Splitting, t: Terms, q: seq<Resting>, qty: nat)
    requires !t.Stops(q, qty) && Kept(t, Front(q)) == Front(q) && Cancels(t, Front(q)) == []
    ensures ProRataPlan(split, t, q, qty) ==
            ProRataPlan(split, t, Behind(q), qty - Min(qty, Total(Front(q)))).After(Split(split, Front(q), qty))
  {
    hide Kept, Cancels, Total, Split, Front, Behind;
    assert [] + Split(split, Front(q), qty) == Split(split, Front(q), qty);
  }

  lemma FrontOfKept(q: seq<Resting>, kept: seq<Resting>, rest: seq<Resting>)
    requires q != [] && kept != [] && rest == Behind(q)
    requires forall i :: 0 <= i < |kept| ==> kept[i].price == q[0].price
    ensures Front(kept + rest) == kept && Behind(kept + rest) == rest && (kept + rest)[0].price == q[0].price
  {
    var q' := kept + rest;
    assert forall i :: 0 <= i < |kept| ==> q'[i] == kept[i];
    assert rest != [] ==> q'[|kept|] == q[FrontLen(q)];
    assert FrontLen(q') == |kept|;
  }

  lemma {:induction false} KeptTwice(t: Terms, kept: seq<Resting>)
    requires forall i :: 0 <= i < |kept| ==> !t.Blocks(kept[i])
    ensures Kept(t, kept) == kept && Cancels(t, kept) == []
  {
    if kept != [] {
      KeptTwice(t, kept[1..]);
    }
  }

  /** One pass over a level, cancelling the owner's orders; stops at the first under CANCEL_NEWEST. */
  method CancelSelfOnLevel(book: OrderBook, t: Terms, agg: nat, q: seq<Resting>, level: seq<Resting>, rest: seq<Resting>,
                           ghost c: TradeSummaries.Context, ghost own: set<nat>, ghost o: Outcome,
                           ghost goal: State, ghost record: TradeSummaries.Context, ghost full: Outcome)
    returns (cancelled: bool)
    requires agg in book.pool && Looping(book.Now(), t, agg, book.pool[agg].leaves, own)
    requires q == book.On(t.side) && q == level + rest && t.smp == CancelResting
    requires Midway(book.Now(), c, t, agg, own, Cancels(t, level), o, goal, record, full)
    modifies book
    ensures agg in book.pool && book.pool[agg].leaves == old(book.pool)[agg].leaves
    ensures Looping(book.Now(), t, agg, book.pool[agg].leaves, own)
    ensures OnPlan(book.Now(), c, t, agg, own, o, goal, record, full)
    ensures book.On(t.side) == Kept(t, level) + rest && cancelled == AnyBlocked(t, level)
  {
    hide View, Distinct, Sorted, AllReal, PhantomAt, IndexOk, LookupsOk, Uncrossed, RestsAsRecorded;
    hide Apply, Midway, OnPlan, Opposing, OwnersAs, Resize;
    ghost var leaves, done := book.pool[agg].leaves, [];
    cancelled := false;
    var i := 0;
    while i < |level|
      invariant 0 <= i <= |level|
      invariant Looping(book.Now(), t, agg, leaves, own)
      invariant Midway(book.Now(), c, t, agg, own, Cancels(t, level[i..]), o, goal, record, full)
      invariant book.On(t.side) == done + level[i..] + rest && Kept(t, level) == done + Kept(t, level[i..])
      invariant cancelled <==> AnyBlocked(t, level[..i])
    {
      ghost var now := book.On(t.side);
      var x := level[i];
      assert level[i..][1..] == level[i + 1..];
      CancelsCons(t, level[i..]);
      BlockedSnoc(t, level, i);
      ResizeInLevel(now, done, level[i..], rest, 0);
      if x.id in book.orders && x.id in book.pool && IsSelfMatch(book.pool[agg], book.pool[x.id]) {
        LoopStep(book.Now(), t, agg, leaves, own, Cancel(x.id));
        MidwayStep(book.Now(), c, t, agg, own, Cancel(x.id), Cancels(t, level[i + 1..]), o, goal, record, full);
        ApplyCancel(book.Now(), t.side, agg, x.id);
        book.CancelOrder(x.id);
        assert done + [] == done;
        cancelled := true;
      } else {
        assert [] + Cancels(t, level[i + 1..]) == Cancels(t, level[i + 1..]);
        SlideDone(done, level, i, rest, t);
        done := done + [x];
      }
      i := i + 1;
    }
    assert level[i..] == [] && level[..i] == level && done + [] == done;
    MidwayDone(book.Now(), c, t, agg, own, o, goal, record, full);
  }

  lemma SlideDone(done: seq<Resting>, level: seq<Resting>, i: nat, rest: seq<Resting>, t: Terms)
    requires i < |level| && !t.Blocks(level[i])
    ensures done + level[i..] + rest == (done + [level[i]]) + level[i + 1..] + rest
    ensures done + Kept(t, level[i..]) == (done + [level[i]]) + Kept(t, level[i + 1..])
  {
    assert level[i..] == [level[i]] + level[i + 1..];
    assert level[i..][1..] == level[i + 1..];
  }

  lemma BlockedSnoc(t: Terms, level: seq<Resting>, i: nat)
    requires i < |level|
    ensures AnyBlocked(t, level[..i + 1]) <==> AnyBlocked(t, level[..i]) || t.Blocks(level[i])
  {
    if AnyBlocked(t, level[..i]) {
      var j :| 0 <= j < i && t.Blocks(level[..i][j]);
      assert level[..i + 1][j] == level[..i][j];
    }
    if t.Blocks(level[i]) {
      assert level[..i + 1][i] == level[i];
    }
    if AnyBlocked(t, level[..i + 1]) {
      var j :| 0 <= j < i + 1 && t.Blocks(level[..i + 1][j]);
      assert j < i ==> level[..i][j] == level[..i + 1][j];
    }
  }

  // ----- trading a level

  lemma LevelFillsCons(level: seq<Resting>, alloc: seq<nat>)
    requires |level| == |alloc| && level != []
    ensures LevelFills(level, alloc) ==
            (if alloc[0] == 0 then [] else [Fill(level[0].id, level[0].price, alloc[0])]) + LevelFills(level[1..], alloc[1..])
  {
  }

  /** Executes one level's allocations, skipping orders that were given nothing. */
  method FillOnLevel(book: OrderBook, t: Terms, agg: nat, level: seq<Resting>, alloc: seq<nat>, leaves: nat,
                     c: TradeSummaries.Context, ghost own: set<nat>, ghost o: Outcome,
                     ghost goal: State, ghost record: TradeSummaries.Context, ghost full: Outcome)
    returns (left: nat, ctx: TradeSummaries.Context)
    requires |level| == |alloc| && Looping(book.Now(), t, agg, leaves, own)
    requires ActionsOk(book.On(t.side), LevelFills(level, alloc)) && Filled(LevelFills(level, alloc)) <= leaves
    requires Midway(book.Now(), c, t, agg, own, LevelFills(level, alloc), o, goal, record, full)
    modifies book
    ensures left == leaves - Filled(LevelFills(level, alloc)) && Looping(book.Now(), t, agg, left, own)
    ensures OnPlan(book.Now(), ctx, t, agg, own, o, goal, record, full)
    ensures book.On(t.side) == ActAll(old(book.On(t.side)), LevelFills(level, alloc))
  {
    hide View, Inv, Apply, Midway, OnPlan, Opposing, OwnersAs, Recordable, ActionOk, Act, SelfAgrees;
    ghost var all := ActAll(book.On(t.side), LevelFills(level, alloc));
    left, ctx := leaves, c;
    var i := 0;
    assert level[0..] == level && alloc[0..] == alloc;
    while i < |level|
      invariant 0 <= i <= |level| && Looping(book.Now(), t, agg, left, own)
      invariant ActionsOk(book.On(t.side), LevelFills(level[i..], alloc[i..]))
      invariant ActAll(book.On(t.side), LevelFills(level[i..], alloc[i..])) == all
      invariant left - Filled(LevelFills(level[i..], alloc[i..])) == leaves - Filled(LevelFills(level, alloc))
      invariant Filled(LevelFills(level[i..], alloc[i..])) <= left
      invariant Midway(book.Now(), ctx, t, agg, own, LevelFills(level[i..], alloc[i..]), o, goal, record, full)
    {
      assert level[i..][1..] == level[i + 1..] && alloc[i..][1..] == alloc[i + 1..];
      LevelFillsCons(level[i..], alloc[i..]);
      ghost var rest := LevelFills(level[i + 1..], alloc[i + 1..]);
      if alloc[i] == 0 {
        assert [] + rest == rest;
      } else {
        var x := level[i];
        ghost var a := Fill(x.id, x.price, alloc[i]);
        assert ([a] + rest)[0] == a && ([a] + rest)[1..] == rest;
        LoopStep(book.Now(), t, agg, left, own, a);
        MidwayStep(book.Now(), ctx, t, agg, own, a, rest, o, goal, record, full);
        ActionRests(book.On(t.side), a);
        OwnersKept(book.Now(), t, agg, left, own, x.id);
        RecordableNow(ctx, a);
        var phantom := if x.id in book.orders then 0 else alloc[i];
        left := left - alloc[i];
        FillResting(book, t.side, agg, x.id, x.price, alloc[i]);
        ctx := TradeSummaries.RecordTrade(ctx, agg, x.id, x.price, alloc[i], phantom);
      }
      i := i + 1;
    }
    assert level[i..] == [] && alloc[i..] == [];
    MidwayDone(book.Now(), ctx, t, agg, own, o, goal, record, full);
  }

  lemma ActionRests(q: seq<Resting>, a: Action)
    requires ActionOk(q, a)
    ensures a.id in View(q)
  {
  }

  lemma RecordableNow(c: TradeSummaries.Context, a: Action)
    requires Recordable(c, a)
    ensures c.lastFillPrice == a.price ==> c.summaries != []
  {
  }

  // ----- the loop

  /** CANCEL_NEWEST: an own order anywhere on the level turns the aggressor back. */
  lemma ProRataTurnsBack(split: Splitting, t: Terms, q: seq<Resting>, qty: nat)
    requires !t.Stops(q, qty) && t.smp == CancelNewest && AnyBlocked(t, Front(q))
    ensures ProRataPlan(split, t, q, qty) == Outcome([], qty, true)
  {
    KeptShorter(t, Front(q));
  }

  lemma ProRataStops(split: Splitting, t: Terms, q: seq<Resting>, qty: nat)
    requires t.Stops(q, qty)
    ensures ProRataPlan(split, t, q, qty) == Outcome([], qty, false)
  {
  }

  /** Scans a level for one of the owner's orders, as the books and the pool stand. */
  method FindSelf(book: OrderBook, t: Terms, agg: nat, level: seq<Resting>) returns (found: bool)
    requires agg in book.pool && SelfAgrees(book.Now(), t, agg)
    requires forall i :: 0 <= i < |level| ==> level[i].id in View(book.On(t.side))
    ensures found <==> AnyBlocked(t, level)
  {
    hide View;
    var i := 0;
    while i < |level|
      invariant 0 <= i <= |level|
      invariant forall j :: 0 <= j < i ==> !t.Blocks(level[j])
    {
      var id := level[i].id;
      assert id in View(book.Now().On(t.side));
      if t.smp != SmpNone && id in book.orders && id in book.pool && IsSelfMatch(book.pool[agg], book.pool[id]) {
        assert t.Blocks(level[i]);
        return true;
      }
      i := i + 1;
    }
    found := false;
  }

  lemma FrontRests(s: Side, q: seq<Resting>)
    requires WellFormed(s, q) && q != []
    ensures forall i :: 0 <= i < |Front(q)| ==> Front(q)[i].id in View(q)
  {
    ViewMember(q);
    forall i | 0 <= i < |Front(q)| ensures Front(q)[i].id in View(q) {
      assert Front(q)[i] == q[i];
      assert q[i] in q;
    }
  }

  /** The level's fills, as the plan has them. */
  lemma SplitOk(split: Splitting, t: Terms, q: seq<Resting>, qty: nat)
    requires ProRata.Exact(split) && WellFormed(t.side, q) && !t.Stops(q, qty) && !AnyBlocked(t, Front(q))
    ensures var acts := Split(split, Front(q), qty);
            && ActionsOk(q, acts) && 0 < Filled(acts) == Min(qty, Total(Front(q)))
            && (qty >= Total(Front(q)) ==> ActAll(q, acts) == Behind(q))
            && ProRataPlan(split, t, q, qty) == ProRataPlan(split, t, Behind(q), qty - Filled(acts)).After(acts)
  {
    hide View, Distinct, Sorted, AllReal, ProRata.Exact, Split, ActionsOk, ActAll, Filled;
    KeptShorter(t, Front(q));
    ProRataLevel(split, t, q, qty);
    FrontBehind(t.side, q);
    assert [] + Split(split, Front(q), qty) == Split(split, Front(q), qty);
    SplitPlan(split, t, q, qty);
    hide Kept, Cancels, ProRataPlan;
    assert Total(Front(q)) > 0;
  }

  /** Allocates the front level and executes the allocations. */
  method TradeLevel(cfg: ProRata.Config, book: OrderBook, t: Terms, agg: nat, q: seq<Resting>, qty: nat,
                    c: TradeSummaries.Context, ghost own: set<nat>,
                    ghost goal: State, ghost record: TradeSummaries.Context, ghost full: Outcome)
    returns (left: nat, ctx: TradeSummaries.Context)
    requires cfg.Valid() && Looping(book.Now(), t, agg, qty, own) && q == book.On(t.side)
    requires WellFormed(t.side, q) && !t.Stops(q, qty) && !AnyBlocked(t, Front(q))
    requires OnPlan(book.Now(), c, t, agg, own, ProRataPlan(ProRata.Splitter(cfg), t, q, qty), goal, record, full)
    modifies book
    ensures left < qty && Looping(book.Now(), t, agg, left, own)
    ensures OnPlan(book.Now(), ctx, t, agg, own, ProRataPlan(ProRata.Splitter(cfg), t, book.On(t.side), left),
                   goal, record, full)
  {
    hide View, Inv, WellFormed, Looping, OnPlan, ProRataPlan, Front, Behind, ActionsOk, ActAll, Filled, Total;
    hide ProRata.Exact, ProRata.Splitter, ProRata.Allocation, AnyBlocked, LevelFills, Midway;
    ghost var split := ProRata.Splitter(cfg);
    ProRata.SplitterExact(cfg);
    var level := Front(q);
    var alloc := ProRata.Allocate(cfg, Sizes(level), qty);
    SplitOk(split, t, q, qty);
    AllocIsSplit(cfg, level, alloc, qty);
    ghost var acts := LevelFills(level, alloc);
    ghost var o := ProRataPlan(split, t, Behind(q), qty - Filled(acts));
    MidwayIs(book.Now(), c, t, agg, own, acts, o, goal, record, full);
    left, ctx := FillOnLevel(book, t, agg, level, alloc, qty, c, own, o, goal, record, full);
    if left == 0 {
      ProRataStops(split, t, book.On(t.side), 0);
      ProRataStops(split, t, Behind(q), 0);
    }
  }

  /** The pro-rata loop. */
  method ProRataLoop(cfg: ProRata.Config, book: OrderBook, t: Terms, agg: nat)
    returns (remaining: nat, rejected: bool, ctx: TradeSummaries.Context)
    requires cfg.Valid() && agg in book.pool && Looping(book.Now(), t, agg, book.pool[agg].leaves, book.orders)
    modifies book
    ensures var o := ProRataPlan(ProRata.Splitter(cfg), t, old(book.On(t.side)), old(book.pool)[agg].leaves);
            && book.Now() == ApplyAll(old(book.Now()), t.side, Some(agg), o.actions, 0)
            && remaining == o.remaining && rejected == o.rejected
            && CanRecord(TradeSummaries.START, o.actions)
            && ctx == TradeSummaries.Record(TradeSummaries.START, o.actions, old(book.orders), agg)
  {
    hide View, Distinct, Sorted, AllReal, PhantomAt, IndexOk, LookupsOk, Uncrossed, RestsAsRecorded;
    hide Apply, ApplyAll, ProRataPlan, TradeSummaries.Record, CanRecord, Opposing, OwnersAs, OnPlan;
    hide Front, Behind, Kept, Cancels, ActionsOk, ActAll, Filled, ProRata.Exact, AnyBlocked, Total, ProRata.Splitter;
    var qty: nat := book.pool[agg].leaves;
    ctx := TradeSummaries.START;
    ghost var split := ProRata.Splitter(cfg);
    ProRata.SplitterExact(cfg);
    ghost var own, full := book.orders, ProRataPlan(split, t, book.On(t.side), qty);
    ghost var goal := ApplyAll(book.Now(), t.side, Some(agg), full.actions, 0);
    PlanRecordable(ProRataEngine(cfg), t, book.On(t.side), qty);
    ghost var record := TradeSummaries.Record(ctx, full.actions, own, agg);
    PlanStarts(book.Now(), ctx, t, agg, own, full);
    while qty > 0
      invariant Looping(book.Now(), t, agg, qty, own)
      invariant OnPlan(book.Now(), ctx, t, agg, own, ProRataPlan(split, t, book.On(t.side), qty), goal, record, full)
      decreases qty, |book.On(t.side)|
    {
      var q := book.On(t.side);
      if q == [] || !Crosses(t.side, q[0].price, t.limit) {
        break;
      }
      FrontBehind(t.side, q);
      FrontRests(t.side, q);
      var level := Front(q);
      var found := FindSelf(book, t, agg, level);
      if found {
        if t.smp == CancelNewest {
          ProRataTurnsBack(split, t, q, qty);
          OnPlanDone(book.Now(), ctx, t, agg, own, ProRataPlan(split, t, q, qty), goal, record, full);
          return qty, true, ctx;
        }
        BlockedMode(t, level);
        PlanAfterCancels(split, t, q, qty);
        KeptShorter(t, level);
        MidwayIs(book.Now(), ctx, t, agg, own, Cancels(t, level), ProRataPlan(split, t, Kept(t, level) + Behind(q), qty), goal, record, full);
        var _ := CancelSelfOnLevel(book, t, agg, q, level, Behind(q), ctx, own,
                                   ProRataPlan(split, t, Kept(t, level) + Behind(q), qty), goal, record, full);
      } else {
        qty, ctx := TradeLevel(cfg, book, t, agg, q, qty, ctx, own, goal, record, full);
      }
    }
    ProRataStops(split, t, book.On(t.side), qty);
    OnPlanDone(book.Now(), ctx, t, agg, own, ProRataPlan(split, t, book.On(t.side), qty), goal, record, full);
    remaining, rejected := qty, false;
  }

  lemma BlockedMode(t: Terms, level: seq<Resting>)
    requires AnyBlocked(t, level)
    ensures t.smp != SmpNone
  {
  }

  lemma MidwayIs(s: State, c: TradeSummaries.Context, t: Terms, agg: nat, own: set<nat>, acts: seq<Action>,
                 o: Outcome, goal: State, record: TradeSummaries.Context, full: Outcome)
    requires OnPlan(s, c, t, agg, own, o.After(acts), goal, record, full)
    ensures Midway(s, c, t, agg, own, acts, o, goal, record, full)
  {
  }

  lemma AllocIsSplit(cfg: ProRata.Config, level: seq<Resting>, alloc: seq<nat>, qty: nat)
    requires cfg.Valid() && alloc == ProRata.Allocation(cfg, Sizes(level), qty)
    ensures LevelFills(level, alloc) == Split(ProRata.Splitter(cfg), level, qty) && |alloc| == |level|
  {
    hide ProRata.Allocation;
  }
}
