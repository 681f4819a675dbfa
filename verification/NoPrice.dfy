/**
 Orders that rest without a price. The accumulator of a match starts with "no price" as its last fill
 price, so a first fill at no price makes it look for a summary that is not there.
 */
module NoPrice {
  import opened Types
  import opened Queue
  import opened Orders
  import opened BookState
  import opened BookOps
  import opened MatchPlan
  import opened TradeSummaries
  import opened Requests
  import opened RequestLaws
  import ProRata
  import PreChecks

  // ----- when recording is safe

  /** Every fill finds the summary it adds to. */
  ghost predicate RecordsSafely(c: Context, acts: seq<Action>, own: set<nat>, agg: nat)
    decreases |acts|
  {
    if acts == [] then true
    else if acts[0].Cancel? then RecordsSafely(c, acts[1..], own, agg)
    else
      var a := acts[0];
      && (c.lastFillPrice == a.price ==> c.summaries != [])
      && RecordsSafely(RecordTrade(c, agg, a.id, a.price, a.qty, if a.id in own then 0 else a.qty), acts[1..], own, agg)
  }

  function FirstFill(acts: seq<Action>): Option<Price> {
    if acts == [] then None else if acts[0].Fill? then Some(acts[0].price) else FirstFill(acts[1..])
  }

  lemma {:induction false} OnceRecorded(c: Context, acts: seq<Action>, own: set<nat>, agg: nat)
    requires c.summaries != []
    ensures RecordsSafely(c, acts, own, agg)
    decreases |acts|
  {
    if acts != [] {
      var a := acts[0];
      OnceRecorded(if a.Cancel? then c
                   else RecordTrade(c, agg, a.id, a.price, a.qty, if a.id in own then 0 else a.qty),
                   acts[1..], own, agg);
    }
  }

  /** Recording a list of actions is safe if and only if its first fill has a price. */
  lemma {:induction false} RecordsSafelyIff(acts: seq<Action>, own: set<nat>, agg: nat)
    ensures RecordsSafely(START, acts, own, agg) <==> FirstFill(acts) != Some(NULL_PRICE)
  {
    if acts != [] {
      var a := acts[0];
      if a.Cancel? {
        RecordsSafelyIff(acts[1..], own, agg);
      } else if a.price != NULL_PRICE {
        OnceRecorded(RecordTrade(START, agg, a.id, a.price, a.qty, if a.id in own then 0 else a.qty), acts[1..], own, agg);
      }
    }
  }

  // ----- the first fill of a match, read off the queue

  /** Under CANCEL_NEWEST: FIFO turns back at an own order in front, pro-rata at one anywhere on the front level. */
  ghost predicate TurnsBack(e: Engine, t: Terms, q: seq<Resting>)
    requires q != []
  {
    t.smp == CancelNewest && if e.Fifo? then t.Blocks(q[0]) else Kept(t, Front(q)) != Front(q)
  }

  /** The first crossing order that self-match prevention does not remove. */
  ghost function FirstTraded(e: Engine, t: Terms, q: seq<Resting>): Option<Resting> {
    if q == [] || !Crosses(t.side, q[0].price, t.limit) || TurnsBack(e, t, q) then None
    else if t.Blocks(q[0]) then FirstTraded(e, t, q[1..])
    else Some(q[0])
  }

  ghost function PriceOf(x: Option<Resting>): Option<Price> {
    if x.Some? then Some(x.value.price) else None
  }

  lemma {:induction false} FifoFirstFill(t: Terms, q: seq<Resting>, qty: nat)
    requires qty > 0
    ensures FirstFill(FifoPlan(t, q, qty).actions) == PriceOf(FirstTraded(Fifo, t, q))
  {
    if !t.Stops(q, qty) {
      if t.Blocks(q[0]) {
        FifoFirstFill(t, q[1..], qty);
        if t.smp != CancelNewest {
          FirstAfter(Cancel(q[0].id), FifoPlan(t, q[1..], qty));
        }
      } else {
        var n := Min(qty, q[0].qty);
        FirstAfter(Fill(q[0].id, q[0].price, n), FifoPlan(t, q[1..], qty - n));
      }
    }
  }

  lemma FirstAfter(a: Action, o: Outcome)
    ensures FirstFill(o.After([a]).actions) == if a.Fill? then Some(a.price) else FirstFill(o.actions)
  {
    assert ([a] + o.actions)[1..] == o.actions;
  }

  lemma {:induction false} FirstConcat(a: seq<Action>, b: seq<Action>)
    ensures FirstFill(a + b) == if FirstFill(a).Some? then FirstFill(a) else FirstFill(b)
  {
    if a == [] {
      assert a + b == b;
    } else {
      FirstConcat(a[1..], b);
      assert (a + b)[1..] == a[1..] + b;
    }
  }

  lemma {:induction false} NoFillInCancels(t: Terms, level: seq<Resting>)
    ensures FirstFill(Cancels(t, level)) == None
  {
    if level != [] {
      NoFillInCancels(t, level[1..]);
      if t.Blocks(level[0]) {
        assert ([Cancel(level[0].id)] + Cancels(t, level[1..]))[1..] == Cancels(t, level[1..]);
      } else {
        assert [] + Cancels(t, level[1..]) == Cancels(t, level[1..]);
      }
    }
  }

  lemma {:induction false} FirstLevelFill(level: seq<Resting>, alloc: seq<nat>, p: Price)
    requires |level| == |alloc| && forall i :: 0 <= i < |level| ==> level[i].price == p
    ensures FirstFill(LevelFills(level, alloc)) == if ProRata.Sum(alloc) == 0 then None else Some(p)
  {
    if level != [] {
      FirstLevelFill(level[1..], alloc[1..], p);
      if alloc[0] == 0 {
        assert [] + LevelFills(level[1..], alloc[1..]) == LevelFills(level[1..], alloc[1..]);
      }
    }
  }

  ghost predicate Positive(q: seq<Resting>) {
    forall i :: 0 <= i < |q| ==> q[i].qty > 0
  }

  lemma {:induction false} PositiveTotal(q: seq<Resting>)
    requires Positive(q)
    ensures Total(q) == 0 <==> q == []
  {
    if q != [] {
      PositiveTotal(q[1..]);
    }
  }

  /** A whole front level at once: its first kept order decides, or the levels behind do. */
  lemma {:induction false} FirstOfLevel(e: Engine, t: Terms, level: seq<Resting>, rest: seq<Resting>, p: Price)
    requires t.smp != CancelNewest && forall i :: 0 <= i < |level| ==> level[i].price == p
    requires level != [] ==> Crosses(t.side, p, t.limit)
    ensures PriceOf(FirstTraded(e, t, level + rest)) ==
            if Kept(t, level) != [] then Some(p) else PriceOf(FirstTraded(e, t, rest))
  {
    if level == [] {
      assert level + rest == rest;
    } else {
      var q := level + rest;
      assert q[0] == level[0] && q[1..] == level[1..] + rest;
      FirstOfLevel(e, t, level[1..], rest, p);
    }
  }

  lemma KeptOfLevel(t: Terms, q: seq<Resting>)
    requires q != [] && Positive(q)
    ensures Front(q) + Behind(q) == q && Front(q) != [] && Positive(Behind(q)) && Positive(Kept(t, Front(q)))
    ensures forall i :: 0 <= i < |Front(q)| ==> Front(q)[i].price == q[0].price
    ensures forall i :: 0 <= i < |Kept(t, Front(q))| ==> Kept(t, Front(q))[i].price == q[0].price
    ensures Kept(t, Front(q)) == Front(q) ==> !t.Blocks(q[0])
  {
    assert forall i :: 0 <= i < |Front(q)| ==> Front(q)[i] == q[i];
    KeptIn(t, Front(q));
    assert forall i :: 0 <= i < |Kept(t, Front(q))| ==> Kept(t, Front(q))[i] in Kept(t, Front(q));
    if t.Blocks(q[0]) {
      KeptIn(t, Front(q)[1..]);
    }
  }

  lemma {:induction false} KeptIn(t: Terms, level: seq<Resting>)
    ensures forall x :: x in Kept(t, level) ==> x in level
    ensures |Kept(t, level)| <= |level|
  {
    if level != [] {
      KeptIn(t, level[1..]);
      assert level == [level[0]] + level[1..];
    }
  }

  /** What the pro-rata engine does first at a level. */
  lemma LevelFirst(split: Splitting, t: Terms, q: seq<Resting>, qty: nat)
    requires ProRata.Exact(split) && q != [] && Positive(q) && qty > 0
    ensures FirstFill(LevelActions(split, t, q, qty)) == if Kept(t, Front(q)) == [] then None else Some(q[0].price)
  {
    var kept := Kept(t, Front(q));
    KeptOfLevel(t, q);
    NoFillInCancels(t, Front(q));
    var alloc := split(Sizes(kept), qty);
    assert ProRata.Within(alloc, Sizes(kept)) && ProRata.Sum(alloc) == Min(qty, ProRata.Sum(Sizes(kept)));
    SizesTotal(kept);
    PositiveTotal(kept);
    FirstLevelFill(kept, alloc, q[0].price);
    FirstConcat(Cancels(t, Front(q)), LevelFills(kept, alloc));
  }

  lemma {:induction false} ProRataFirstFill(cfg: ProRata.Config, split: Splitting, t: Terms, q: seq<Resting>, qty: nat)
    requires ProRata.Exact(split) && Positive(q) && qty > 0
    ensures FirstFill(ProRataPlan(split, t, q, qty).actions) == PriceOf(FirstTraded(ProRataEngine(cfg), t, q))
    decreases |q|
  {
    hide ProRata.Exact, Positive, Front, Behind, Kept, Total, LevelActions, FirstFill;
    var e := ProRataEngine(cfg);
    if t.Stops(q, qty) {
      EmptyFirst();
    } else if TurnsBack(e, t, q) {
      EmptyFirst();
    } else {
      KeptOfLevel(t, q);
      LevelFirst(split, t, q, qty);
      var kept := Kept(t, Front(q));
      var left := qty - Min(qty, Total(kept));
      FirstConcat(LevelActions(split, t, q, qty), ProRataPlan(split, t, Behind(q), left).actions);
      if kept == [] {
        EmptyTotal();
        ProRataFirstFill(cfg, split, t, Behind(q), qty);
      }
      if t.smp != CancelNewest {
        FirstOfLevel(e, t, Front(q), Behind(q), q[0].price);
      }
    }
  }

  lemma EmptyFirst()
    ensures FirstFill([]) == None
  {
  }

  /**
   For every queue of real quantities, priced or not, and either engine: recording the match is safe if
   and only if nothing is asked for, or the first crossing order that self-match prevention does not
   remove has a price.
   */
  lemma MatchRecordsSafelyIff(e: Engine, t: Terms, q: seq<Resting>, qty: nat, own: set<nat>, agg: nat)
    requires e.Valid() && Positive(q)
    ensures RecordsSafely(START, Plan(e, t, q, qty).actions, own, agg)
            <==> qty == 0 || PriceOf(FirstTraded(e, t, q)) != Some(NULL_PRICE)
  {
    RecordsSafelyIff(Plan(e, t, q, qty).actions, own, agg);
    if qty > 0 {
      match e
      case Fifo => FifoFirstFill(t, q, qty);
      case ProRataEngine(cfg) =>
        ProRata.SplitterExact(cfg);
        ProRataFirstFill(cfg, ProRata.Splitter(cfg), t, q, qty);
    }
  }

  // ----- the amendment that leads there

  /** The lone bid amended to no price rests alone at no price, although its owner was told it is cancelled. */
  lemma AmendedWithoutPrice()
    ensures var s := Amend(Fifo, SmpNone, LONE_BOOK, 1, NULL_PRICE, 10, 2).state;
            && s.bids == [Resting(1, NULL_PRICE, 10, 2)] && s.asks == [] && s.orders == {1}
            && s.reports == [Replaced(1, NULL_PRICE, 10, 10), Cancelled(1)]
  {
    var a := Marked(LONE_BOOK, 1);
    var q := LONE_BOOK.bids;
    assert q[1..] == [] && View(q) == map[1 := q[0]];
    assert Prepare(Fifo, a, 1, NULL_PRICE, 10, SmpNone).Go?;
    var m := MatchOrder(Fifo, a, 1, NULL_PRICE, 10, SmpNone);
    assert m.reason == Accepted && m.state.bids == q && m.state.asks == [];
    assert Resize(q, 1, 0) == [];
  }

  /** Any sell that matches next, at any limit, asks for the last of no summaries. */
  lemma NextSellIsUnsafe(e: Engine, t: Terms, qty: nat, own: set<nat>, agg: nat)
    requires e.Valid() && qty > 0 && t.side == Buy && t.smp == SmpNone && t.limit <= NULL_PRICE
    ensures var s := Amend(Fifo, SmpNone, LONE_BOOK, 1, NULL_PRICE, 10, 2).state;
            !RecordsSafely(START, Plan(e, t, s.bids, qty).actions, own, agg)
  {
    AmendedWithoutPrice();
    hide Amend;
    var q := [Resting(1, NULL_PRICE, 10, 2)];
    MatchRecordsSafelyIff(e, t, q, qty, own, agg);
  }
}
