/** Trade summaries: the fills of one match grouped by price level. */
module TradeSummaries {
  import opened Types
  import opened Queue
  import opened MatchPlan
  import ProRata

  datatype Leg = Leg(id: nat, qty: nat)

  /** legs[0] is the aggressor's running total; the others are the resting orders it hit. */
  datatype Summary = Summary(price: Price, qty: nat, phantomQty: nat, numOrders: nat, legs: seq<Leg>)

  function LegSum(legs: seq<Leg>): nat {
    if legs == [] then 0 else legs[0].qty + LegSum(legs[1..])
  }

  function PhantomLegs(legs: seq<Leg>, own: set<nat>): nat {
    if legs == [] then 0 else (if legs[0].id in own then 0 else legs[0].qty) + PhantomLegs(legs[1..], own)
  }

  /** One summary balances: leg count, aggressor leg against resting legs, and the phantom part. */
  ghost predicate Balanced(s: Summary, own: set<nat>, agg: nat) {
    && |s.legs| >= 2 && s.numOrders == |s.legs|
    && s.legs[0] == Leg(agg, s.qty)
    && LegSum(s.legs[1..]) == s.qty
    && PhantomLegs(s.legs[1..], own) == s.phantomQty
  }

  /** The accumulator of one match. The engine starts it at no price, which no resting order has. */
  datatype Context = Context(summaries: seq<Summary>, lastFillPrice: Price)

  const START: Context := Context([], NULL_PRICE)

  function RecordTrade(c: Context, agg: nat, id: nat, price: Price, n: nat, phantom: nat): Context
    requires c.lastFillPrice == price ==> c.summaries != []
  {
    if c.lastFillPrice != price then
      Context(c.summaries + [Summary(price, n, phantom, 2, [Leg(agg, n), Leg(id, n)])], price)
    else
      var k := |c.summaries| - 1;
      var last := c.summaries[k];
      var legs := if last.legs == [] then [] else last.legs[0 := last.legs[0].(qty := last.legs[0].qty + n)];
      c.(summaries := c.summaries[k := Summary(last.price, last.qty + n, last.phantomQty + phantom,
                                               last.numOrders + 1, legs + [Leg(id, n)])])
  }

  /** The summaries of a list of actions, given which orders are ours and who is the aggressor. */
  function Record(c: Context, acts: seq<Action>, own: set<nat>, agg: nat): Context
    requires c.lastFillPrice == NULL_PRICE || c.summaries != []
    requires forall i :: 0 <= i < |acts| && acts[i].Fill? ==> acts[i].price != NULL_PRICE
    decreases |acts|
  {
    if acts == [] then c
    else if acts[0].Cancel? then Record(c, acts[1..], own, agg)
    else
      var a := acts[0];
      Record(RecordTrade(c, agg, a.id, a.price, a.qty, if a.id in own then 0 else a.qty), acts[1..], own, agg)
  }

  function QtySum(ss: seq<Summary>): nat {
    if ss == [] then 0 else ss[0].qty + QtySum(ss[1..])
  }

  function QtyAt(ss: seq<Summary>, p: Price): nat {
    if ss == [] then 0 else (if ss[0].price == p then ss[0].qty else 0) + QtyAt(ss[1..], p)
  }

  // ----- sums over a sequence that grows or changes at its end

  lemma {:induction false} LegSumSnoc(legs: seq<Leg>, x: Leg, own: set<nat>)
    ensures LegSum(legs + [x]) == LegSum(legs) + x.qty
    ensures PhantomLegs(legs + [x], own) == PhantomLegs(legs, own) + if x.id in own then 0 else x.qty
  {
    if legs == [] {
      assert legs + [x] == [x];
    } else {
      assert (legs + [x])[1..] == legs[1..] + [x];
      LegSumSnoc(legs[1..], x, own);
    }
  }

  lemma {:induction false} QtySnoc(ss: seq<Summary>, x: Summary, p: Price)
    ensures QtySum(ss + [x]) == QtySum(ss) + x.qty
    ensures QtyAt(ss + [x], p) == QtyAt(ss, p) + if x.price == p then x.qty else 0
  {
    if ss == [] {
      assert ss + [x] == [x];
    } else {
      assert (ss + [x])[1..] == ss[1..] + [x];
      QtySnoc(ss[1..], x, p);
    }
  }

  // ----- the invariant of the accumulator

  /** Prices strictly worsen from one summary to the next, and every summary balances. */
  ghost predicate ContextOk(side: Side, c: Context, own: set<nat>, agg: nat) {
    && (forall i :: 0 <= i < |c.summaries| ==> Balanced(c.summaries[i], own, agg) && c.summaries[i].price != NULL_PRICE)
    && (forall i, j :: 0 <= i < j < |c.summaries| ==> IsPriceBetter(side, c.summaries[i].price, c.summaries[j].price))
    && c.lastFillPrice == (if c.summaries == [] then NULL_PRICE else c.summaries[|c.summaries| - 1].price)
  }

  /** A fill at a new price starts a summary. */
  lemma NewSummaryOk(side: Side, c: Context, s: Summary, own: set<nat>, agg: nat)
    requires ContextOk(side, c, own, agg) && Balanced(s, own, agg) && s.price != NULL_PRICE
    requires c.summaries == [] || IsPriceBetter(side, c.lastFillPrice, s.price)
    ensures ContextOk(side, Context(c.summaries + [s], s.price), own, agg)
  {
    hide Balanced;
    var ss, k := c.summaries + [s], |c.summaries|;
    assert forall i :: 0 <= i < k ==> ss[i] == c.summaries[i];
    assert ss[k] == s;
    if k > 0 {
      LastIsWorst(side, c.summaries);
    }
  }

  lemma LastIsWorst(side: Side, ss: seq<Summary>)
    requires ss != [] && forall i, j :: 0 <= i < j < |ss| ==> IsPriceBetter(side, ss[i].price, ss[j].price)
    ensures forall i :: 0 <= i < |ss| ==> IsPriceBetterOrEqual(side, ss[i].price, ss[|ss| - 1].price)
  {
  }

  /** A fill at the current price adds a leg to the last summary. */
  lemma LastSummaryOk(side: Side, c: Context, s: Summary, own: set<nat>, agg: nat)
    requires ContextOk(side, c, own, agg) && c.summaries != [] && Balanced(s, own, agg)
    requires s.price == c.summaries[|c.summaries| - 1].price
    ensures ContextOk(side, c.(summaries := c.summaries[|c.summaries| - 1 := s]), own, agg)
  {
    hide Balanced;
    var k := |c.summaries| - 1;
    var ss := c.summaries[k := s];
    assert forall i :: 0 <= i <= k ==> ss[i].price == c.summaries[i].price;
  }

  lemma RecordNew(side: Side, c: Context, agg: nat, id: nat, price: Price, n: nat, own: set<nat>, p: Price)
    requires ContextOk(side, c, own, agg) && price != NULL_PRICE && c.lastFillPrice != price
    requires c.summaries == [] || IsPriceBetterOrEqual(side, c.lastFillPrice, price)
    ensures var t := RecordTrade(c, agg, id, price, n, if id in own then 0 else n);
            && ContextOk(side, t, own, agg) && t.lastFillPrice == price
            && QtySum(t.summaries) == QtySum(c.summaries) + n
            && QtyAt(t.summaries, p) == QtyAt(c.summaries, p) + if p == price then n else 0
  {
    hide LegSum, PhantomLegs, QtySum, QtyAt, Balanced, ContextOk;
    var s := Summary(price, n, if id in own then 0 else n, 2, [Leg(agg, n), Leg(id, n)]);
    FirstLegBalanced(agg, id, price, n, own);
    NewSummaryOk(side, c, s, own, agg);
    QtySnoc(c.summaries, s, p);
  }

  /** The last summary with one more leg. */
  function Extended(last: Summary, agg: nat, id: nat, n: nat, phantom: nat): Summary
    requires last.legs != []
  {
    Summary(last.price, last.qty + n, last.phantomQty + phantom, last.numOrders + 1,
            last.legs[0 := Leg(agg, last.qty + n)] + [Leg(id, n)])
  }

  lemma MoreIs(side: Side, c: Context, agg: nat, id: nat, price: Price, n: nat, phantom: nat, own: set<nat>)
    requires ContextOk(side, c, own, agg) && price != NULL_PRICE && c.lastFillPrice == price
    ensures c.summaries != []
    ensures var k := |c.summaries| - 1;
            var last := c.summaries[k];
            && Balanced(last, own, agg) && last.price == price && last.legs != []
            && RecordTrade(c, agg, id, price, n, phantom) ==
               c.(summaries := c.summaries[k := Extended(last, agg, id, n, phantom)])
  {
    hide LegSum, PhantomLegs;
  }

  lemma QtyReplaced(ss: seq<Summary>, s: Summary, p: Price)
    requires ss != [] && s.price == ss[|ss| - 1].price && s.qty >= ss[|ss| - 1].qty
    ensures var k, more := |ss| - 1, s.qty - ss[|ss| - 1].qty;
            && QtySum(ss[k := s]) == QtySum(ss) + more
            && QtyAt(ss[k := s], p) == QtyAt(ss, p) + if p == s.price then more else 0
  {
    hide QtySum, QtyAt;
    var k := |ss| - 1;
    assert ss == ss[..k] + [ss[k]] && ss[k := s] == ss[..k] + [s];
    QtySnoc(ss[..k], ss[k], p);
    QtySnoc(ss[..k], s, p);
  }

  lemma RecordMore(side: Side, c: Context, agg: nat, id: nat, price: Price, n: nat, own: set<nat>, p: Price)
    requires ContextOk(side, c, own, agg) && price != NULL_PRICE && c.lastFillPrice == price
    ensures c.summaries != []
    ensures var t := RecordTrade(c, agg, id, price, n, if id in own then 0 else n);
            && ContextOk(side, t, own, agg) && t.lastFillPrice == price
            && QtySum(t.summaries) == QtySum(c.summaries) + n
            && QtyAt(t.summaries, p) == QtyAt(c.summaries, p) + if p == price then n else 0
  {
    hide QtySum, QtyAt, Balanced, ContextOk, RecordTrade;
    var phantom := if id in own then 0 else n;
    MoreIs(side, c, agg, id, price, n, phantom, own);
    var last := c.summaries[|c.summaries| - 1];
    var s := Extended(last, agg, id, n, phantom);
    NextLegBalanced(last, s, agg, id, n, own);
    LastSummaryOk(side, c, s, own, agg);
    QtyReplaced(c.summaries, s, p);
  }

  lemma RecordTradeOk(side: Side, c: Context, agg: nat, id: nat, price: Price, n: nat, own: set<nat>, p: Price)
    requires ContextOk(side, c, own, agg) && price != NULL_PRICE && n > 0
    requires c.summaries == [] || IsPriceBetterOrEqual(side, c.lastFillPrice, price)
    ensures c.lastFillPrice == price ==> c.summaries != []
    ensures var t := RecordTrade(c, agg, id, price, n, if id in own then 0 else n);
            && ContextOk(side, t, own, agg) && t.lastFillPrice == price
            && QtySum(t.summaries) == QtySum(c.summaries) + n
            && QtyAt(t.summaries, p) == QtyAt(c.summaries, p) + if p == price then n else 0
  {
    hide QtySum, QtyAt, ContextOk, RecordTrade;
    if c.lastFillPrice == price {
      RecordMore(side, c, agg, id, price, n, own, p);
    } else {
      RecordNew(side, c, agg, id, price, n, own, p);
    }
  }

  lemma FirstLegBalanced(agg: nat, id: nat, price: Price, n: nat, own: set<nat>)
    ensures Balanced(Summary(price, n, if id in own then 0 else n, 2, [Leg(agg, n), Leg(id, n)]), own, agg)
  {
    var legs := [Leg(agg, n), Leg(id, n)];
    assert legs[1..] == [] + [Leg(id, n)];
    LegSumSnoc([], Leg(id, n), own);
  }

  lemma NextLegBalanced(last: Summary, s: Summary, agg: nat, id: nat, n: nat, own: set<nat>)
    requires Balanced(last, own, agg)
    requires s == Summary(last.price, last.qty + n, last.phantomQty + (if id in own then 0 else n), last.numOrders + 1,
                          last.legs[0 := Leg(agg, last.qty + n)] + [Leg(id, n)])
    ensures Balanced(s, own, agg)
  {
    hide LegSum, PhantomLegs;
    assert s.legs[1..] == last.legs[1..] + [Leg(id, n)];
    LegSumSnoc(last.legs[1..], Leg(id, n), own);
  }

  /** The fills of `acts` visit prices that never improve, starting no better than `from`. */
  ghost predicate Worsening(side: Side, acts: seq<Action>) {
    && (forall i :: 0 <= i < |acts| && acts[i].Fill? ==> acts[i].price != NULL_PRICE && acts[i].qty > 0)
    && (forall i, j :: 0 <= i < j < |acts| && acts[i].Fill? && acts[j].Fill? ==>
          IsPriceBetterOrEqual(side, acts[i].price, acts[j].price))
  }

  ghost predicate NoBetterThan(side: Side, acts: seq<Action>, c: Context) {
    c.summaries == [] || forall i :: 0 <= i < |acts| && acts[i].Fill? ==> IsPriceBetterOrEqual(side, c.lastFillPrice, acts[i].price)
  }

  lemma {:induction false} RecordOk(side: Side, c: Context, acts: seq<Action>, own: set<nat>, agg: nat, p: Price)
    requires ContextOk(side, c, own, agg) && Worsening(side, acts) && NoBetterThan(side, acts, c)
    ensures var t := Record(c, acts, own, agg);
            && ContextOk(side, t, own, agg)
            && QtySum(t.summaries) == QtySum(c.summaries) + Filled(acts)
            && QtyAt(t.summaries, p) == QtyAt(c.summaries, p) + FilledAt(acts, p)
    decreases |acts|
  {
    if acts != [] {
      var a, rest := acts[0], acts[1..];
      assert forall i :: 0 <= i < |rest| ==> rest[i] == acts[i + 1];
      if a.Cancel? {
        RecordOk(side, c, rest, own, agg, p);
      } else {
        RecordTradeOk(side, c, agg, a.id, a.price, a.qty, own, p);
        RecordOk(side, RecordTrade(c, agg, a.id, a.price, a.qty, if a.id in own then 0 else a.qty), rest, own, agg, p);
      }
    }
  }

  // ----- the legs are the fills

  /** The resting legs of a list of summaries, each at its summary's price, in order. */
  function AllLegs(ss: seq<Summary>): seq<Action> {
    if ss == [] then [] else AllLegs(ss[..|ss| - 1]) + LegFills(ss[|ss| - 1].price, RestingLegs(ss[|ss| - 1]))
  }

  function RestingLegs(s: Summary): seq<Leg> {
    if s.legs == [] then [] else s.legs[1..]
  }

  function LegFills(p: Price, legs: seq<Leg>): seq<Action> {
    if legs == [] then [] else LegFills(p, legs[..|legs| - 1]) + [Fill(legs[|legs| - 1].id, p, legs[|legs| - 1].qty)]
  }

  function FillsOnly(acts: seq<Action>): seq<Action> {
    if acts == [] then [] else (if acts[0].Fill? then [acts[0]] else []) + FillsOnly(acts[1..])
  }

  /** One more fill is one more leg, wherever it is recorded. */
  lemma OneMoreLeg(c: Context, agg: nat, id: nat, price: Price, n: nat, phantom: nat)
    requires c.lastFillPrice == price ==>
               c.summaries != [] && c.summaries[|c.summaries| - 1].price == price && c.summaries[|c.summaries| - 1].legs != []
    ensures var t := RecordTrade(c, agg, id, price, n, phantom);
            && AllLegs(t.summaries) == AllLegs(c.summaries) + [Fill(id, price, n)]
            && t.summaries != [] && t.lastFillPrice == price
            && t.summaries[|t.summaries| - 1].price == price && t.summaries[|t.summaries| - 1].legs != []
  {
    var t, ss := RecordTrade(c, agg, id, price, n, phantom), c.summaries;
    var last := t.summaries[|t.summaries| - 1];
    if c.lastFillPrice != price {
      AllLegsSnoc(ss, last);
      LegFillsSnoc(price, [], Leg(id, n));
      assert RestingLegs(last) == [] + [Leg(id, n)];
    } else {
      var k := |ss| - 1;
      var was := ss[k];
      assert ss == ss[..k] + [was] && t.summaries == ss[..k] + [last];
      AllLegsSnoc(ss[..k], was);
      AllLegsSnoc(ss[..k], last);
      LegFillsSnoc(price, RestingLegs(was), Leg(id, n));
      assert RestingLegs(last) == RestingLegs(was) + [Leg(id, n)];
      hide AllLegs, LegFills, RestingLegs;
      Regroup(AllLegs(ss[..k]), LegFills(price, RestingLegs(was)), [Fill(id, price, n)]);
    }
  }

  lemma AllLegsSnoc(ss: seq<Summary>, x: Summary)
    ensures AllLegs(ss + [x]) == AllLegs(ss) + LegFills(x.price, RestingLegs(x))
  {
    assert (ss + [x])[..|ss|] == ss;
  }

  lemma LegFillsSnoc(p: Price, legs: seq<Leg>, x: Leg)
    ensures LegFills(p, legs + [x]) == LegFills(p, legs) + [Fill(x.id, p, x.qty)]
    ensures LegFills(p, []) == []
  {
    assert (legs + [x])[..|legs|] == legs;
  }

  /** The accumulator can go on: its last summary has a leg and the price it was last at. */
  ghost predicate GoesOn(c: Context) {
    if c.summaries == [] then c.lastFillPrice == NULL_PRICE
    else c.summaries[|c.summaries| - 1].price == c.lastFillPrice && c.summaries[|c.summaries| - 1].legs != []
  }

  lemma FillsFirst(acts: seq<Action>)
    requires acts != []
    ensures FillsOnly(acts) == if acts[0].Fill? then [acts[0]] + FillsOnly(acts[1..]) else FillsOnly(acts[1..])
  {
  }

  lemma {:induction false} RecordLegs(c: Context, acts: seq<Action>, own: set<nat>, agg: nat)
    requires GoesOn(c) && forall i :: 0 <= i < |acts| && acts[i].Fill? ==> acts[i].price != NULL_PRICE
    ensures AllLegs(Record(c, acts, own, agg).summaries) == AllLegs(c.summaries) + FillsOnly(acts)
    decreases |acts|
  {
    hide AllLegs, RecordTrade, FillsOnly;
    if acts == [] {
      assert FillsOnly([]) == [] by {
        NoFills();
      }
    } else {
      var a, rest := acts[0], acts[1..];
      FillsFirst(acts);
      if a.Cancel? {
        RecordLegs(c, rest, own, agg);
      } else {
        var t := RecordTrade(c, agg, a.id, a.price, a.qty, if a.id in own then 0 else a.qty);
        OneMoreLeg(c, agg, a.id, a.price, a.qty, if a.id in own then 0 else a.qty);
        RecordLegs(t, rest, own, agg);
        Regroup(AllLegs(c.summaries), [Fill(a.id, a.price, a.qty)], FillsOnly(rest));
      }
    }
  }

  lemma NoFills()
    ensures FillsOnly([]) == []
  {
  }

  /** Read leg by leg, the summaries of a match are its fills: the same orders, prices and quantities, in the same order. */
  lemma LegsAreTheFills(e: Engine, t: Terms, q: seq<Resting>, qty: nat, own: set<nat>, agg: nat)
    requires e.Valid() && WellFormed(t.side, q)
    ensures var acts := Plan(e, t, q, qty).actions;
            && Worsening(t.side, acts)
            && AllLegs(Record(START, acts, own, agg).summaries) == FillsOnly(acts)
  {
    hide Plan, Record, FillsOnly;
    PlanWorsens(e, t, q, qty);
    RecordLegs(START, Plan(e, t, q, qty).actions, own, agg);
    assert [] + FillsOnly(Plan(e, t, q, qty).actions) == FillsOnly(Plan(e, t, q, qty).actions);
  }

  // ----- both engines visit the book best price first

  ghost predicate FillsFrom(side: Side, acts: seq<Action>, best: Price) {
    forall i :: 0 <= i < |acts| && acts[i].Fill? ==> IsPriceBetterOrEqual(side, best, acts[i].price)
  }

  lemma HeadIsBest(s: Side, q: seq<Resting>)
    requires WellFormed(s, q) && q != []
    ensures q[0].price != NULL_PRICE && q[0].qty > 0
    ensures |q| > 1 ==> IsPriceBetterOrEqual(s, q[0].price, q[1].price)
  {
    assert View(q)[q[0].id] == q[0];
    if |q| > 1 {
      assert View(q[1..])[q[1].id] == q[1];
    }
  }

  lemma {:induction false} FifoWorsens(t: Terms, q: seq<Resting>, qty: nat)
    requires WellFormed(t.side, q)
    ensures Worsening(t.side, FifoPlan(t, q, qty).actions)
    ensures q != [] ==> FillsFrom(t.side, FifoPlan(t, q, qty).actions, q[0].price)
  {
    hide View, Distinct, Sorted, AllReal, Worsening, FillsFrom;
    NoneWorsens(t.side, if q == [] then 0 else q[0].price);
    if !t.Stops(q, qty) {
      Tail(t.side, q);
      HeadIsBest(t.side, q);
      var n := if t.Blocks(q[0]) then 0 else Min(qty, q[0].qty);
      var rest := FifoPlan(t, q[1..], qty - n).actions;
      FifoWorsens(t, q[1..], qty - n);
      FillsFromWeaken(t.side, rest, q);
      OneMoreWorsens(t.side, if t.Blocks(q[0]) then Cancel(q[0].id) else Fill(q[0].id, q[0].price, n), rest, q[0].price);
    }
  }

  lemma NoneWorsens(s: Side, p: Price)
    ensures Worsening(s, []) && FillsFrom(s, [], p)
  {
  }

  lemma OneMoreWorsens(s: Side, a: Action, acts: seq<Action>, p: Price)
    requires Worsening(s, acts) && FillsFrom(s, acts, p) && (a.Fill? ==> a.price == p && p != NULL_PRICE && a.qty > 0)
    ensures Worsening(s, [a] + acts) && FillsFrom(s, [a] + acts, p)
  {
  }

  lemma FillsFromWeaken(s: Side, acts: seq<Action>, q: seq<Resting>)
    requires q != [] && (|q| > 1 ==> IsPriceBetterOrEqual(s, q[0].price, q[1].price) && FillsFrom(s, acts, q[1].price))
    requires |q| == 1 ==> acts == []
    ensures FillsFrom(s, acts, q[0].price)
  {
  }

  lemma {:induction false} LevelFillsUniform(level: seq<Resting>, alloc: seq<nat>, p: Price)
    requires forall i :: 0 <= i < |level| ==> level[i].price == p
    ensures forall i :: 0 <= i < |LevelFills(level, alloc)| ==>
              LevelFills(level, alloc)[i].Fill? && LevelFills(level, alloc)[i].price == p && LevelFills(level, alloc)[i].qty > 0
  {
    if level != [] && alloc != [] {
      LevelFillsUniform(level[1..], alloc[1..], p);
    }
  }

  lemma {:induction false} CancelsOnlyCancel(t: Terms, level: seq<Resting>)
    ensures forall i :: 0 <= i < |Cancels(t, level)| ==> Cancels(t, level)[i].Cancel?
  {
    if level != [] {
      CancelsOnlyCancel(t, level[1..]);
    }
  }

  lemma LevelUniform(split: Splitting, t: Terms, q: seq<Resting>, qty: nat)
    requires WellFormed(t.side, q) && q != []
    ensures forall i :: 0 <= i < |LevelActions(split, t, q, qty)| && LevelActions(split, t, q, qty)[i].Fill? ==>
              LevelActions(split, t, q, qty)[i].price == q[0].price && LevelActions(split, t, q, qty)[i].qty > 0
  {
    hide View, WellFormed;
    FrontBehind(t.side, q);
    KeptMembers(t, Front(q));
    var kept := Kept(t, Front(q));
    LevelFillsUniform(kept, split(Sizes(kept), qty), q[0].price);
    CancelsOnlyCancel(t, Front(q));
    hide Front, Kept, LevelFills, Cancels;
  }

  lemma {:induction false} ProRataWorsens(split: Splitting, t: Terms, q: seq<Resting>, qty: nat)
    requires WellFormed(t.side, q)
    ensures Worsening(t.side, ProRataPlan(split, t, q, qty).actions)
    ensures q != [] ==> FillsFrom(t.side, ProRataPlan(split, t, q, qty).actions, q[0].price)
    decreases |q|
  {
    hide View, Distinct, Sorted, AllReal, LevelActions, Total, Kept, Crosses, Front, Behind;
    if !t.Stops(q, qty) {
      FrontBehind(t.side, q);
      HeadIsBest(t.side, q);
      var left := qty - Min(qty, Total(Kept(t, Front(q))));
      ProRataWorsens(split, t, Behind(q), left);
      LevelUniform(split, t, q, qty);
      if Behind(q) != [] {
        BehindWorse(t.side, q);
      }
      var acts, rest := LevelActions(split, t, q, qty), ProRataPlan(split, t, Behind(q), left).actions;
      WorseningConcat(t.side, acts, rest, q[0].price, if Behind(q) == [] then q[0].price else Behind(q)[0].price);
    }
  }

  lemma BehindWorse(s: Side, q: seq<Resting>)
    requires WellFormed(s, q) && q != [] && Behind(q) != []
    ensures IsPriceBetterOrEqual(s, q[0].price, Behind(q)[0].price)
  {
    var n := FrontLen(q);
    FrontBehind(s, q);
    ViewMember(q[1..]);
    assert Behind(q)[0] == q[1..][n - 1];
    assert Behind(q)[0] in q[1..];
  }

  lemma WorseningConcat(s: Side, a: seq<Action>, b: seq<Action>, p: Price, p': Price)
    requires p != NULL_PRICE && IsPriceBetterOrEqual(s, p, p') && Worsening(s, b) && FillsFrom(s, b, p')
    requires forall i :: 0 <= i < |a| && a[i].Fill? ==> a[i].price == p && a[i].qty > 0
    ensures Worsening(s, a + b) && FillsFrom(s, a + b, p)
  {
  }

  lemma PlanWorsens(e: Engine, t: Terms, q: seq<Resting>, qty: nat)
    requires e.Valid() && WellFormed(t.side, q)
    ensures Worsening(t.side, Plan(e, t, q, qty).actions)
  {
    match e
    case Fifo => FifoWorsens(t, q, qty);
    case ProRataEngine(cfg) => ProRataWorsens(ProRata.Splitter(cfg), t, q, qty);
  }

  /** What the actions cancelled, by what was resting when they did. */
  ghost function CancelledQty(q: seq<Resting>, acts: seq<Action>): nat
    requires ActionsOk(q, acts)
    decreases |acts|
  {
    if acts == [] then 0
    else (if acts[0].Cancel? then View(q)[acts[0].id].qty else 0) + CancelledQty(Act(q, acts[0]), acts[1..])
  }

  lemma {:induction false} ResizeTotal(q: seq<Resting>, id: nat, n: nat)
    requires Distinct(q) && id in View(q)
    ensures Total(Resize(q, id, n)) == Total(q) - View(q)[id].qty + n
  {
    if q[0].id == id {
      if n != 0 {
        assert ([q[0].(qty := n)] + q[1..])[1..] == q[1..];
      }
    } else {
      ResizeTotal(q[1..], id, n);
      assert ([q[0]] + Resize(q[1..], id, n))[1..] == Resize(q[1..], id, n);
    }
  }

  lemma {:induction false} ActAllTotal(q: seq<Resting>, acts: seq<Action>)
    requires Distinct(q) && ActionsOk(q, acts)
    ensures Total(ActAll(q, acts)) + Filled(acts) + CancelledQty(q, acts) == Total(q)
    decreases |acts|
  {
    hide View, Distinct, Resize, Total;
    if acts != [] {
      var a := acts[0];
      ResizeTotal(q, a.id, if a.Fill? then View(q)[a.id].qty - a.qty else 0);
      ResizeView(q, a.id, if a.Fill? then View(q)[a.id].qty - a.qty else 0);
      ActAllTotal(Act(q, a), acts[1..]);
    }
  }

  /**
   Conservation over a whole match, for either engine. Summary prices strictly worsen and every
   summary balances; in total they report exactly what the aggressor lost, and that together with
   the self-match cancels is exactly what the resting side lost. Per price they report what traded.
   */
  lemma Conservation(e: Engine, t: Terms, q: seq<Resting>, qty: nat, own: set<nat>, agg: nat, p: Price)
    requires e.Valid() && WellFormed(t.side, q)
    ensures var o := Plan(e, t, q, qty);
            && Worsening(t.side, o.actions) && ActionsOk(q, o.actions)
            && var c := Record(START, o.actions, own, agg);
               && ContextOk(t.side, c, own, agg)
               && QtySum(c.summaries) == qty - o.remaining
               && QtyAt(c.summaries, p) == FilledAt(o.actions, p)
               && Total(q) - Total(ActAll(q, o.actions)) == QtySum(c.summaries) + CancelledQty(q, o.actions)
  {
    hide View, Distinct, Sorted, AllReal, Plan, Record, ActAll, ActionsOk, Filled, FilledAt, CancelledQty, Total;
    var o := Plan(e, t, q, qty);
    PlanSound(e, t, q, qty);
    PlanWorsens(e, t, q, qty);
    RecordOk(t.side, START, o.actions, own, agg, p);
    ActAllTotal(q, o.actions);
  }
}
