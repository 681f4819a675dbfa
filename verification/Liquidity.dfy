/**
 What a match trades, said of the queue alone: quantities and prices in plain comparisons, for a market
 order and for a limited one.
 */
module Liquidity {
  import opened Types
  import opened Queue
  import opened MatchPlan
  import PreChecks
  import ProRata
  import TradeSummaries

  /** A buyer pays at most its limit, a seller takes at least it, and an order without one takes any price. */
  predicate Acceptable(resting: Side, price: Price, limit: Price) {
    limit == NULL_PRICE || (resting == Sell && price <= limit) || (resting == Buy && price >= limit)
  }

  /** The quantity resting at acceptable prices, orders in `removed` apart. */
  function Tradable(resting: Side, q: seq<Resting>, limit: Price, removed: set<nat>): nat {
    if q == [] then 0
    else (if Acceptable(resting, q[0].price, limit) && q[0].id !in removed then q[0].qty else 0)
         + Tradable(resting, q[1..], limit, removed)
  }

  /** The orders self-match prevention keeps out of the match. */
  function Removed(t: Terms): set<nat> {
    if t.smp == SmpNone then {} else t.self
  }

  /** Bids fall and asks rise from the front of the queue; at one price, priorities rise. */
  lemma SortedPlainly(s: Side, q: seq<Resting>, i: nat, j: nat)
    requires WellFormed(s, q) && i < j < |q|
    ensures if s == Buy then q[i].price >= q[j].price else q[i].price <= q[j].price
    ensures q[i].price == q[j].price ==> q[i].priority <= q[j].priority
    decreases i
  {
    if i == 0 {
      PreChecks.SortedAt(s, q, j);
    } else {
      Tail(s, q);
      SortedPlainly(s, q[1..], i - 1, j - 1);
    }
  }

  lemma {:induction false} NothingAcceptable(s: Side, q: seq<Resting>, limit: Price, removed: set<nat>)
    requires forall i :: 0 <= i < |q| ==> !Acceptable(s, q[i].price, limit)
    ensures Tradable(s, q, limit, removed) == 0
  {
    if q != [] {
      assert forall i :: 0 <= i < |q[1..]| ==> q[1..][i] == q[i + 1];
      NothingAcceptable(s, q[1..], limit, removed);
    }
  }

  /** If the front is out of reach so is everything behind it. */
  lemma OutOfReach(s: Side, q: seq<Resting>, limit: Price)
    requires WellFormed(s, q) && q != [] && !Acceptable(s, q[0].price, limit)
    ensures forall i :: 0 <= i < |q| ==> !Acceptable(s, q[i].price, limit)
  {
    forall i | 0 <= i < |q| ensures !Acceptable(s, q[i].price, limit) {
      if i > 0 {
        SortedPlainly(s, q, 0, i);
      }
    }
  }

  lemma {:induction false} AvailableIsTradable(t: Terms, q: seq<Resting>)
    requires WellFormed(t.side, q)
    ensures PreChecks.Available(t, q) == Tradable(t.side, q, t.limit, Removed(t))
  {
    hide View, Distinct, Sorted, AllReal;
    if q != [] {
      Tail(t.side, q);
      AvailableIsTradable(t, q[1..]);
      if !Acceptable(t.side, q[0].price, t.limit) {
        OutOfReach(t.side, q, t.limit);
        NothingAcceptable(t.side, q, t.limit, Removed(t));
      }
    }
  }

  // ----- prices

  ghost predicate PaysWithin(resting: Side, acts: seq<Action>, limit: Price) {
    forall i :: 0 <= i < |acts| && acts[i].Fill? ==> Acceptable(resting, acts[i].price, limit)
  }

  lemma {:induction false} FifoPays(t: Terms, q: seq<Resting>, qty: nat)
    ensures PaysWithin(t.side, FifoPlan(t, q, qty).actions, t.limit)
  {
    if !t.Stops(q, qty) {
      FifoPays(t, q[1..], if t.Blocks(q[0]) then qty else qty - Min(qty, q[0].qty));
    }
  }

  lemma {:induction false} ProRataPays(split: Splitting, t: Terms, q: seq<Resting>, qty: nat)
    requires WellFormed(t.side, q)
    ensures PaysWithin(t.side, ProRataPlan(split, t, q, qty).actions, t.limit)
    decreases |q|
  {
    hide View, WellFormed, LevelActions, Total, Kept, Front, Behind;
    if !t.Stops(q, qty) && !(t.smp == CancelNewest && Kept(t, Front(q)) != Front(q)) {
      FrontBehind(t.side, q);
      TradeSummaries.LevelUniform(split, t, q, qty);
      ProRataPays(split, t, Behind(q), qty - Min(qty, Total(Kept(t, Front(q)))));
    }
  }

  // ----- a whole match

  /**
   For either engine and any self-match mode, a match that is not turned back trades exactly the smaller of
   the quantity asked for and the quantity resting at acceptable prices, at acceptable prices only; and
   if it leaves anything unfilled, no acceptable price is left in the book.
   */
  lemma MatchTakes(e: Engine, t: Terms, q: seq<Resting>, qty: nat)
    requires e.Valid() && WellFormed(t.side, q) && !Plan(e, t, q, qty).rejected
    ensures var o := Plan(e, t, q, qty);
            && Filled(o.actions) == Min(qty, Tradable(t.side, q, t.limit, Removed(t)))
            && o.remaining == qty - Filled(o.actions)
            && PaysWithin(t.side, o.actions, t.limit)
            && ActionsOk(q, o.actions)
            && (o.remaining > 0 ==> forall x :: x in ActAll(q, o.actions) ==> !Acceptable(t.side, x.price, t.limit))
  {
    hide View, WellFormed, Plan, ActAll, ActionsOk, Filled, Tradable, Acceptable, FifoPlan, ProRataPlan;
    var o := Plan(e, t, q, qty);
    PreChecks.PlanRemaining(e, t, q, qty);
    AvailableIsTradable(t, q);
    PlanSound(e, t, q, qty);
    PlanPays(e, t, q, qty);
    LeftWellFormed(t.side, q, o.actions);
    var r := ActAll(q, o.actions);
    if o.remaining > 0 && r != [] {
      NotCrossed(t, r, o.remaining);
      OutOfReach(t.side, r, t.limit);
    }
  }

  lemma NotCrossed(t: Terms, q: seq<Resting>, left: nat)
    requires t.Stops(q, left) && left > 0 && q != []
    ensures !Acceptable(t.side, q[0].price, t.limit)
  {
  }

  lemma PlanPays(e: Engine, t: Terms, q: seq<Resting>, qty: nat)
    requires e.Valid() && WellFormed(t.side, q)
    ensures PaysWithin(t.side, Plan(e, t, q, qty).actions, t.limit)
  {
    match e
    case Fifo => FifoPays(t, q, qty);
    case ProRataEngine(cfg) => ProRataPays(ProRata.Splitter(cfg), t, q, qty);
  }

  lemma {:induction false} LeftWellFormed(s: Side, q: seq<Resting>, acts: seq<Action>)
    requires WellFormed(s, q) && ActionsOk(q, acts)
    ensures WellFormed(s, ActAll(q, acts))
    decreases |acts|
  {
    hide View, WellFormed, Resize;
    if acts != [] {
      ResizeWellFormed(s, q, acts[0].id, if acts[0].Fill? then View(q)[acts[0].id].qty - acts[0].qty else 0);
      LeftWellFormed(s, Act(q, acts[0]), acts[1..]);
    }
  }

  lemma {:induction false} AllTradable(s: Side, q: seq<Resting>)
    ensures Tradable(s, q, NULL_PRICE, {}) == Total(q)
  {
    if q != [] {
      AllTradable(s, q[1..]);
    }
  }

  /** A market order with self-match prevention off takes all there is, or all it asks for. */
  lemma MarketTakesAll(e: Engine, t: Terms, q: seq<Resting>, qty: nat)
    requires e.Valid() && WellFormed(t.side, q) && t.limit == NULL_PRICE && t.smp == SmpNone
    ensures var o := Plan(e, t, q, qty);
            !o.rejected && Filled(o.actions) == Min(qty, Total(q)) && o.remaining == qty - Min(qty, Total(q))
  {
    PreChecks.NeverRejected(if e.Fifo? then (s: seq<nat>, n: nat) => s else ProRata.Splitter(e.cfg), t, q, qty);
    MatchTakes(e, t, q, qty);
    AllTradable(t.side, q);
  }

  /** The fill-or-kill scan in the same terms, whenever CANCEL_NEWEST does not stand in the way. */
  lemma CanFillPlainly(t: Terms, q: seq<Resting>, qty: nat)
    requires WellFormed(t.side, q) && t.smp != CancelNewest
    ensures PreChecks.CanFill(t, q, qty) <==> qty <= Tradable(t.side, q, t.limit, Removed(t))
  {
    PreChecks.CanFillAvailable(t, q, qty);
    AvailableIsTradable(t, q);
  }

  // ----- who trades, order by order

  /** What one order traded. */
  function TradedBy(acts: seq<Action>, id: nat): nat {
    if acts == [] then 0
    else (if acts[0].Fill? && acts[0].id == id then acts[0].qty else 0) + TradedBy(acts[1..], id)
  }

  lemma TradedAfter(a: Action, o: Outcome, id: nat)
    ensures TradedBy(o.After([a]).actions, id) == (if a.Fill? && a.id == id then a.qty else 0) + TradedBy(o.actions, id)
  {
    assert ([a] + o.actions)[1..] == o.actions;
  }

  lemma {:induction false} FifoTradesMembers(t: Terms, q: seq<Resting>, qty: nat, id: nat)
    requires Distinct(q) && id !in View(q)
    ensures TradedBy(FifoPlan(t, q, qty).actions, id) == 0
  {
    if !t.Stops(q, qty) && !(t.Blocks(q[0]) && t.smp == CancelNewest) {
      var n := if t.Blocks(q[0]) then 0 else Min(qty, q[0].qty);
      var a := if t.Blocks(q[0]) then Cancel(q[0].id) else Fill(q[0].id, q[0].price, n);
      TradedAfter(a, FifoPlan(t, q[1..], qty - n), id);
      FifoTradesMembers(t, q[1..], qty - n, id);
    }
  }

  /** What the loop takes of the quantity at the front of the queue. */
  function FrontTake(t: Terms, x: Resting, qty: nat): nat {
    if x.id in Removed(t) then 0 else Min(qty, x.qty)
  }

  lemma FifoFront(t: Terms, q: seq<Resting>, qty: nat, id: nat)
    requires Distinct(q) && !t.Stops(q, qty) && !FifoPlan(t, q, qty).rejected
    ensures var n := FrontTake(t, q[0], qty);
            && !FifoPlan(t, q[1..], qty - n).rejected
            && TradedBy(FifoPlan(t, q, qty).actions, id) == if id == q[0].id then n else TradedBy(FifoPlan(t, q[1..], qty - n).actions, id)
  {
    var n := FrontTake(t, q[0], qty);
    var a := if t.Blocks(q[0]) then Cancel(q[0].id) else Fill(q[0].id, q[0].price, n);
    TradedAfter(a, FifoPlan(t, q[1..], qty - n), id);
    HeadApart(q);
    FifoTradesMembers(t, q[1..], qty - n, q[0].id);
  }

  /**
   FIFO in closed form, for every match that is not turned back: an order at an acceptable price trades what
   is left of the quantity once everything tradable ahead of it is filled, capped by its own size; an order
   out of reach trades nothing.
   */
  lemma {:induction false} FifoOrderByOrder(t: Terms, q: seq<Resting>, qty: nat, i: nat)
    requires WellFormed(t.side, q) && i < |q| && !FifoPlan(t, q, qty).rejected
    ensures TradedBy(FifoPlan(t, q, qty).actions, q[i].id) ==
            var ahead := Tradable(t.side, q[..i], t.limit, Removed(t));
            if !Acceptable(t.side, q[i].price, t.limit) || q[i].id in Removed(t) || qty <= ahead then 0
            else Min(qty - ahead, q[i].qty)
    decreases i
  {
    hide View, Distinct, Sorted, AllReal;
    if t.Stops(q, qty) {
      if qty > 0 && !Acceptable(t.side, q[0].price, t.limit) {
        OutOfReach(t.side, q, t.limit);
      }
    } else {
      Tail(t.side, q);
      FifoFront(t, q, qty, q[i].id);
      hide FifoPlan;
      if i == 0 {
        assert q[..0] == [];
      } else {
        IdAhead(q, i);
        FifoOrderByOrder(t, q[1..], qty - FrontTake(t, q[0], qty), i - 1);
        assert q[..i][0] == q[0] && q[..i][1..] == q[1..][..i - 1];
      }
    }
  }

  lemma HeadApart(q: seq<Resting>)
    requires Distinct(q) && q != []
    ensures Distinct(q[1..]) && q[0].id !in View(q[1..])
  {
  }

  lemma IdAhead(q: seq<Resting>, i: nat)
    requires Distinct(q) && 0 < i < |q|
    ensures q[i].id != q[0].id
  {
    ViewMember(q[1..]);
    assert q[1..][i - 1] == q[i] && q[i] in q[1..];
  }

  function Without(level: seq<Resting>, removed: set<nat>): seq<Resting> {
    if level == [] then []
    else (if level[0].id in removed then [] else [level[0]]) + Without(level[1..], removed)
  }

  function CancelsOf(level: seq<Resting>, removed: set<nat>): seq<Action> {
    if level == [] then []
    else (if level[0].id in removed then [Cancel(level[0].id)] else []) + CancelsOf(level[1..], removed)
  }

  lemma {:induction false} KeptIs(t: Terms, level: seq<Resting>)
    ensures Kept(t, level) == Without(level, Removed(t)) && Cancels(t, level) == CancelsOf(level, Removed(t))
  {
    if level != [] {
      KeptIs(t, level[1..]);
    }
  }

  /**
   Pro-rata, level by level, for every match that is not turned back: at the best price the orders that
   self-match prevention removes are cancelled, the allocation of the others' sizes is filled in queue order,
   and the rest is the match of what is left behind the level.
   */
  lemma ProRataLevelByLevel(cfg: ProRata.Config, t: Terms, q: seq<Resting>, qty: nat)
    requires cfg.Valid() && WellFormed(t.side, q) && !Plan(ProRataEngine(cfg), t, q, qty).rejected
    requires qty > 0 && q != [] && Acceptable(t.side, q[0].price, t.limit)
    ensures var level, rest := Front(q), Behind(q);
            var kept := Without(level, Removed(t));
            && level + rest == q && (forall i :: 0 <= i < |level| ==> level[i].price == q[0].price)
            && (rest != [] ==> rest[0].price != q[0].price)
            && Plan(ProRataEngine(cfg), t, q, qty) ==
               Plan(ProRataEngine(cfg), t, rest, qty - Min(qty, Total(kept)))
                 .After(CancelsOf(level, Removed(t)) + LevelFills(kept, ProRata.Allocation(cfg, Sizes(kept), qty)))
  {
    hide View, WellFormed, Total, ProRata.Allocation, Kept, Cancels, Without, CancelsOf;
    FrontBehind(t.side, q);
    KeptIs(t, Front(q));
  }

  /** Filling an allocation gives every order of the level its own share. */
  lemma {:induction false} FilledAsAllocated(level: seq<Resting>, alloc: seq<nat>, i: nat)
    requires Distinct(level) && |alloc| == |level| && i < |level|
    ensures TradedBy(LevelFills(level, alloc), level[i].id) == alloc[i]
  {
    var head, rest := if alloc[0] == 0 then [] else [Fill(level[0].id, level[0].price, alloc[0])], LevelFills(level[1..], alloc[1..]);
    assert head != [] ==> (head + rest)[1..] == rest;
    if i == 0 {
      UnlistedTradesNothing(level[1..], alloc[1..], level[0].id);
    } else {
      IdAhead(level, i);
      FilledAsAllocated(level[1..], alloc[1..], i - 1);
    }
  }

  lemma {:induction false} UnlistedTradesNothing(level: seq<Resting>, alloc: seq<nat>, id: nat)
    requires Distinct(level) && id !in View(level)
    ensures TradedBy(LevelFills(level, alloc), id) == 0
  {
    if level != [] && alloc != [] {
      UnlistedTradesNothing(level[1..], alloc[1..], id);
      var rest := LevelFills(level[1..], alloc[1..]);
      assert alloc[0] != 0 ==> ([Fill(level[0].id, level[0].price, alloc[0])] + rest)[1..] == rest;
    }
  }
}
