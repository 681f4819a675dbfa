/**
 The exchange end of the compressed l2 channel: each price of a difference sets a level of the
 simulator's own book, which thereby follows the published one.
 */
module L2Book {
  import opened Types
  import opened Queue
  import opened Orders
  import opened BookState
  import opened BookInvariant
  import opened BookOps
  import opened MatchPlan
  import opened Matching
  import opened Feed
  import opened FeedMatching
  import opened L2Diff
  import Exchange
  import PreChecks
  import Requests
  import Reconcile
  import TradeCredits

  /** One level update: an existing level is reconciled, a new one matched and then rested. */
  ghost function SetLevel(e: Engine, s: State, side: Side, l: Level, id: nat, priority: nat): State
    requires e.Valid()
  {
    if HasLevel(s, side, l.price) then ReconcileLevel(s, side, l.price, l.qty, id, priority, 0)
    else MatchThenRest(e, s, side, Resting(id, l.price, l.qty, priority), 0).state
  }

  /** This is the exchange's level handler on an unstamped feed, once no trade is waiting to be reflected. */
  lemma SetLevelIsTheHandler(cfg: Exchange.Config, x: Exchange.Venue, side: Side, l: Level, id: nat, priority: nat, time: nat)
    requires cfg.engine.Valid() && !cfg.stamps
    requires TradeCredits.TakeTradedQty(x.credits, (side, l.price), time).1 == 0
    ensures Exchange.HandleLevel(cfg, x, side, Resting(id, l.price, l.qty, priority), time).book
            == SetLevel(cfg.engine, x.book, side, l, id, priority)
  {
    hide ReconcileLevel, MatchThenRest, HasLevel, TradeCredits.TakeTradedQty;
  }

  /** Ids are drawn one after the other. */
  ghost function SetLevels(e: Engine, s: State, side: Side, ls: seq<Level>, first: nat, priority: nat): State
    requires e.Valid()
    decreases |ls|
  {
    if ls == [] then s
    else SetLevels(e, SetLevel(e, s, side, ls[0], first, priority), side, ls[1..], first + 1, priority)
  }

  ghost predicate UnusedFrom(s: State, first: nat) {
    forall id :: id >= first ==> Unused(s, id)
  }

  /** Nothing but phantom quantity on `side` changed. */
  ghost predicate OnlyPhantoms(s: State, t: State, side: Side) {
    && Inv(t, {}) && SameOwners(s, t) && OwnUntouched(s, t, side) && t.On(Opposite(side)) == s.On(Opposite(side))
  }

  ghost predicate Sets(s: State, t: State, side: Side, l: Level) {
    forall p: Price :: PhantomAt(t.On(side), p, t.orders) == if p == l.price then l.qty else PhantomAt(s.On(side), p, s.orders)
  }

  /** Liquidity at a price that shows none yet, and that crosses nothing, rests whole. */
  lemma RestSets(e: Engine, s: State, side: Side, l: Level, id: nat, priority: nat)
    requires e.Valid() && Inv(s, {}) && l.price != NULL_PRICE && UnusedFrom(s, id)
    requires PhantomAt(s.On(side), l.price, s.orders) == 0
    requires l.qty > 0 ==> FitsBeside(s, side, l.price)
    ensures var t := MatchThenRest(e, s, side, Resting(id, l.price, l.qty, priority), 0).state;
            OnlyPhantoms(s, t, side) && Sets(s, t, side, l) && UnusedFrom(t, id + 1)
  {
    hide View, Distinct, Sorted, AllReal, PhantomAt, LookupsOk, RestsAsRecorded, IndexOk, FitsBeside, MatchFeed, Insert;
    assert Unused(s, id);
    NothingCrosses(e, s, side, l.price, l.qty, 0);
    var x := Resting(id, l.price, l.qty, priority);
    var t := MatchThenRest(e, s, side, x, 0).state;
    if l.qty > 0 {
      assert t == L3Add(s, side, x, 0);
      AddPhantomKeeps(s, {}, side, x, 0);
      AddShape(s, side, x, 0);
      InsertedQueues(s, side, x);
      hide L3Add, MatchThenRest, Inv, Uncrossed, QueuesOk;
      assert t.On(side) == Insert(side, s.On(side), x) && t.On(Opposite(side)) == s.On(Opposite(side));
      forall p: Price
        ensures PhantomAt(t.On(side), p, t.orders) == PhantomAt(s.On(side), p, s.orders) + Phantom(x, p, s.orders)
      {
        InsertPhantom(side, s.On(side), x, p, s.orders);
      }
      StillUnused(s, t, side, id);
    } else {
      assert t == s;
    }
  }

  lemma StillUnused(s: State, t: State, side: Side, id: nat)
    requires UnusedFrom(s, id) && t.pool == s.pool && t.On(Opposite(side)) == s.On(Opposite(side))
    requires forall j :: j in View(t.On(side)) ==> j in View(s.On(side)) || j == id
    ensures UnusedFrom(t, id + 1)
  {
    hide View;
    forall j | j >= id + 1 ensures Unused(t, j) {
      assert Unused(s, j);
      assert j !in View(s.On(side)) && j !in View(s.On(Opposite(side)));
      assert j !in View(t.On(side)) && j !in View(t.On(Opposite(side)));
    }
  }

  lemma OldLevelSets(e: Engine, s: State, side: Side, l: Level, id: nat, priority: nat)
    requires e.Valid() && Inv(s, {}) && HasLevel(s, side, l.price) && l.price != NULL_PRICE && UnusedFrom(s, id)
    ensures var t := SetLevel(e, s, side, l, id, priority);
            OnlyPhantoms(s, t, side) && Sets(s, t, side, l) && UnusedFrom(t, id + 1)
  {
    hide View, Distinct, Sorted, AllReal, PhantomAt, LookupsOk, RestsAsRecorded, IndexOk, FitsBeside, Insert, HasLevel;
    hide Reconcile.Trimmed, ReconcileLevel;
    assert Unused(s, id);
    ReconcileExact(s, side, l.price, l.qty, id, priority, 0);
    var t, q := SetLevel(e, s, side, l, id, priority), s.On(side);
    assert WellFormed(side, q);
    TrimmedOwn(q, l.price, s.orders, l.qty);
    if l.qty > PhantomAt(q, l.price, s.orders) {
      var x := Resting(id, l.price, l.qty - PhantomAt(q, l.price, s.orders), priority);
      assert id !in View(q);
      InsertView(side, q, x);
    }
    hide Inv;
    StillUnused(s, t, side, id);
  }

  lemma NewLevel(s: State, side: Side, p: Price)
    requires Inv(s, {}) && !HasLevel(s, side, p)
    ensures PhantomAt(s.On(side), p, s.orders) == 0
  {
    LevelIsNew(s, side, p);
  }

  /** Setting a level sets its phantom quantity and moves nothing else, provided a new one crosses nothing. */
  lemma SetLevelExact(e: Engine, s: State, side: Side, l: Level, id: nat, priority: nat)
    requires e.Valid() && Inv(s, {}) && l.price != NULL_PRICE && UnusedFrom(s, id)
    requires l.qty > 0 ==> FitsBeside(s, side, l.price)
    ensures var t := SetLevel(e, s, side, l, id, priority);
            OnlyPhantoms(s, t, side) && Sets(s, t, side, l) && UnusedFrom(t, id + 1)
  {
    hide Inv, HasLevel, ReconcileLevel, MatchThenRest, OnlyPhantoms, Sets, UnusedFrom, FitsBeside, PhantomAt;
    if HasLevel(s, side, l.price) {
      OldLevelSets(e, s, side, l, id, priority);
    } else {
      NewLevel(s, side, l.price);
      RestSets(e, s, side, l, id, priority);
    }
  }

  // ----- a list of levels

  /** The phantom quantity of one side of the book, price by price. */
  ghost predicate Mirrors(s: State, side: Side, qty: map<Price, nat>) {
    forall p: Price :: PhantomAt(s.On(side), p, s.orders) == if p in qty then qty[p] else 0
  }

  function SetAll(qty: map<Price, nat>, ls: seq<Level>): map<Price, nat>
    decreases |ls|
  {
    if ls == [] then qty else SetAll(SetQty(qty, ls[0].price, ls[0].qty), ls[1..])
  }

  ghost predicate Clears(s: State, side: Side, ls: seq<Level>) {
    forall l :: l in ls ==> l.price != NULL_PRICE && (l.qty > 0 ==> FitsBeside(s, side, l.price))
  }

  lemma OnlyPhantomsTrans(s: State, t: State, u: State, side: Side)
    requires OnlyPhantoms(s, t, side) && OnlyPhantoms(t, u, side)
    ensures OnlyPhantoms(s, u, side)
  {
    hide View, Inv;
  }

  lemma StillFits(s: State, t: State, side: Side, price: Price)
    requires t.On(Opposite(side)) == s.On(Opposite(side))
    ensures FitsBeside(t, side, price) == FitsBeside(s, side, price)
  {
    hide View;
  }

  lemma SetQtyMirrors(s: State, t: State, side: Side, l: Level, qty: map<Price, nat>)
    requires Mirrors(s, side, qty) && Sets(s, t, side, l)
    ensures Mirrors(t, side, SetQty(qty, l.price, l.qty))
  {
    hide PhantomAt;
  }

  lemma {:induction false} SetLevelsMirror(e: Engine, s: State, side: Side, ls: seq<Level>, first: nat, priority: nat,
                                           qty: map<Price, nat>)
    requires e.Valid() && Inv(s, {}) && UnusedFrom(s, first) && Clears(s, side, ls) && Mirrors(s, side, qty)
    ensures var t := SetLevels(e, s, side, ls, first, priority);
            OnlyPhantoms(s, t, side) && Mirrors(t, side, SetAll(qty, ls)) && UnusedFrom(t, first + |ls|)
    decreases |ls|
  {
    hide Inv, SetLevel, UnusedFrom, Mirrors, Sets, FitsBeside, SetQty, View;
    if ls != [] {
      assert ls[0] in ls && forall l :: l in ls[1..] ==> l in ls;
      SetLevelExact(e, s, side, ls[0], first, priority);
      var t := SetLevel(e, s, side, ls[0], first, priority);
      SetQtyMirrors(s, t, side, ls[0], qty);
      forall l | l in ls[1..] ensures l.qty > 0 ==> FitsBeside(t, side, l.price) {
        StillFits(s, t, side, l.price);
      }
      SetLevelsMirror(e, t, side, ls[1..], first + 1, priority, SetQty(qty, ls[0].price, ls[0].qty));
      hide SameOwners;
      OnlyPhantomsTrans(s, t, SetLevels(e, t, side, ls[1..], first + 1, priority), side);
    }
  }

  // ----- one difference

  function Emptied(gone: seq<Price>): seq<Level> {
    if gone == [] then [] else [Level(gone[0], 0)] + Emptied(gone[1..])
  }

  lemma {:induction false} EmptiedIs(gone: seq<Price>)
    ensures |Emptied(gone)| == |gone|
    ensures forall l :: l in Emptied(gone) ==> l.qty == 0 && l.price in gone
  {
    if gone != [] {
      EmptiedIs(gone[1..]);
      assert gone == [gone[0]] + gone[1..];
    }
  }

  lemma {:induction false} RemoveIsSetAll(h: Held, gone: seq<Price>)
    ensures Remove(h, gone).qty == SetAll(h.qty, Emptied(gone))
    decreases |gone|
  {
    if gone != [] {
      RemoveIsSetAll(Held(Erase(h.ref, gone[0]), SetQty(h.qty, gone[0], 0)), gone[1..]);
      assert Emptied(gone)[1..] == Emptied(gone[1..]);
    }
  }

  lemma {:induction false} ChangeIsSetAll(s: Side, h: Held, ls: seq<Level>)
    ensures Change(s, h, ls).qty == SetAll(h.qty, ls)
    decreases |ls|
  {
    if ls != [] {
      ChangeIsSetAll(s, Held(Place(s, h.ref, ls[0].price), SetQty(h.qty, ls[0].price, ls[0].qty)), ls[1..]);
    }
  }

  /** The decoder on the book: bids removed, asks removed, bids changed, asks changed. */
  ghost function ProcessDiff(e: Engine, s: State, h: BookHeld, bids: SideDiff, asks: SideDiff, first: nat, priority: nat): State
    requires e.Valid()
  {
    var goneBids, goneAsks := Resolve(h.bids.ref, bids.removed), Resolve(h.asks.ref, asks.removed);
    var n1, n2 := first + |goneBids|, first + |goneBids| + |goneAsks|;
    var s1 := SetLevels(e, s, Buy, Emptied(goneBids), first, priority);
    var s2 := SetLevels(e, s1, Sell, Emptied(goneAsks), n1, priority);
    var s3 := SetLevels(e, s2, Buy, bids.changed, n2, priority);
    SetLevels(e, s3, Sell, asks.changed, n2 + |bids.changed|, priority)
  }

  /** No own order rests where the published book has crossed it. */
  ghost predicate OwnClear(s: State, curr: Sides) {
    && (forall id, p :: id in s.orders && id in s.pool && s.pool[id].side == Buy && p in Prices(curr.asks) ==> s.pool[id].price < p)
    && (forall id, p :: id in s.orders && id in s.pool && s.pool[id].side == Sell && p in Prices(curr.bids) ==> p < s.pool[id].price)
  }

  /** A published book: both sides strictly best first, uncrossed, at real prices. */
  ghost predicate Published(b: Sides) {
    && BestFirst(Buy, Prices(b.bids)) && BestFirst(Sell, Prices(b.asks))
    && (forall p, q :: p in Prices(b.bids) && q in Prices(b.asks) ==> p < q)
    && NULL_PRICE !in Prices(b.bids) && NULL_PRICE !in Prices(b.asks)
  }

  ghost predicate BookMirrors(s: State, b: Sides) {
    Mirrors(s, Buy, ByPrice(b.bids)) && Mirrors(s, Sell, ByPrice(b.asks))
  }

  /** Every phantom order shows in its price's phantom quantity. */
  lemma PhantomShows(s: State, side: Side, id: nat)
    requires Inv(s, {}) && id in View(s.On(side)) && id !in s.orders
    ensures PhantomAt(s.On(side), View(s.On(side))[id].price, s.orders) > 0
  {
    PhantomBounds(s, side, id);
    hide PhantomAt, IndexOk, LookupsOk, Uncrossed;
  }

  lemma {:induction false} SetAllKeys(qty: map<Price, nat>, ls: seq<Level>)
    ensures forall p :: p in SetAll(qty, ls) ==> p in qty || p in Prices(ls)
    decreases |ls|
  {
    if ls != [] {
      SetAllKeys(SetQty(qty, ls[0].price, ls[0].qty), ls[1..]);
    }
  }

  /** New bids fit under asks that all come from the published book or are clear of it. */
  lemma LevelsFit(s: State, side: Side, curr: Sides, qty: map<Price, nat>, ls: seq<Level>)
    requires Inv(s, {}) && Published(curr) && OwnClear(s, curr) && Mirrors(s, Opposite(side), qty)
    requires forall p :: p in qty && qty[p] > 0 ==> p in Prices(if side == Buy then curr.asks else curr.bids)
    requires forall l :: l in ls ==> l.price in Prices(if side == Buy then curr.bids else curr.asks)
    ensures Clears(s, side, ls)
  {
    hide View, Inv, PhantomAt, BestFirst, Prices, RestsAsRecorded;
    var opp := Opposite(side);
    forall l | l in ls ensures l.price != NULL_PRICE && FitsBeside(s, side, l.price) {
      forall id | id in View(s.On(opp)) ensures !IsPriceBetterOrEqual(opp, View(s.On(opp))[id].price, l.price) {
        if id in s.orders {
          OwnAt(s, opp, id);
        } else {
          PhantomShows(s, opp, id);
        }
      }
    }
  }

  lemma OwnAt(s: State, side: Side, id: nat)
    requires Inv(s, {}) && id in s.orders && id in View(s.On(side))
    ensures id in s.pool && s.pool[id].side == side && View(s.On(side))[id].price == s.pool[id].price
  {
    OwnSide(s, {}, side, id);
  }

  function At(qty: map<Price, nat>, p: Price): nat {
    if p in qty then qty[p] else 0
  }

  /** The quantities one side's difference leaves, half way and at its end. */
  lemma SideQuantities(s: Side, h: Held, prev: seq<Level>, curr: seq<Level>, descending: bool)
    requires BestFirst(s, Prices(prev)) && BestFirst(s, Prices(curr)) && Holds(h, prev)
    ensures var d := DiffSide(prev, curr, descending);
            var gone := Resolve(h.ref, d.removed);
            var mid := SetAll(h.qty, Emptied(gone));
            && (forall p :: p in gone ==> p in Prices(prev))
            && (forall p :: p in mid && mid[p] > 0 ==> p in Prices(curr))
            && (forall l :: l in d.changed ==> l.price in Prices(curr))
            && (forall p: Price :: At(SetAll(mid, d.changed), p) == At(ByPrice(curr), p))
  {
    var d := DiffSide(prev, curr, descending);
    var gone := Resolve(h.ref, d.removed);
    GoneAre(prev, curr, descending);
    RemoveKeeps(s, h, gone);
    RemoveIsSetAll(h, gone);
    ChangeIsSetAll(s, Remove(h, gone), d.changed);
    ChangedIs(s, ByPrice(prev), curr);
    PricesMember(curr);
    DiffRoundTrip(s, h, prev, curr, descending);
    ByPriceOf(s, prev);
    var mid := SetAll(h.qty, Emptied(gone));
    hide Remove, Change, SetAll, Emptied, DiffSide, Resolve, BestFirst, Prices, ByPrice;
    forall p | p in mid && mid[p] > 0 ensures p in Prices(curr) {
      assert QtyAt(Remove(h, gone), p) == mid[p];
      assert QtyAt(h, p) > 0;
    }
    forall p: Price ensures At(SetAll(mid, d.changed), p) == At(ByPrice(curr), p) {
      assert QtyAt(L2Diff.Apply(s, h, d), p) == At(SetAll(mid, d.changed), p);
    }
  }

  lemma SameMirror(s: State, t: State, side: Side, qty: map<Price, nat>, qty': map<Price, nat>)
    requires Mirrors(s, side, qty) && t.On(side) == s.On(side) && t.orders == s.orders
    requires forall p: Price :: At(qty, p) == At(qty', p)
    ensures Mirrors(t, side, qty')
  {
    hide PhantomAt;
    forall p: Price ensures PhantomAt(t.On(side), p, t.orders) == At(qty', p) {
      assert PhantomAt(s.On(side), p, s.orders) == At(qty, p);
    }
  }

  lemma RemovalsClear(s: State, side: Side, gone: seq<Price>)
    requires NULL_PRICE !in gone
    ensures Clears(s, side, Emptied(gone))
  {
    EmptiedIs(gone);
  }

  /** What the exchange's own book is while it follows one difference. */
  ghost predicate Following(s: State, t: State, curr: Sides, first: nat) {
    && Inv(t, {}) && SameOwners(s, t) && OwnUntouched(s, t, Buy) && OwnUntouched(s, t, Sell)
    && OwnClear(t, curr) && UnusedFrom(t, first)
  }

  /** One list of levels on one side. */
  lemma FollowSide(e: Engine, s0: State, s: State, side: Side, curr: Sides, ls: seq<Level>, first: nat, priority: nat,
                   qty: map<Price, nat>, other: map<Price, nat>)
    requires e.Valid() && Following(s0, s, curr, first) && Clears(s, side, ls)
    requires Mirrors(s, side, qty) && Mirrors(s, Opposite(side), other)
    ensures var t := SetLevels(e, s, side, ls, first, priority);
            && Following(s0, t, curr, first + |ls|)
            && Mirrors(t, side, SetAll(qty, ls)) && Mirrors(t, Opposite(side), other)
  {
    hide View, Inv, UnusedFrom, Mirrors, Clears, SetAll, SetLevels;
    SetLevelsMirror(e, s, side, ls, first, priority, qty);
    var t := SetLevels(e, s, side, ls, first, priority);
    SameMirror(s, t, Opposite(side), other, other);
    assert s.On(Buy) == s.bids && s.On(Sell) == s.asks && t.On(Buy) == t.bids && t.On(Sell) == t.asks;
  }

  /** One id is drawn for every level a difference sets. */
  function IdsDrawn(h: BookHeld, prev: Sides, curr: Sides): nat {
    var bids, asks := DiffSide(prev.bids, curr.bids, true), DiffSide(prev.asks, curr.asks, false);
    |Resolve(h.bids.ref, bids.removed)| + |Resolve(h.asks.ref, asks.removed)| + |bids.changed| + |asks.changed|
  }

  /**
   The book follows the channel: if its phantom quantity is the published book a subscriber holds, then
   after the next difference it is the new published book, at every price of both sides. Own orders keep
   their place and quantity, as long as none of them rests where the new book crosses it.
   */
  lemma BookFollowsTheChannel(e: Engine, s: State, h: BookHeld, prev: Sides, curr: Sides, first: nat, priority: nat)
    requires e.Valid() && Inv(s, {}) && UnusedFrom(s, first)
    requires HoldsBook(h, prev) && NULL_PRICE !in Prices(prev.bids) && NULL_PRICE !in Prices(prev.asks)
    requires Published(curr) && OwnClear(s, curr) && BookMirrors(s, prev)
    ensures var t := ProcessDiff(e, s, h, DiffSide(prev.bids, curr.bids, true), DiffSide(prev.asks, curr.asks, false), first, priority);
            && Inv(t, {}) && SameOwners(s, t) && OwnUntouched(s, t, Buy) && OwnUntouched(s, t, Sell)
            && BookMirrors(t, curr) && UnusedFrom(t, first + IdsDrawn(h, prev, curr))
  {
    hide View, Inv, UnusedFrom, Mirrors, Clears, SetAll, SetLevels, OwnClear, DiffSide, Resolve, Emptied, ByPrice, Prices, BestFirst, PhantomAt;
    var db, da := DiffSide(prev.bids, curr.bids, true), DiffSide(prev.asks, curr.asks, false);
    var gb, ga := Resolve(h.bids.ref, db.removed), Resolve(h.asks.ref, da.removed);
    SideQuantities(Buy, h.bids, prev.bids, curr.bids, true);
    SideQuantities(Sell, h.asks, prev.asks, curr.asks, false);
    EmptiedIs(gb);
    EmptiedIs(ga);
    SameMirror(s, s, Buy, ByPrice(prev.bids), h.bids.qty);
    SameMirror(s, s, Sell, ByPrice(prev.asks), h.asks.qty);
    var mb, ma := SetAll(h.bids.qty, Emptied(gb)), SetAll(h.asks.qty, Emptied(ga));
    var n1, n2 := first + |gb|, first + |gb| + |ga|;
    RemovalsClear(s, Buy, gb);
    FollowSide(e, s, s, Buy, curr, Emptied(gb), first, priority, h.bids.qty, h.asks.qty);
    var s1 := SetLevels(e, s, Buy, Emptied(gb), first, priority);
    RemovalsClear(s1, Sell, ga);
    FollowSide(e, s, s1, Sell, curr, Emptied(ga), n1, priority, h.asks.qty, mb);
    var s2 := SetLevels(e, s1, Sell, Emptied(ga), n1, priority);
    LevelsFit(s2, Buy, curr, ma, db.changed);
    FollowSide(e, s, s2, Buy, curr, db.changed, n2, priority, mb, ma);
    var s3, eb := SetLevels(e, s2, Buy, db.changed, n2, priority), SetAll(mb, db.changed);
    BidsAreCurrent(curr, eb);
    LevelsFit(s3, Sell, curr, eb, da.changed);
    FollowSide(e, s, s3, Sell, curr, da.changed, n2 + |db.changed|, priority, ma, eb);
    var t := SetLevels(e, s3, Sell, da.changed, n2 + |db.changed|, priority);
    SameMirror(t, t, Buy, eb, ByPrice(curr.bids));
    SameMirror(t, t, Sell, SetAll(ma, da.changed), ByPrice(curr.asks));
  }

  lemma BidsAreCurrent(curr: Sides, qty: map<Price, nat>)
    requires Published(curr) && forall p: Price :: At(qty, p) == At(ByPrice(curr.bids), p)
    ensures forall p :: p in qty && qty[p] > 0 ==> p in Prices(curr.bids)
  {
    ByPriceOf(Buy, curr.bids);
    forall p | p in qty && qty[p] > 0 ensures p in Prices(curr.bids) {
      assert At(qty, p) > 0;
    }
  }

  // ----- a level that crosses

  lemma CrossingTrades(e: Engine, s: State, side: Side, price: Price, qty: nat)
    requires e.Valid() && Inv(s, {}) && qty > 0 && !FitsBeside(s, side, price)
    ensures MatchFeed(e, s, side, price, qty, 0).remaining < qty
  {
    hide PhantomAt, IndexOk, LookupsOk, Uncrossed, RestsAsRecorded, Sorted, Distinct;
    var t := FeedTerms(side, price);
    var q := s.On(t.side);
    var id :| id in View(q) && IsPriceBetterOrEqual(t.side, View(q)[id].price, price);
    assert WellFormed(t.side, q);
    ViewMember(q);
    assert View(q)[id] in q;
    var i :| 0 <= i < |q| && q[i] == View(q)[id];
    assert Crosses(t.side, q[i].price, price);
    if !Crosses(t.side, q[0].price, price) {
      PreChecks.WorseBehind(t, q, i);
    }
    assert q[0].qty > 0 by {
      PositiveQty(t.side, q);
    }
    Requests.NotTurnedBack(e, t, q, qty);
    PreChecks.PlanRemaining(e, t, q, qty);
    assert PreChecks.Available(t, q) >= q[0].qty;
  }

  /** A level shows its whole quantity exactly when it exists, or is of nothing, or crosses nothing. */
  lemma SetLevelShowsIff(e: Engine, s: State, side: Side, l: Level, id: nat, priority: nat)
    requires e.Valid() && Inv(s, {}) && l.price != NULL_PRICE && UnusedFrom(s, id)
    ensures var t := SetLevel(e, s, side, l, id, priority);
            PhantomAt(t.On(side), l.price, t.orders) == l.qty
            <==> HasLevel(s, side, l.price) || l.qty == 0 || FitsBeside(s, side, l.price)
  {
    hide Inv, HasLevel, UnusedFrom, FitsBeside, PhantomAt, SetLevel, OnlyPhantoms;
    if HasLevel(s, side, l.price) {
      OldLevelSets(e, s, side, l, id, priority);
    } else if l.qty == 0 || FitsBeside(s, side, l.price) {
      SetLevelExact(e, s, side, l, id, priority);
    } else {
      CrossingTrades(e, s, side, l.price, l.qty);
      ShownIsRemaining(e, s, side, l, id, priority);
    }
  }

  lemma ShownIsRemaining(e: Engine, s: State, side: Side, l: Level, id: nat, priority: nat)
    requires e.Valid() && Inv(s, {}) && l.price != NULL_PRICE && UnusedFrom(s, id) && !HasLevel(s, side, l.price)
    ensures var t := SetLevel(e, s, side, l, id, priority);
            PhantomAt(t.On(side), l.price, t.orders) == MatchFeed(e, s, side, l.price, l.qty, 0).remaining
  {
    hide View, Sorted, AllReal, PhantomAt, LookupsOk, RestsAsRecorded, IndexOk, Uncrossed, FitsBeside, MatchFeed, Insert, ActAll, ActionsOk, Filled;
    assert Unused(s, id);
    MatchFeedKeeps(e, s, side, l.price, l.qty, 0);
    var m := MatchFeed(e, s, side, l.price, l.qty, 0);
    assert Opposite(Opposite(side)) == side;
    var q := s.On(side);
    assert m.state.On(side) == q && m.state.orders <= s.orders;
    NonePhantomAt(q, l.price, m.state.orders);
    if m.remaining > 0 {
      var x := Resting(id, l.price, m.remaining, priority);
      assert id !in s.orders;
      AddShape(m.state, side, x, 0);
      InsertPhantom(side, q, x, l.price, m.state.orders);
      hide L3Add;
      assert L3Add(m.state, side, x, 0).On(side) == Insert(side, q, x);
    }
  }
}
