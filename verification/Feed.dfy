/** Market data applied to the book: level updates, trade prints, mirrored orders and snapshots. */
module Feed {
  import opened Types
  import opened Queue
  import opened BookState
  import opened BookInvariant
  import opened MatchPlan
  import opened Matching
  import opened Reconcile

  // ----- reconciling a level

  ghost function ApplyReductions(s: State, side: Side, reds: seq<Reduction>, seqNum: nat): State
    decreases |reds|
  {
    if reds == [] then s
    else if reds[0].id !in View(s.On(side)) then ApplyReductions(s, side, reds[1..], seqNum)
    else ApplyReductions(L3Resize(s, side, reds[0].id, reds[0].newQty, seqNum), side, reds[1..], seqNum)
  }

  lemma {:induction false} ApplyReductionsKeeps(s: State, side: Side, p: Price, reds: seq<Reduction>, seqNum: nat)
    requires Inv(s, {}) && ReductionsOk(s.On(side), p, s.orders, reds) && !s.Refuses(seqNum)
    ensures var t := ApplyReductions(s, side, reds, seqNum);
            && Inv(t, {}) && SameOwners(s, t) && t.reports == s.reports
            && t.On(side) == ResizeAll(s.On(side), reds) && t.On(Opposite(side)) == s.On(Opposite(side))
    decreases |reds|
  {
    hide View, Distinct, Sorted, AllReal, PhantomAt, IndexOk, Uncrossed, LookupsOk, RestsAsRecorded;
    if reds != [] {
      var id, n := reds[0].id, reds[0].newQty;
      ViewIds(s.On(side));
      assert id in View(s.On(side)) && id !in s.orders;
      ResizePhantomKeeps(s, {}, side, id, n, seqNum);
      ResizeShape(s, side, id, n, seqNum);
      ResizeSeq(s, side, id, n, seqNum);
      ReductionsTail(s.On(side), p, s.orders, reds);
      var t := L3Resize(s, side, id, n, seqNum);
      hide L3Resize, ReductionsOk, Inv;
      assert t.On(side) == Resize(s.On(side), id, n) && t.On(Opposite(side)) == s.On(Opposite(side));
      ApplyReductionsKeeps(t, side, p, reds[1..], seqNum);
    }
  }

  ghost predicate RestsAt(q: seq<Resting>, price: Price) {
    exists id :: id in View(q) && View(q)[id].price == price
  }

  ghost predicate HasLevel(s: State, side: Side, price: Price) {
    RestsAt(s.On(side), price)
  }

  function Offset(target: nat, unreflected: nat): nat {
    if target > unreflected then target - unreflected else 0
  }

  /** An existing level is brought to the reported quantity less the trades the report has not seen. */
  ghost function ReconcileLevel(s: State, side: Side, price: Price, target: nat, id: nat, priority: nat, seqNum: nat): State {
    var md := s.MdLevelQty(price);
    if target > md then L3Add(s, side, Resting(id, price, Min0(target - md), priority), seqNum)
    else if target < md then
      ApplyReductions(s, side, Reductions(s.On(side), price, s.orders, Min0(md - target)), seqNum)
    else s
  }

  function Min0(x: int): nat {
    if x < 0 then 0 else x
  }

  /** A level that exists is on the right side of the market, so it can grow without matching. */
  lemma LevelFits(s: State, side: Side, price: Price)
    requires Uncrossed(s) && HasLevel(s, side, price)
    ensures FitsBeside(s, side, price)
  {
    hide View;
    var id :| id in View(s.On(side)) && View(s.On(side))[id].price == price;
    forall j | j in View(s.On(Opposite(side)))
      ensures !IsPriceBetterOrEqual(Opposite(side), View(s.On(Opposite(side)))[j].price, price)
    {
      if side == Buy {
        assert View(s.bids)[id].price < View(s.asks)[j].price;
      } else {
        assert View(s.bids)[j].price < View(s.asks)[id].price;
      }
    }
  }

  lemma {:induction false} NonePhantomAt(q: seq<Resting>, p: Price, own: set<nat>)
    requires Distinct(q) && forall id :: id in View(q) ==> View(q)[id].price != p
    ensures PhantomAt(q, p, own) == 0
  {
    if q != [] {
      assert View(q)[q[0].id] == q[0];
      forall id | id in View(q[1..]) ensures View(q[1..])[id].price != p {
        assert id in View(q) && View(q)[id] == View(q[1..])[id];
      }
      NonePhantomAt(q[1..], p, own);
    }
  }

  lemma LevelIsNew(s: State, side: Side, p: Price)
    requires QueuesOk(s) && !HasLevel(s, side, p)
    ensures PhantomAt(s.On(side), p, s.orders) == 0
  {
    hide View, Sorted, PhantomAt;
    NonePhantomAt(s.On(side), p, s.orders);
  }

  /** In an uncrossed book the index, keyed by price alone, speaks for the side the level is on. */
  lemma IndexIsTheLevel(s: State, side: Side, price: Price)
    requires QueuesOk(s) && Uncrossed(s) && IndexOk(s) && HasLevel(s, side, price)
    ensures s.MdLevelQty(price) == PhantomAt(s.On(side), price, s.orders)
    ensures PhantomAt(s.On(Opposite(side)), price, s.orders) == 0
  {
    hide View, Distinct, Sorted, PhantomAt;
    LevelFits(s, side, price);
    NonePhantomAt(s.On(Opposite(side)), price, s.orders);
    assert s.MdLevelQty(price) == PhantomAt(s.bids, price, s.orders) + PhantomAt(s.asks, price, s.orders);
  }

  lemma PositiveQty(s: Side, q: seq<Resting>)
    requires WellFormed(s, q)
    ensures forall i :: 0 <= i < |q| ==> q[i].qty > 0 && q[i].price != NULL_PRICE
  {
    ViewMember(q);
    forall i | 0 <= i < |q| ensures q[i].qty > 0 && q[i].price != NULL_PRICE {
      assert q[i] in q;
    }
  }

  /** What reconciling promises about the level and about everything else. */
  ghost predicate Reconciled(s: State, t: State, side: Side, price: Price, target: nat, id: nat, priority: nat) {
    && Inv(t, {}) && SameOwners(s, t) && t.reports == s.reports
    && t.On(Opposite(side)) == s.On(Opposite(side))
    && OwnUntouched(s, t, side)
    && PhantomAt(t.On(side), price, t.orders) == target
    && t.MdLevelQty(price) == target
    && (forall p: Price :: p != price ==> PhantomAt(t.On(side), p, t.orders) == PhantomAt(s.On(side), p, s.orders))
    && (target <= PhantomAt(s.On(side), price, s.orders) ==> t.On(side) == Trimmed(s.On(side), price, s.orders, target))
    && (target > PhantomAt(s.On(side), price, s.orders) ==>
          t.On(side) == Insert(side, s.On(side), Resting(id, price, target - PhantomAt(s.On(side), price, s.orders), priority)))
  }

  lemma ReconcileGrows(s: State, side: Side, price: Price, target: nat, id: nat, priority: nat, seqNum: nat)
    requires Inv(s, {}) && HasLevel(s, side, price) && price != NULL_PRICE && Unused(s, id) && !s.Refuses(seqNum)
    requires target > PhantomAt(s.On(side), price, s.orders)
    ensures Reconciled(s, ReconcileLevel(s, side, price, target, id, priority, seqNum), side, price, target, id, priority)
  {
    hide View, Distinct, Sorted, AllReal, PhantomAt, LookupsOk, RestsAsRecorded, Trimmed, Insert, Reductions, FitsBeside;
    IndexIsTheLevel(s, side, price);
    LevelFits(s, side, price);
    var x := Resting(id, price, target - s.MdLevelQty(price), priority);
    var t := ReconcileLevel(s, side, price, target, id, priority, seqNum);
    assert t == L3Add(s, side, x, seqNum);
    AddPhantomKeeps(s, {}, side, x, seqNum);
    AddShape(s, side, x, seqNum);
    InsertedQueues(s, side, x);
    hide L3Add, ReconcileLevel, Inv, Uncrossed, QueuesOk;
    assert t.On(side) == Insert(side, s.On(side), x);
    forall p: Price
      ensures PhantomAt(t.On(side), p, t.orders) == PhantomAt(s.On(side), p, s.orders) + Phantom(x, p, s.orders)
    {
      InsertPhantom(side, s.On(side), x, p, s.orders);
    }
  }

  lemma ReconcileShrinks(s: State, side: Side, price: Price, target: nat, id: nat, priority: nat, seqNum: nat)
    requires Inv(s, {}) && HasLevel(s, side, price) && !s.Refuses(seqNum)
    requires target <= PhantomAt(s.On(side), price, s.orders)
    ensures Reconciled(s, ReconcileLevel(s, side, price, target, id, priority, seqNum), side, price, target, id, priority)
  {
    hide View, Distinct, Sorted, AllReal, PhantomAt, LookupsOk, RestsAsRecorded, Trimmed, Reductions, ResizeAll;
    hide ApplyReductions, HasLevel;
    var q, own := s.On(side), s.orders;
    var diff := PhantomAt(q, price, own) - target;
    IndexIsTheLevel(s, side, price);
    PositiveQty(side, q);
    var reds := Reductions(q, price, own, diff);
    ReductionsAreOk(q, price, own, diff);
    ReductionsTrim(q, price, own, diff);
    NoReductions(q, price, own);
    var t := ReconcileLevel(s, side, price, target, id, priority, seqNum);
    if diff > 0 {
      ApplyReductionsKeeps(s, side, price, reds, seqNum);
    }
    assert Inv(t, {}) && SameOwners(s, t) && t.On(side) == Trimmed(q, price, own, target);
    hide ReconcileLevel, Uncrossed;
    forall p: Price
      ensures PhantomAt(t.On(side), p, own) == if p == price then target else PhantomAt(q, p, own)
    {
      TrimmedPhantom(q, price, own, target, p);
    }
    TrimmedOwn(q, price, own, target);
    assert t.MdLevelQty(price) == PhantomAt(t.bids, price, own) + PhantomAt(t.asks, price, own);
  }

  /** Trimming never touches an own order. */
  lemma {:induction false} TrimmedOwn(q: seq<Resting>, p: Price, own: set<nat>, keep: nat)
    requires Distinct(q)
    ensures forall id :: id in own && id in View(q) ==>
              id in View(Trimmed(q, p, own, keep)) && View(Trimmed(q, p, own, keep))[id] == View(q)[id]
    ensures forall id :: id in View(Trimmed(q, p, own, keep)) ==> id in View(q)
  {
    if q != [] {
      var k := if IsPhantomAt(q[0], p, own) then Min(keep, q[0].qty) else 0;
      TrimmedOwn(q[1..], p, own, keep - k);
      var rest := Trimmed(q[1..], p, own, keep - k);
      if !IsPhantomAt(q[0], p, own) {
        ViewCons(q[0], rest);
      } else if k > 0 {
        ViewCons(q[0].(qty := k), rest);
      } else {
        assert [] + rest == rest;
      }
    }
  }

  /**
   Reconciling an existing level sets its phantom quantity exactly, takes every reduction from the
   back, and changes no own order and no other level.
   */
  lemma ReconcileExact(s: State, side: Side, price: Price, target: nat, id: nat, priority: nat, seqNum: nat)
    requires Inv(s, {}) && HasLevel(s, side, price) && price != NULL_PRICE && Unused(s, id) && !s.Refuses(seqNum)
    ensures Reconciled(s, ReconcileLevel(s, side, price, target, id, priority, seqNum), side, price, target, id, priority)
  {
    hide View, Inv, Reconciled, ReconcileLevel, HasLevel, PhantomAt;
    if target > PhantomAt(s.On(side), price, s.orders) {
      ReconcileGrows(s, side, price, target, id, priority, seqNum);
    } else {
      ReconcileShrinks(s, side, price, target, id, priority, seqNum);
    }
  }
}
