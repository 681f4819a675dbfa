/** A whole match as a state transition: the plan's actions applied one by one. */
module Matching {
  import opened Types
  import opened Queue
  import opened Orders
  import opened BookState
  import opened BookInvariant
  import opened BookOps
  import opened MatchPlan

  // ----- one action

  ghost function AggressorFill(s: State, agg: nat, price: Price, n: nat): State
    requires agg in s.pool && 0 < n <= s.pool[agg].leaves
  {
    var o := ExecuteOrder(s.pool[agg], price, n);
    s.(pool := s.pool[agg := o]).Say(Executed(agg, price, n, o.leaves, o.cum, true))
  }

  /** Can the book take this action now? For a client aggressor, only if it has the quantity. */
  ghost predicate Ready(s: State, side: Side, agg: Option<nat>, a: Action) {
    && a.id in View(s.On(side))
    && (a.Fill? ==>
          && CanFillPassive(s, side, a.id, a.qty)
          && (agg.Some? ==> agg.value in s.pool && a.qty <= s.pool[agg.value].leaves && a.id != agg.value))
    && (a.Cancel? ==> a.id in s.orders && a.id in s.pool && s.pool[a.id].side == side)
  }

  ghost function Apply(s: State, side: Side, agg: Option<nat>, a: Action, seqNum: nat): State {
    if !Ready(s, side, agg, a) then s
    else if a.Cancel? then CancelOwn(s, a.id)
    else if agg.None? then FillPassive(s, side, a.id, a.qty, seqNum)
    else FillPassive(AggressorFill(s, agg.value, a.price, a.qty), side, a.id, a.qty, seqNum)
  }

  ghost function ApplyAll(s: State, side: Side, agg: Option<nat>, acts: seq<Action>, seqNum: nat): State
    decreases |acts|
  {
    if acts == [] then s else ApplyAll(Apply(s, side, agg, acts[0], seqNum), side, agg, acts[1..], seqNum)
  }

  // ----- what an action leaves alone

  function InHand(agg: Option<nat>): set<nat> {
    if agg.Some? then {agg.value} else {}
  }

  /** From `s` to `t` only the given side's queue shrank, and orders only left. */
  ghost predicate Shrinks(s: State, t: State, side: Side, agg: Option<nat>) {
    && t.On(Opposite(side)) == s.On(Opposite(side))
    && t.orders <= s.orders && (agg.Some? && agg.value in s.orders ==> agg.value in t.orders)
    && t.byClient.Keys <= s.byClient.Keys && t.byOrderId.Keys <= s.byOrderId.Keys
    && (forall j :: j in View(t.On(side)) ==> j in View(s.On(side)) && (j in s.orders <==> j in t.orders))
    && (forall j :: j in t.pool ==> j in s.pool)
    && (forall j :: j in t.pool ==> t.pool[j].clientId == s.pool[j].clientId && t.pool[j].side == s.pool[j].side)
  }

  lemma ShrinksTrans(s: State, t: State, u: State, side: Side, agg: Option<nat>)
    requires Shrinks(s, t, side, agg) && Shrinks(t, u, side, agg)
    ensures Shrinks(s, u, side, agg)
  {
    hide View;
  }

  /** Shrinking one resting order, with at most that order leaving us. */
  lemma ResizeShrinks(s: State, t: State, side: Side, id: nat, left: nat, agg: Option<nat>)
    requires QueuesOk(s) && Uncrossed(s) && id in View(s.On(side)) && agg != Some(id)
    requires var r := Resized(s, side, id, left); t.bids == r.bids && t.asks == r.asks
    requires t.orders == s.orders || (left == 0 && t.orders == s.orders - {id})
    requires t.byClient.Keys <= s.byClient.Keys && t.byOrderId.Keys <= s.byOrderId.Keys
    requires forall j :: j in t.pool ==>
               j in s.pool && t.pool[j].clientId == s.pool[j].clientId && t.pool[j].side == s.pool[j].side
    ensures t.On(side) == Resize(s.On(side), id, left) && Shrinks(s, t, side, agg)
  {
    hide View, Distinct, Sorted, AllReal;
    ResizedQueues(s, side, id, left);
    assert t.On(side) == Resized(s, side, id, left).On(side);
    assert t.On(Opposite(side)) == Resized(s, side, id, left).On(Opposite(side));
    hide QueuesOk, Uncrossed;
  }

  /** What a fill of an own order leaves of the book, the maps and the other records. */
  lemma FillOwnLeaves(s: State, ex: set<nat>, side: Side, id: nat, n: nat, seqNum: nat)
    requires Inv(s, ex) && CanFillPassive(s, side, id, n) && id in s.orders && id !in ex && !s.Refuses(seqNum)
    ensures var t, left := FillPassive(s, side, id, n, seqNum), View(s.On(side))[id].qty - n;
            var r := Resized(s, side, id, left);
            && t.bids == r.bids && t.asks == r.asks
            && (t.orders == s.orders || (left == 0 && t.orders == s.orders - {id}))
            && t.byClient.Keys <= s.byClient.Keys && t.byOrderId.Keys <= s.byOrderId.Keys
            && (forall j :: j in t.pool ==>
                  j in s.pool && t.pool[j].clientId == s.pool[j].clientId && t.pool[j].side == s.pool[j].side)
            && (forall j :: j in ex && j in s.pool ==> j in t.pool && t.pool[j] == s.pool[j])
  {
    hide View, Distinct, Sorted, AllReal, PhantomAt, IndexOk, LookupsOk, Uncrossed, Resized, Resize, FillPassive;
    OwnSide(s, ex, side, id);
    if n == View(s.On(side))[id].qty {
      FillOwnFully(s, side, id, n, seqNum);
    } else {
      FillOwnPartly(s, side, id, n, seqNum);
    }
  }

  /** The resting side of an action: the queue changes as planned and the rest of the book stays. */
  lemma FillPassiveShrinks(s: State, ex: set<nat>, side: Side, id: nat, n: nat, agg: Option<nat>, seqNum: nat)
    requires Inv(s, ex) && CanFillPassive(s, side, id, n) && id !in ex && !s.Refuses(seqNum)
    requires InHand(agg) == ex
    ensures var t := FillPassive(s, side, id, n, seqNum);
            && t.On(side) == Resize(s.On(side), id, View(s.On(side))[id].qty - n)
            && Shrinks(s, t, side, agg)
            && (agg.Some? ==> agg.value in t.pool && t.pool[agg.value] == s.pool[agg.value])
  {
    hide View, Distinct, Sorted, AllReal, PhantomAt, IndexOk, LookupsOk, Uncrossed, RestsAsRecorded, Resized, Shrinks, Resize;
    var t, left := FillPassive(s, side, id, n, seqNum), View(s.On(side))[id].qty - n;
    assert agg.Some? ==> agg.value in ex;
    if id in s.orders {
      FillOwnLeaves(s, ex, side, id, n, seqNum);
    } else {
      ResizeShape(s, side, id, left, seqNum);
    }
    hide FillPassive, L3Resize, CanFillPassive;
    ResizeShrinks(s, t, side, id, left, agg);
  }

  lemma CancelOwnShrinks(s: State, ex: set<nat>, side: Side, id: nat, agg: Option<nat>)
    requires Inv(s, ex) && id in s.orders && id !in ex && id in View(s.On(side)) && InHand(agg) == ex
    ensures id in s.pool && s.pool[id].side == side
    ensures var t := CancelOwn(s, id);
            && t.On(side) == Resize(s.On(side), id, 0)
            && Shrinks(s, t, side, agg)
            && (agg.Some? ==> agg.value in t.pool && t.pool[agg.value] == s.pool[agg.value])
  {
    hide View, Distinct, Sorted, PhantomAt, IndexOk, LookupsOk, Uncrossed, CancelOwn, Resized, Shrinks, Resize;
    OwnSide(s, ex, side, id);
    CancelOwnShape(s, id);
    ResizeShrinks(s, CancelOwn(s, id), side, id, 0, agg);
  }

  // ----- one action keeps everything

  /** An order in hand on the other side of the book from the orders it is matched with. */
  ghost predicate Opposing(s: State, side: Side, agg: Option<nat>) {
    agg.Some? ==>
      && agg.value in s.pool && s.pool[agg.value].side == Opposite(side) && agg.value !in View(s.On(side))
      && s.pool[agg.value].cum + s.pool[agg.value].leaves == s.pool[agg.value].quantity
  }

  /** The aggressor's record after fills totalling `n`: less to do, same identity. */
  ghost predicate FilledBy(before: Order, after: Order, n: nat) {
    && after.leaves + n == before.leaves && after.cum == before.cum + n && after.quantity == before.quantity
    && after.side == before.side && after.price == before.price && after.tif == before.tif
    && after.clientId == before.clientId && after.status == before.status && after.priority == before.priority
    && after.clientOrderId == before.clientOrderId && after.orderId == before.orderId
  }

  function FillOf(a: Action): nat {
    if a.Fill? then a.qty else 0
  }

  ghost predicate StepOk(s: State, t: State, side: Side, agg: Option<nat>, n: nat) {
    && Inv(t, InHand(agg)) && Shrinks(s, t, side, agg) && Opposing(t, side, agg)
    && (agg.Some? ==> agg.value in s.pool && agg.value in t.pool && FilledBy(s.pool[agg.value], t.pool[agg.value], n))
  }

  lemma AggressorFillKeeps(s: State, side: Side, agg: nat, price: Price, n: nat)
    requires Inv(s, {agg}) && Opposing(s, side, Some(agg)) && 0 < n <= s.pool[agg].leaves
    ensures var t := AggressorFill(s, agg, price, n);
            && Inv(t, {agg}) && t.bids == s.bids && t.asks == s.asks && t.orders == s.orders && t.lastSeq == s.lastSeq
            && t.pool == s.pool[agg := t.pool[agg]] && FilledBy(s.pool[agg], t.pool[agg], n)
            && t.byClient == s.byClient && t.byOrderId == s.byOrderId && t.md == s.md
  {
    hide View, Distinct, Sorted, PhantomAt, IndexOk, Uncrossed, QueuesOk, LookupsOk;
    var o := ExecuteOrder(s.pool[agg], price, n);
    RecordKeeps(s, {agg}, agg, o);
    ReportsKeep(s.(pool := s.pool[agg := o]), AggressorFill(s, agg, price, n), {agg});
  }

  lemma ClientFillStep(s: State, side: Side, agg: nat, a: Action)
    requires Inv(s, {agg}) && Opposing(s, side, Some(agg)) && Ready(s, side, Some(agg), a) && a.Fill?
    ensures var t := Apply(s, side, Some(agg), a, 0);
            && StepOk(s, t, side, Some(agg), a.qty)
            && t.On(side) == Resize(s.On(side), a.id, View(s.On(side))[a.id].qty - a.qty)
  {
    hide View, Distinct, Sorted, PhantomAt, IndexOk, Uncrossed, QueuesOk, LookupsOk, FillPassive, RestsAsRecorded, Resize;
    var u := AggressorFill(s, agg, a.price, a.qty);
    AggressorFillKeeps(s, side, agg, a.price, a.qty);
    hide AggressorFill, Inv;
    assert u.On(side) == s.On(side) && u.On(Opposite(side)) == s.On(Opposite(side));
    FillPassiveKeeps(u, {agg}, side, a.id, a.qty, 0);
    FillPassiveShrinks(u, {agg}, side, a.id, a.qty, Some(agg), 0);
    hide CanFillPassive;
    AfterAggressor(s, u, FillPassive(u, side, a.id, a.qty, 0), side, agg, a.qty);
  }

  /** What the aggressor's own record gained, and the resting side's loss after it, make one step. */
  lemma AfterAggressor(s: State, u: State, t: State, side: Side, agg: nat, n: nat)
    requires Opposing(s, side, Some(agg)) && agg in u.pool && u.pool == s.pool[agg := u.pool[agg]]
    requires FilledBy(s.pool[agg], u.pool[agg], n) && u.orders == s.orders
    requires u.byClient == s.byClient && u.byOrderId == s.byOrderId
    requires u.On(side) == s.On(side) && u.On(Opposite(side)) == s.On(Opposite(side))
    requires Inv(t, {agg}) && Shrinks(u, t, side, Some(agg)) && agg in t.pool && t.pool[agg] == u.pool[agg]
    ensures StepOk(s, t, side, Some(agg), n)
  {
    hide View, Inv;
  }

  lemma FillPassiveSeq(s: State, side: Side, id: nat, n: nat, seqNum: nat)
    requires CanFillPassive(s, side, id, n) && !s.Refuses(seqNum)
    ensures FillPassive(s, side, id, n, seqNum).lastSeq == if seqNum > 0 then seqNum else s.lastSeq
  {
    hide View, Resize;
    var left := View(s.On(side))[id].qty - n;
    if id in s.orders {
      var s1 := s.(pool := s.pool[id := ExecuteOrder(s.pool[id], s.pool[id].price, n)]);
      assert s1.On(side) == s.On(side);
      ResizeSeq(s1, side, id, left, seqNum);
    } else {
      ResizeSeq(s, side, id, left, seqNum);
    }
    hide L3Resize;
  }

  lemma ResizeSeq(s: State, side: Side, id: nat, n: nat, seqNum: nat)
    requires id in View(s.On(side)) && !s.Refuses(seqNum)
    ensures L3Resize(s, side, id, n, seqNum).lastSeq == if seqNum > 0 then seqNum else s.lastSeq
  {
    hide View, Resize;
  }

  lemma FeedFillStep(s: State, side: Side, a: Action, seqNum: nat)
    requires Inv(s, {}) && Ready(s, side, None, a) && a.Fill? && !s.Refuses(seqNum)
    ensures var t := Apply(s, side, None, a, seqNum);
            && StepOk(s, t, side, None, a.qty) && !t.Refuses(seqNum)
            && t.On(side) == Resize(s.On(side), a.id, View(s.On(side))[a.id].qty - a.qty)
  {
    FillPassiveSeq(s, side, a.id, a.qty, seqNum);
    hide View, Inv, FillPassive, Shrinks, Resize;
    FillPassiveKeeps(s, {}, side, a.id, a.qty, seqNum);
    FillPassiveShrinks(s, {}, side, a.id, a.qty, None, seqNum);
  }

  lemma CancelStep(s: State, side: Side, agg: Option<nat>, a: Action)
    requires Inv(s, InHand(agg)) && Opposing(s, side, agg) && Ready(s, side, agg, a) && a.Cancel?
    ensures var t := Apply(s, side, agg, a, 0);
            && StepOk(s, t, side, agg, 0)
            && t.On(side) == Resize(s.On(side), a.id, 0)
  {
    hide View, Inv, CancelOwn, Resize;
    CancelOwnKeeps(s, InHand(agg), a.id);
    CancelOwnShrinks(s, InHand(agg), side, a.id, agg);
  }

  // ----- a whole plan

  /** The plan cancels only orders of ours. */
  ghost predicate CancelsOwn(acts: seq<Action>, own: set<nat>) {
    forall i :: 0 <= i < |acts| && acts[i].Cancel? ==> acts[i].id in own
  }

  /** The queue's owners are as they were when the plan was made. */
  ghost predicate OwnersAs(s: State, side: Side, own: set<nat>) {
    forall j :: j in View(s.On(side)) ==> (j in own <==> j in s.orders)
  }

  lemma ActionReady(s: State, side: Side, agg: Option<nat>, a: Action, own: set<nat>)
    requires Inv(s, InHand(agg)) && Opposing(s, side, agg) && OwnersAs(s, side, own)
    requires ActionOk(s.On(side), a) && (a.Cancel? ==> a.id in own)
    requires agg.Some? ==> FillOf(a) <= s.pool[agg.value].leaves
    ensures Ready(s, side, agg, a)
  {
    hide View, Distinct, Sorted, AllReal, PhantomAt, IndexOk, Uncrossed, LookupsOk;
    if a.id in s.orders {
      OwnSide(s, InHand(agg), side, a.id);
    }
  }

  /** One planned action, whichever kind it is. */
  lemma ActionStep(s: State, side: Side, agg: Option<nat>, a: Action, seqNum: nat, own: set<nat>)
    requires Inv(s, InHand(agg)) && Opposing(s, side, agg) && OwnersAs(s, side, own)
    requires ActionOk(s.On(side), a) && (a.Cancel? ==> a.id in own && agg.Some?)
    requires agg.Some? ==> FillOf(a) <= s.pool[agg.value].leaves && seqNum == 0
    requires !s.Refuses(seqNum)
    ensures var t := Apply(s, side, agg, a, seqNum);
            && StepOk(s, t, side, agg, FillOf(a)) && !t.Refuses(seqNum) && OwnersAs(t, side, own)
            && t.On(side) == Act(s.On(side), a)
  {
    hide View, Inv, Resize, FillPassive, CancelOwn;
    ActionReady(s, side, agg, a, own);
    if a.Cancel? {
      CancelStep(s, side, agg, a);
    } else if agg.None? {
      FeedFillStep(s, side, a, seqNum);
    } else {
      ClientFillStep(s, side, agg.value, a);
    }
    hide Apply;
  }

  /** Applying a sound plan keeps the invariant and does to the queue exactly what was planned. */
  lemma {:induction false} ApplyAllKeeps(s: State, side: Side, agg: Option<nat>, acts: seq<Action>, seqNum: nat, own: set<nat>)
    requires Inv(s, InHand(agg)) && Opposing(s, side, agg) && OwnersAs(s, side, own) && !s.Refuses(seqNum)
    requires ActionsOk(s.On(side), acts) && CancelsOwn(acts, own)
    requires agg.Some? ==> Filled(acts) <= s.pool[agg.value].leaves && seqNum == 0
    requires agg.None? ==> forall i :: 0 <= i < |acts| ==> acts[i].Fill?
    ensures var t := ApplyAll(s, side, agg, acts, seqNum);
            && StepOk(s, t, side, agg, Filled(acts))
            && t.On(side) == ActAll(s.On(side), acts)
    decreases |acts|
  {
    hide View, Inv, Shrinks, Apply, Ready, Act, ActionOk;
    if acts == [] {
      NoStep(s, side, agg);
    } else {
      var a, rest := acts[0], acts[1..];
      ActionStep(s, side, agg, a, seqNum, own);
      var t := Apply(s, side, agg, a, seqNum);
      ApplyAllKeeps(t, side, agg, rest, seqNum, own);
      StepTrans(s, t, ApplyAll(t, side, agg, rest, seqNum), side, agg, FillOf(a), Filled(rest));
    }
  }

  lemma NoStep(s: State, side: Side, agg: Option<nat>)
    requires Inv(s, InHand(agg)) && Opposing(s, side, agg)
    ensures StepOk(s, s, side, agg, 0)
  {
    hide View, Inv;
  }

  lemma StepTrans(s: State, t: State, u: State, side: Side, agg: Option<nat>, m: nat, n: nat)
    requires StepOk(s, t, side, agg, m) && StepOk(t, u, side, agg, n)
    ensures StepOk(s, u, side, agg, m + n)
  {
    ShrinksTrans(s, t, u, side, agg);
    hide View, Inv, Shrinks;
  }
}
