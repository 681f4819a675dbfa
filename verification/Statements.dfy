/** What each client has been told: the reports about one order, read as a statement of account. */
module Statements {
  import opened Types
  import opened Queue
  import opened Orders
  import opened BookState
  import opened BookInvariant
  import opened BookOps
  import opened MatchPlan
  import opened Matching
  import FillAccounting

  /**
   Where the reports about an order leave it: not heard of, open, or shut by a terminal report, with
   the quantity and value executed so far. Anything out of turn breaks it: a report before the
   acknowledgement or after the terminal one, a second acknowledgement, a wrong cumulative quantity.
   */
  datatype Standing = Silent | Open(qty: nat, value: nat) | Shut(qty: nat, value: nat) | Broken

  function Heard(st: Standing, r: Report): Standing {
    match r
    case Acked(_) => if st.Silent? then Open(0, 0) else Broken
    case Replaced(_, _, _, _) => if st.Open? then st else Broken
    case Cancelled(_) => if st.Open? then Shut(st.qty, st.value) else Broken
    case Executed(_, price, n, leaves, cum, _) =>
      if !st.Open? || cum != st.qty + n then Broken
      else if leaves == 0 then Shut(st.qty + n, st.value + price * n)
      else Open(st.qty + n, st.value + price * n)
  }

  function StandingOf(rs: seq<Report>, id: nat): Standing {
    if rs == [] then Silent
    else
      var k := |rs| - 1;
      if rs[k].id == id then Heard(StandingOf(rs[..k], id), rs[k]) else StandingOf(rs[..k], id)
  }

  // ----- what an unbroken standing means

  predicate Terminal(r: Report) {
    r.Cancelled? || (r.Executed? && r.leaves == 0)
  }

  function ExecutedQty(rs: seq<Report>, id: nat): nat {
    if rs == [] then 0
    else
      var k := |rs| - 1;
      ExecutedQty(rs[..k], id) + if rs[k].id == id && rs[k].Executed? then rs[k].qty else 0
  }

  function ExecutedValue(rs: seq<Report>, id: nat): nat {
    if rs == [] then 0
    else
      var k := |rs| - 1;
      ExecutedValue(rs[..k], id) + if rs[k].id == id && rs[k].Executed? then rs[k].price * rs[k].qty else 0
  }

  ghost predicate PricesWithin(rs: seq<Report>, id: nat, lo: Price, hi: Price) {
    forall i :: 0 <= i < |rs| && rs[i].id == id && rs[i].Executed? ==> lo <= rs[i].price <= hi
  }

  /** Nothing about the order follows its terminal report. */
  ghost predicate TerminalIsLast(rs: seq<Report>, id: nat) {
    forall i, j :: 0 <= i < j < |rs| && rs[i].id == id && Terminal(rs[i]) ==> rs[j].id != id
  }

  ghost predicate HasTerminal(rs: seq<Report>, id: nat) {
    exists i :: 0 <= i < |rs| && rs[i].id == id && Terminal(rs[i])
  }

  lemma {:induction false} StandingMeans(rs: seq<Report>, id: nat)
    requires !StandingOf(rs, id).Broken?
    ensures TerminalIsLast(rs, id)
    ensures HasTerminal(rs, id) <==> StandingOf(rs, id).Shut?
    ensures StandingOf(rs, id).Silent? <==> forall i :: 0 <= i < |rs| ==> rs[i].id != id
    ensures StandingOf(rs, id).Silent? ==> ExecutedQty(rs, id) == 0 && ExecutedValue(rs, id) == 0
    ensures !StandingOf(rs, id).Silent? ==>
              ExecutedQty(rs, id) == StandingOf(rs, id).qty && ExecutedValue(rs, id) == StandingOf(rs, id).value
  {
    if rs != [] {
      var k := |rs| - 1;
      var init, r := rs[..k], rs[k];
      assert rs == init + [r];
      StandingMeans(init, id);
      TerminalSnoc(init, r, id);
    }
  }

  lemma TerminalSnoc(rs: seq<Report>, r: Report, id: nat)
    ensures TerminalIsLast(rs + [r], id) <==> TerminalIsLast(rs, id) && (r.id == id ==> !HasTerminal(rs, id))
    ensures HasTerminal(rs + [r], id) <==> HasTerminal(rs, id) || (r.id == id && Terminal(r))
  {
    var all := rs + [r];
    assert all[|rs|] == r && forall i :: 0 <= i < |rs| ==> all[i] == rs[i];
    if HasTerminal(rs, id) {
      var i :| 0 <= i < |rs| && rs[i].id == id && Terminal(rs[i]);
      assert all[i].id == id && Terminal(all[i]);
    }
    if TerminalIsLast(all, id) {
      forall i, j | 0 <= i < j < |rs| && rs[i].id == id && Terminal(rs[i]) ensures rs[j].id != id {
        assert all[i].id == id && Terminal(all[i]) && all[j] == rs[j];
      }
    }
  }

  lemma {:induction false} ValueBetween(rs: seq<Report>, id: nat, lo: Price, hi: Price)
    requires PricesWithin(rs, id, lo, hi)
    ensures lo * ExecutedQty(rs, id) <= ExecutedValue(rs, id) <= hi * ExecutedQty(rs, id)
  {
    if rs != [] {
      var k := |rs| - 1;
      var init, r := rs[..k], rs[k];
      ValueBetween(init, id, lo, hi);
      if r.id == id && r.Executed? {
        FillAccounting.Scale(r.price, lo, hi, r.qty);
        FillAccounting.Distribute(lo, ExecutedQty(init, id), r.qty);
        FillAccounting.Distribute(hi, ExecutedQty(init, id), r.qty);
      }
    }
  }

  // ----- records and reports agree

  predicate AverageOk(o: Order) {
    o.cum > 0 ==> o.avg == o.cumValue / o.cum
  }

  /** A live record and what was reported of it. */
  predicate RecordOk(o: Order, st: Standing) {
    st == Open(o.cum, o.cumValue) && AverageOk(o)
  }

  /**
   Every live order not being worked on agrees with its reports and has the place it was given; an
   order that is not live was never heard of, or has had its terminal report.
   */
  ghost predicate Told(s: State, ex: set<nat>, places: map<nat, nat>) {
    && (forall id :: id in s.pool && id !in ex ==>
          RecordOk(s.pool[id], StandingOf(s.reports, id)) && id in places && s.pool[id].priority == places[id])
    && (forall id :: id !in s.pool ==> StandingOf(s.reports, id).Silent? || StandingOf(s.reports, id).Shut?)
  }

  /** An aggressor being matched: open while it has quantity left, shut when it has none. */
  ghost predicate Working(s: State, agg: nat) {
    && agg in s.pool && AverageOk(s.pool[agg])
    && var o := s.pool[agg];
       StandingOf(s.reports, agg) == if o.leaves == 0 then Shut(o.cum, o.cumValue) else Open(o.cum, o.cumValue)
  }

  lemma Hears(rs: seq<Report>, r: Report, id: nat)
    ensures StandingOf(rs + [r], id) == if r.id == id then Heard(StandingOf(rs, id), r) else StandingOf(rs, id)
  {
    assert (rs + [r])[..|rs|] == rs;
  }

  /** One report, about an order whose record changes or goes with it. */
  lemma TellsOne(s: State, t: State, r: Report, ex: set<nat>, places: map<nat, nat>)
    requires Told(s, ex, places) && t.reports == s.reports + [r]
    requires forall j :: j != r.id ==> (j in t.pool <==> j in s.pool) && (j in t.pool ==> t.pool[j] == s.pool[j])
    requires var st := Heard(StandingOf(s.reports, r.id), r);
             if r.id !in t.pool then st.Shut?
             else r.id in ex || (RecordOk(t.pool[r.id], st) && r.id in places && t.pool[r.id].priority == places[r.id])
    ensures Told(t, ex, places)
    ensures forall j :: j != r.id ==> StandingOf(t.reports, j) == StandingOf(s.reports, j)
    ensures StandingOf(t.reports, r.id) == Heard(StandingOf(s.reports, r.id), r)
  {
    hide StandingOf, Heard, RecordOk;
    forall j ensures StandingOf(t.reports, j) == if r.id == j then Heard(StandingOf(s.reports, j), r) else StandingOf(s.reports, j) {
      Hears(s.reports, r, j);
    }
  }

  lemma FillPassiveTold(s: State, ex: set<nat>, side: Side, id: nat, n: nat, seqNum: nat, places: map<nat, nat>)
    requires Inv(s, ex) && CanFillPassive(s, side, id, n) && id !in ex && !s.Refuses(seqNum) && Told(s, ex, places)
    ensures var t := FillPassive(s, side, id, n, seqNum);
            Told(t, ex, places) && forall j :: j in ex ==> StandingOf(t.reports, j) == StandingOf(s.reports, j)
  {
    hide View, Distinct, Sorted, AllReal, PhantomAt, IndexOk, LookupsOk, Uncrossed, Resized, Resize, Told, StandingOf;
    var t, left := FillPassive(s, side, id, n, seqNum), View(s.On(side))[id].qty - n;
    if id in s.orders {
      OwnSide(s, ex, side, id);
      var o := ExecuteOrder(s.pool[id], s.pool[id].price, n);
      if left == 0 {
        FillOwnFully(s, side, id, n, seqNum);
      } else {
        FillOwnPartly(s, side, id, n, seqNum);
      }
      hide FillPassive, RestsAsRecorded, Inv;
      PassiveHeard(s, ex, id, n, places);
      TellsOne(s, t, Executed(id, o.price, n, o.leaves, o.cum, false), ex, places);
    } else {
      ResizeShape(s, side, id, left, seqNum);
      hide L3Resize;
      SameTold(s, t, ex, places);
    }
  }

  lemma PassiveHeard(s: State, ex: set<nat>, id: nat, n: nat, places: map<nat, nat>)
    requires Told(s, ex, places) && id in s.pool && id !in ex && 0 < n <= s.pool[id].leaves
    ensures var o := ExecuteOrder(s.pool[id], s.pool[id].price, n);
            var st := Heard(StandingOf(s.reports, id), Executed(id, o.price, n, o.leaves, o.cum, false));
            && id in places && o.priority == places[id]
            && if o.leaves == 0 then st.Shut? else RecordOk(o, st)
  {
    hide StandingOf;
  }

  lemma SameTold(s: State, t: State, ex: set<nat>, places: map<nat, nat>)
    requires Told(s, ex, places) && t.pool == s.pool && t.reports == s.reports
    ensures Told(t, ex, places)
  {
    hide StandingOf;
  }

  lemma CancelOwnTold(s: State, ex: set<nat>, id: nat, places: map<nat, nat>)
    requires Inv(s, ex) && id in s.orders && id !in ex && Told(s, ex, places)
    ensures id in s.pool && id in View(s.On(s.pool[id].side))
    ensures var t := CancelOwn(s, id);
            Told(t, ex, places) && forall j :: j in ex ==> StandingOf(t.reports, j) == StandingOf(s.reports, j)
  {
    hide View, Distinct, Sorted, PhantomAt, IndexOk, Uncrossed, CancelOwn, Resized;
    assert RestsAsRecorded(s, id);
    assert s.pool[id].quantity != 0;
    CancelOwnShape(s, id);
    assert RecordOk(s.pool[id], StandingOf(s.reports, id));
    hide Told, StandingOf, LookupsOk, RestsAsRecorded, Inv;
    TellsOne(s, CancelOwn(s, id), Cancelled(id), ex, places);
  }

  lemma AggressorTold(s: State, agg: nat, price: Price, n: nat, places: map<nat, nat>)
    requires Told(s, {agg}, places) && Working(s, agg) && 0 < n <= s.pool[agg].leaves
    ensures var t := AggressorFill(s, agg, price, n);
            Told(t, {agg}, places) && Working(t, agg)
  {
    var o := ExecuteOrder(s.pool[agg], price, n);
    hide Told, StandingOf;
    TellsOne(s, AggressorFill(s, agg, price, n), Executed(agg, price, n, o.leaves, o.cum, true), {agg}, places);
  }

  // ----- a whole match

  ghost predicate InHandOk(s: State, agg: Option<nat>) {
    agg.Some? ==> Working(s, agg.value)
  }

  lemma ActionTold(s: State, side: Side, agg: Option<nat>, a: Action, seqNum: nat, own: set<nat>, places: map<nat, nat>)
    requires Inv(s, InHand(agg)) && Opposing(s, side, agg) && OwnersAs(s, side, own)
    requires ActionOk(s.On(side), a) && (a.Cancel? ==> a.id in own && agg.Some?)
    requires agg.Some? ==> FillOf(a) <= s.pool[agg.value].leaves && seqNum == 0
    requires !s.Refuses(seqNum) && Told(s, InHand(agg), places) && InHandOk(s, agg)
    ensures var t := Apply(s, side, agg, a, seqNum);
            Told(t, InHand(agg), places) && InHandOk(t, agg)
  {
    hide View, Inv, Resize, FillPassive, CancelOwn, Told, StandingOf, Shrinks;
    ActionReady(s, side, agg, a, own);
    ActionStep(s, side, agg, a, seqNum, own);
    if a.Cancel? {
      CancelOwnTold(s, InHand(agg), a.id, places);
      CancelOwnShrinks(s, InHand(agg), side, a.id, agg);
    } else if agg.None? {
      FillPassiveTold(s, {}, side, a.id, a.qty, seqNum, places);
    } else {
      ClientFillTold(s, side, agg.value, a, places);
    }
  }

  lemma ClientFillTold(s: State, side: Side, agg: nat, a: Action, places: map<nat, nat>)
    requires Inv(s, {agg}) && Opposing(s, side, Some(agg)) && Ready(s, side, Some(agg), a) && a.Fill?
    requires Told(s, {agg}, places) && Working(s, agg)
    ensures var t := Apply(s, side, Some(agg), a, 0);
            Told(t, {agg}, places) && Working(t, agg)
  {
    hide View, Distinct, Sorted, PhantomAt, IndexOk, Uncrossed, QueuesOk, LookupsOk, FillPassive, RestsAsRecorded, Told, StandingOf;
    var u := AggressorFill(s, agg, a.price, a.qty);
    AggressorFillKeeps(s, side, agg, a.price, a.qty);
    AggressorTold(s, agg, a.price, a.qty, places);
    hide AggressorFill, Inv, Shrinks;
    assert u.On(side) == s.On(side);
    FillPassiveTold(u, {agg}, side, a.id, a.qty, 0, places);
    FillPassiveShrinks(u, {agg}, side, a.id, a.qty, Some(agg), 0);
  }

  lemma {:induction false} ApplyAllTold(s: State, side: Side, agg: Option<nat>, acts: seq<Action>, seqNum: nat,
                                        own: set<nat>, places: map<nat, nat>)
    requires Inv(s, InHand(agg)) && Opposing(s, side, agg) && OwnersAs(s, side, own) && !s.Refuses(seqNum)
    requires ActionsOk(s.On(side), acts) && CancelsOwn(acts, own)
    requires agg.Some? ==> Filled(acts) <= s.pool[agg.value].leaves && seqNum == 0
    requires agg.None? ==> forall i :: 0 <= i < |acts| ==> acts[i].Fill?
    requires Told(s, InHand(agg), places) && InHandOk(s, agg)
    ensures var t := ApplyAll(s, side, agg, acts, seqNum);
            Told(t, InHand(agg), places) && InHandOk(t, agg)
    decreases |acts|
  {
    hide View, Inv, Shrinks, Apply, Ready, Act, ActionOk, Told, Working;
    if acts != [] {
      ActionStep(s, side, agg, acts[0], seqNum, own);
      ActionTold(s, side, agg, acts[0], seqNum, own, places);
      ApplyAllTold(Apply(s, side, agg, acts[0], seqNum), side, agg, acts[1..], seqNum, own, places);
    }
  }
}
