/** What every party to a match is told, fill by fill. */
module ReportLaws {
  import opened Types
  import opened Queue
  import opened Orders
  import opened BookState
  import opened BookInvariant
  import opened BookOps
  import opened MatchPlan
  import opened Matching
  import opened FeedMatching
  import opened Requests
  import opened RequestLaws
  import OrderFates
  import PreChecks

  // ----- fills, as reported and as traded

  datatype Deal = Deal(price: Price, qty: nat)

  /** The executions reported of an order, in order. */
  function Reported(rs: seq<Report>, id: nat): seq<Deal> {
    if rs == [] then []
    else (if rs[0].id == id && rs[0].Executed? then [Deal(rs[0].price, rs[0].qty)] else []) + Reported(rs[1..], id)
  }

  /** Every fill of a match, and those against one resting order. */
  function Traded(acts: seq<Action>): seq<Deal> {
    if acts == [] then [] else (if acts[0].Fill? then [Deal(acts[0].price, acts[0].qty)] else []) + Traded(acts[1..])
  }

  function TradedWith(acts: seq<Action>, id: nat): seq<Deal> {
    if acts == [] then []
    else (if acts[0].Fill? && acts[0].id == id then [Deal(acts[0].price, acts[0].qty)] else []) + TradedWith(acts[1..], id)
  }

  function Quantity(fs: seq<Deal>): nat {
    if fs == [] then 0 else fs[0].qty + Quantity(fs[1..])
  }

  /** Each execution reported of the order moves its quantity from `leaves` to `cum`, and says who took liquidity. */
  ghost predicate AddsUp(rs: seq<Report>, id: nat, cum: nat, leaves: nat, aggressor: bool) {
    rs == [] ||
    var r := rs[0];
    if r.id == id && r.Executed? then
      && r.qty <= leaves && r.cum == cum + r.qty && r.leaves == leaves - r.qty && r.aggressor == aggressor
      && AddsUp(rs[1..], id, r.cum, r.leaves, aggressor)
    else AddsUp(rs[1..], id, cum, leaves, aggressor)
  }

  /** The executions reported of the order are these, and they add up from here. */
  ghost predicate Hears(rs: seq<Report>, id: nat, deals: seq<Deal>, cum: nat, leaves: nat, aggressor: bool) {
    Reported(rs, id) == deals && AddsUp(rs, id, cum, leaves, aggressor)
  }

  ghost predicate Silent(rs: seq<Report>, id: nat) {
    forall i :: 0 <= i < |rs| ==> rs[i].id != id
  }

  lemma {:induction false} ReportedJoin(a: seq<Report>, b: seq<Report>, id: nat)
    ensures Reported(a + b, id) == Reported(a, id) + Reported(b, id)
  {
    if a == [] {
      assert a + b == b;
    } else {
      ReportedJoin(a[1..], b, id);
      assert (a + b)[1..] == a[1..] + b && (a + b)[0] == a[0];
      var head := if a[0].id == id && a[0].Executed? then [Deal(a[0].price, a[0].qty)] else [];
      assert Reported(a, id) == head + Reported(a[1..], id);
      assert Reported(a + b, id) == head + Reported(a[1..] + b, id);
      hide Reported;
      Regroup(head, Reported(a[1..], id), Reported(b, id));
    }
  }

  lemma {:induction false} AddsUpJoin(a: seq<Report>, b: seq<Report>, id: nat, cum: nat, leaves: nat, aggressor: bool)
    requires AddsUp(a, id, cum, leaves, aggressor)
    ensures Quantity(Reported(a, id)) <= leaves
    ensures var n := Quantity(Reported(a, id));
            AddsUp(b, id, cum + n, leaves - n, aggressor) ==> AddsUp(a + b, id, cum, leaves, aggressor)
  {
    if a == [] {
      assert a + b == b;
    } else {
      var r := a[0];
      var takes := r.id == id && r.Executed?;
      AddsUpJoin(a[1..], b, id, if takes then r.cum else cum, if takes then r.leaves else leaves, aggressor);
      assert (a + b)[1..] == a[1..] + b;
      var rest := Reported(a[1..], id);
      assert (takes ==> ([Deal(r.price, r.qty)] + rest)[1..] == rest) && [] + rest == rest;
    }
  }

  lemma {:induction false} SilentAddsUp(rs: seq<Report>, id: nat, cum: nat, leaves: nat, aggressor: bool)
    requires Silent(rs, id)
    ensures Reported(rs, id) == [] && AddsUp(rs, id, cum, leaves, aggressor)
  {
    if rs != [] {
      SilentAddsUp(rs[1..], id, cum, leaves, aggressor);
    }
  }

  lemma HearsBoth(a: seq<Report>, b: seq<Report>, id: nat, first: seq<Deal>, next: seq<Deal>, n: nat, cum: nat, leaves: nat, aggressor: bool)
    requires Hears(a, id, first, cum, leaves, aggressor) && Quantity(first) == n <= leaves
    requires Hears(b, id, next, cum + n, leaves - n, aggressor)
    ensures Hears(a + b, id, first + next, cum, leaves, aggressor)
  {
    ReportedJoin(a, b, id);
    AddsUpJoin(a, b, id, cum, leaves, aggressor);
  }

  // ----- one action

  /** A fill is told to the aggressor, if it is ours, and then to the owner of the resting order, if we are; a cancel to the owner. */
  function Says(s: State, agg: Option<nat>, a: Action): seq<Report>
    requires agg.Some? && a.Fill? ==> agg.value in s.pool && a.qty <= s.pool[agg.value].leaves
    requires a.Fill? && a.id in s.orders ==> a.id in s.pool && a.qty <= s.pool[a.id].leaves
  {
    if a.Cancel? then [Cancelled(a.id)]
    else
      (if agg.None? then []
       else [Executed(agg.value, a.price, a.qty, s.pool[agg.value].leaves - a.qty, s.pool[agg.value].cum + a.qty, true)])
      + (if a.id !in s.orders then []
         else [Executed(a.id, a.price, a.qty, s.pool[a.id].leaves - a.qty, s.pool[a.id].cum + a.qty, false)])
  }

  /** The record of a resting order after one action. */
  ghost predicate RecordAfter(s: State, t: State, a: Action, j: nat) {
    j in s.orders && j in s.pool ==>
      if j != a.id then j in t.orders && j in t.pool && t.pool[j] == s.pool[j]
      else if a.Fill? && a.qty < s.pool[j].leaves then
        j in t.orders && j in t.pool && t.pool[j].cum == s.pool[j].cum + a.qty && t.pool[j].leaves == s.pool[j].leaves - a.qty
      else j !in t.orders
  }

  lemma PassiveSays(s: State, ex: set<nat>, side: Side, id: nat, price: Price, n: nat, seqNum: nat, j: nat)
    requires Inv(s, ex) && CanFillPassive(s, side, id, n) && id !in ex && !s.Refuses(seqNum) && View(s.On(side))[id].price == price
    ensures id in s.orders ==> n <= s.pool[id].leaves
    ensures var t := FillPassive(s, side, id, n, seqNum);
            && t.reports == s.reports + Says(s, None, Fill(id, price, n))
            && RecordAfter(s, t, Fill(id, price, n), j)
  {
    hide View, Distinct, Sorted, AllReal, PhantomAt, IndexOk, LookupsOk, Uncrossed, Resized, Resize;
    if id in s.orders {
      OwnSide(s, ex, side, id);
      if n == View(s.On(side))[id].qty {
        FillOwnFully(s, side, id, n, seqNum);
      } else {
        FillOwnPartly(s, side, id, n, seqNum);
      }
      hide FillPassive;
    } else {
      ResizeShape(s, side, id, View(s.On(side))[id].qty - n, seqNum);
      hide L3Resize;
      assert s.reports + [] == s.reports;
    }
  }

  lemma ClientFillSays(s: State, side: Side, agg: nat, a: Action, j: nat)
    requires Inv(s, {agg}) && Opposing(s, side, Some(agg)) && Ready(s, side, Some(agg), a) && a.Fill?
    requires a.price == View(s.On(side))[a.id].price && j != agg
    ensures a.id in s.orders ==> a.id in s.pool && a.qty <= s.pool[a.id].leaves
    ensures var t := Apply(s, side, Some(agg), a, 0);
            t.reports == s.reports + Says(s, Some(agg), a) && RecordAfter(s, t, a, j)
  {
    hide View, Distinct, Sorted, PhantomAt, IndexOk, Uncrossed, QueuesOk, LookupsOk, FillPassive, RestsAsRecorded;
    var u := AggressorFill(s, agg, a.price, a.qty);
    AggressorFillKeeps(s, side, agg, a.price, a.qty);
    assert u.On(side) == s.On(side);
    PassiveSays(u, {agg}, side, a.id, a.price, a.qty, 0, j);
    hide Inv;
    assert Says(s, Some(agg), a) == [Executed(agg, a.price, a.qty, s.pool[agg].leaves - a.qty, s.pool[agg].cum + a.qty, true)]
                                     + Says(u, None, a);
  }

  lemma CancelSays(s: State, ex: set<nat>, id: nat, j: nat)
    requires Inv(s, ex) && id in s.orders && id !in ex
    ensures id in s.pool && id in View(s.On(s.pool[id].side))
    ensures var t := CancelOwn(s, id);
            t.reports == s.reports + [Cancelled(id)] && RecordAfter(s, t, Cancel(id), j)
  {
    hide View, Distinct, Sorted, PhantomAt, IndexOk, Uncrossed, CancelOwn, Resized;
    assert RestsAsRecorded(s, id);
    assert s.pool[id].quantity != 0;
    CancelOwnShape(s, id);
  }

  lemma ActionSays(s: State, side: Side, agg: Option<nat>, a: Action, seqNum: nat, own: set<nat>, j: nat)
    requires Inv(s, InHand(agg)) && Opposing(s, side, agg) && OwnersAs(s, side, own)
    requires ActionOk(s.On(side), a) && (a.Cancel? ==> a.id in own && agg.Some?)
    requires agg.Some? ==> FillOf(a) <= s.pool[agg.value].leaves && seqNum == 0
    requires !s.Refuses(seqNum) && agg != Some(j)
    ensures a.id in s.orders && a.Fill? ==> a.id in s.pool && a.qty <= s.pool[a.id].leaves
    ensures var t := Apply(s, side, agg, a, seqNum);
            t.reports == s.reports + Says(s, agg, a) && RecordAfter(s, t, a, j)
  {
    hide View, Inv, FillPassive, CancelOwn, RecordAfter, Says;
    ActionReady(s, side, agg, a, own);
    if a.Cancel? {
      CancelSays(s, InHand(agg), a.id, j);
      assert Says(s, agg, a) == [Cancelled(a.id)] by {
        CancelIsSaid(s, agg, a);
      }
    } else if agg.None? {
      PassiveSays(s, {}, side, a.id, a.price, a.qty, seqNum, j);
    } else {
      ClientFillSays(s, side, agg.value, a, j);
    }
  }

  lemma CancelIsSaid(s: State, agg: Option<nat>, a: Action)
    requires a.Cancel?
    ensures Says(s, agg, a) == [Cancelled(a.id)]
  {
  }

  // ----- a whole match

  /** What order `j` is told of a match is what it traded in it, and the figures add up; nobody else hears of it. */
  ghost predicate Tells(s: State, rs: seq<Report>, agg: Option<nat>, acts: seq<Action>, j: nat) {
    if agg == Some(j) then
      j in s.pool && Hears(rs, j, Traded(acts), s.pool[j].cum, s.pool[j].leaves, true) && Cancelled(j) !in rs
    else if j in s.orders then
      && j in s.pool && Hears(rs, j, TradedWith(acts, j), s.pool[j].cum, s.pool[j].leaves, false)
      && (Cancelled(j) in rs <==> Cancel(j) in acts)
    else Silent(rs, j)
  }

  ghost predicate Booked(s: State, t: State, agg: Option<nat>, acts: seq<Action>, j: nat) {
    s.reports <= t.reports && Tells(s, t.reports[|s.reports|..], agg, acts, j)
  }

  lemma {:induction false} NotTraded(q: seq<Resting>, acts: seq<Action>, j: nat)
    requires Distinct(q) && ActionsOk(q, acts) && j !in View(q)
    ensures TradedWith(acts, j) == []
    decreases |acts|
  {
    hide View, Distinct, Resize;
    if acts != [] {
      var a := acts[0];
      ResizeView(q, a.id, if a.Fill? then View(q)[a.id].qty - a.qty else 0);
      NotTraded(Act(q, a), acts[1..], j);
    }
  }

  /** One report of an order among others that do not mention it. */
  lemma OneAmong(pre: seq<Report>, r: Report, post: seq<Report>, j: nat, cum: nat, leaves: nat, aggressor: bool)
    requires Silent(pre, j) && Silent(post, j) && r.id == j
    requires r.Executed? ==> r.qty <= leaves && r.cum == cum + r.qty && r.leaves == leaves - r.qty && r.aggressor == aggressor
    ensures Reported(pre + [r] + post, j) == (if r.Executed? then [Deal(r.price, r.qty)] else [])
    ensures AddsUp(pre + [r] + post, j, cum, leaves, aggressor)
  {
    var tail := [r] + post;
    assert tail[1..] == post && pre + [r] + post == pre + tail;
    SilentAddsUp(pre, j, cum, leaves, aggressor);
    SilentAddsUp(post, j, if r.Executed? then r.cum else cum, if r.Executed? then r.leaves else leaves, aggressor);
    AddsUpJoin(pre, tail, j, cum, leaves, aggressor);
    ReportedJoin(pre, tail, j);
  }

  lemma OneAction(a: Action, j: nat)
    ensures Traded([a]) == if a.Fill? then [Deal(a.price, a.qty)] else []
    ensures TradedWith([a], j) == if a.Fill? && a.id == j then [Deal(a.price, a.qty)] else []
  {
    assert [a][1..] == [];
  }

  /** The reports of one action, to whoever hears them. */
  lemma SaysAddsUp(s: State, agg: Option<nat>, a: Action, j: nat)
    requires agg.Some? && a.Fill? ==> agg.value in s.pool && a.qty <= s.pool[agg.value].leaves
    requires a.Fill? && a.id in s.orders ==> a.id in s.pool && a.qty <= s.pool[a.id].leaves
    requires agg != Some(a.id) && (a.Cancel? ==> a.id in s.orders) && (j in s.orders || agg == Some(j) ==> j in s.pool)
    ensures Tells(s, Says(s, agg, a), agg, [a], j)
  {
    var rs := Says(s, agg, a);
    OneAction(a, j);
    hide Reported, AddsUp, Traded, TradedWith;
    if Silent(rs, j) && (agg == Some(j) || j in s.orders) {
      SilentAddsUp(rs, j, s.pool[j].cum, s.pool[j].leaves, agg == Some(j));
    } else if agg == Some(j) {
      assert rs == [] + [rs[0]] + rs[1..];
      OneAmong([], rs[0], rs[1..], j, s.pool[j].cum, s.pool[j].leaves, true);
    } else if j in s.orders {
      var k := |rs| - 1;
      assert rs == rs[..k] + [rs[k]] + [];
      OneAmong(rs[..k], rs[k], [], j, s.pool[j].cum, s.pool[j].leaves, false);
    }
  }

  /** One action and then the rest. */
  lemma TellsStep(s: State, t: State, agg: Option<nat>, a: Action, rest: seq<Action>, one: seq<Report>, more: seq<Report>, j: nat)
    requires Tells(s, one, agg, [a], j) && Tells(t, more, agg, rest, j) && t.orders <= s.orders && agg != Some(a.id)
    requires a.Fill? && a.id == j && j in s.orders ==> j in s.pool && a.qty <= s.pool[j].leaves
    requires agg == Some(j) ==>
               j in s.pool && j in t.pool && t.pool[j].cum == s.pool[j].cum + FillOf(a) && t.pool[j].leaves + FillOf(a) == s.pool[j].leaves
    requires agg != Some(j) ==> RecordAfter(s, t, a, j)
    requires agg != Some(j) && j in s.orders && j !in t.orders ==> TradedWith(rest, j) == [] && Cancel(j) !in rest
    ensures Tells(s, one + more, agg, [a] + rest, j)
  {
    OneAction(a, j);
    TradedCons(a, rest, j);
    hide Reported, AddsUp, Traded, TradedWith, Hears, Silent;
    if agg == Some(j) {
      DealQuantity(a);
      HearsBoth(one, more, j, Traded([a]), Traded(rest), FillOf(a), s.pool[j].cum, s.pool[j].leaves, true);
    } else if j in s.orders {
      DealQuantity(a);
      var n := if a.id == j then FillOf(a) else 0;
      if j !in t.orders {
        SilentHears(more, j, s.pool[j].cum + n, s.pool[j].leaves - n);
      }
      HearsBoth(one, more, j, TradedWith([a], j), TradedWith(rest, j), n, s.pool[j].cum, s.pool[j].leaves, false);
    } else {
      SilentBoth(one, more, j);
    }
  }

  lemma SilentHears(rs: seq<Report>, j: nat, cum: nat, leaves: nat)
    requires Silent(rs, j)
    ensures Hears(rs, j, [], cum, leaves, false) && Cancelled(j) !in rs
  {
    SilentAddsUp(rs, j, cum, leaves, false);
  }

  lemma SilentBoth(a: seq<Report>, b: seq<Report>, j: nat)
    requires Silent(a, j) && Silent(b, j)
    ensures Silent(a + b, j)
  {
  }

  lemma TradedCons(a: Action, rest: seq<Action>, j: nat)
    ensures Traded([a] + rest) == Traded([a]) + Traded(rest)
    ensures TradedWith([a] + rest, j) == TradedWith([a], j) + TradedWith(rest, j)
  {
    OneAction(a, j);
    assert ([a] + rest)[1..] == rest;
  }

  lemma DealQuantity(a: Action)
    ensures Quantity([Deal(FillPrice(a), FillOf(a))]) == FillOf(a) && Quantity([]) == 0
  {
    assert [Deal(FillPrice(a), FillOf(a))][1..] == [];
  }

  function FillPrice(a: Action): Price {
    if a.Fill? then a.price else 0
  }

  lemma NothingBooked(s: State, agg: Option<nat>, j: nat)
    requires Inv(s, InHand(agg))
    ensures Booked(s, s, agg, [], j)
  {
    hide View, QueuesOk, Uncrossed, IndexOk, LookupsOk, RestsAsRecorded;
    assert s.reports[|s.reports|..] == [];
  }

  lemma OwnAreLive(s: State, side: Side, agg: Option<nat>, j: nat)
    requires Inv(s, InHand(agg)) && Opposing(s, side, agg)
    ensures j in s.orders || agg == Some(j) ==> j in s.pool
  {
    hide View, QueuesOk, Uncrossed, IndexOk, RestsAsRecorded;
  }

  /** An order that leaves with this action rests nowhere afterwards, so that no later action names it. */
  lemma GoneIsNotNamed(s: State, t: State, side: Side, agg: Option<nat>, a: Action, rest: seq<Action>, own: set<nat>, j: nat)
    requires Inv(s, InHand(agg)) && Inv(t, InHand(agg)) && Shrinks(s, t, side, agg) && OwnersAs(s, side, own)
    requires ActionOk(s.On(side), a) && t.On(side) == Act(s.On(side), a) && ActionsOk(t.On(side), rest)
    requires j in s.orders && j !in t.orders
    ensures TradedWith(rest, j) == [] && Cancel(j) !in rest
  {
    hide View, PhantomAt, IndexOk, LookupsOk, Uncrossed, RestsAsRecorded, Act, ActionOk;
    assert WellFormed(side, t.On(side));
    assert j !in View(t.On(side));
    NotTraded(t.On(side), rest, j);
    OrderFates.NotNamed(t.On(side), rest, j);
  }

  lemma {:induction false} ApplyAllBooked(s: State, side: Side, agg: Option<nat>, acts: seq<Action>, seqNum: nat, own: set<nat>, j: nat)
    requires Inv(s, InHand(agg)) && Opposing(s, side, agg) && OwnersAs(s, side, own) && !s.Refuses(seqNum)
    requires ActionsOk(s.On(side), acts) && CancelsOwn(acts, own)
    requires agg.Some? ==> Filled(acts) <= s.pool[agg.value].leaves && seqNum == 0
    requires agg.None? ==> forall i :: 0 <= i < |acts| ==> acts[i].Fill?
    ensures Booked(s, ApplyAll(s, side, agg, acts, seqNum), agg, acts, j)
    decreases |acts|
  {
    hide View, Inv, Shrinks, Apply, Ready, Act, ActionOk, Tells, Says, RecordAfter, Traded, TradedWith;
    if acts == [] {
      NothingBooked(s, agg, j);
    } else {
      var a, rest := acts[0], acts[1..];
      ActionStep(s, side, agg, a, seqNum, own);
      var t := Apply(s, side, agg, a, seqNum);
      ApplyAllBooked(t, side, agg, rest, seqNum, own, j);
      assert acts == [a] + rest;
      FirstBooked(s, side, agg, a, rest, seqNum, own, j);
      var u := ApplyAll(t, side, agg, rest, seqNum);
      var one, more := Says(s, agg, a), u.reports[|t.reports|..];
      assert u.reports[|s.reports|..] == one + more;
      TellsStep(s, t, agg, a, rest, one, more, j);
    }
  }

  /** What the first action says, and what it does to the figures of one order. */
  lemma FirstBooked(s: State, side: Side, agg: Option<nat>, a: Action, rest: seq<Action>, seqNum: nat, own: set<nat>, j: nat)
    requires Inv(s, InHand(agg)) && Opposing(s, side, agg) && OwnersAs(s, side, own) && !s.Refuses(seqNum)
    requires ActionOk(s.On(side), a) && (a.Cancel? ==> a.id in own && agg.Some?)
    requires agg.Some? ==> FillOf(a) <= s.pool[agg.value].leaves && seqNum == 0
    requires ActionsOk(Act(s.On(side), a), rest)
    ensures agg.Some? && a.Fill? ==> agg.value in s.pool && a.qty <= s.pool[agg.value].leaves
    ensures a.Fill? && a.id in s.orders ==> a.id in s.pool && a.qty <= s.pool[a.id].leaves
    ensures var t := Apply(s, side, agg, a, seqNum);
            && agg != Some(a.id) && t.orders <= s.orders
            && t.reports == s.reports + Says(s, agg, a) && Tells(s, Says(s, agg, a), agg, [a], j)
            && (agg == Some(j) ==>
                  j in s.pool && j in t.pool && t.pool[j].cum == s.pool[j].cum + FillOf(a) && t.pool[j].leaves + FillOf(a) == s.pool[j].leaves)
            && (agg != Some(j) ==> RecordAfter(s, t, a, j))
            && (agg != Some(j) && j in s.orders && j !in t.orders ==> TradedWith(rest, j) == [] && Cancel(j) !in rest)
  {
    hide View, Inv, Act, ActionOk, Tells, Says, RecordAfter, Traded, TradedWith, Apply;
    ActionStep(s, side, agg, a, seqNum, own);
    OwnAreLive(s, side, agg, j);
    NotItself(s, side, agg, a);
    var t, k := Apply(s, side, agg, a, seqNum), if agg == Some(j) then a.id else j;
    ActionSays(s, side, agg, a, seqNum, own, k);
    CancelledIsOwn(s, side, agg, a, own);
    SaysAddsUp(s, agg, a, j);
    if agg != Some(j) && j in s.orders && j !in t.orders {
      GoneIsNotNamed(s, t, side, agg, a, rest, own, j);
    }
  }

  lemma NotItself(s: State, side: Side, agg: Option<nat>, a: Action)
    requires Opposing(s, side, agg) && ActionOk(s.On(side), a)
    ensures agg != Some(a.id)
  {
    hide View;
  }

  lemma CancelledIsOwn(s: State, side: Side, agg: Option<nat>, a: Action, own: set<nat>)
    requires OwnersAs(s, side, own) && ActionOk(s.On(side), a) && (a.Cancel? ==> a.id in own)
    ensures a.Cancel? ==> a.id in s.orders
  {
    hide View;
  }

  // ----- requests and feed events

  lemma LoopBooked(e: Engine, s: State, agg: nat, limit: Price, smp: SmpMode, j: nat)
    requires e.Valid() && Inv(s, {agg}) && agg in s.pool
    requires Opposing(s, Opposite(s.pool[agg].side), Some(agg)) && s.pool[agg].leaves > 0
    requires var t := TermsOf(s, agg, limit, smp);
             smp == CancelNewest ==> !PreChecks.InReach(e, t, s.On(t.side), s.pool[agg].leaves)
    ensures var m := Loop(e, s, agg, limit, smp);
            && s.reports <= m.state.reports && TellsAll(s, m.state.reports[|s.reports|..], agg, m.actions, j)
  {
    hide View, Distinct, Sorted, AllReal, PhantomAt, LookupsOk, IndexOk, Uncrossed, RestsAsRecorded;
    hide Plan, ApplyAll, Shrinks, SelfOf, PreChecks.InReach, ActionsOk, ActAll, Filled, Tells, TellsAll;
    var t := TermsOf(s, agg, limit, smp);
    var q, leaves := s.On(t.side), s.pool[agg].leaves;
    var o := Plan(e, t, q, leaves);
    NotTurnedBack(e, t, q, leaves);
    PlanSound(e, t, q, leaves);
    SelfIsOwn(s, agg);
    PlanCancelsOwn(e, t, q, leaves, s.orders);
    ApplyAllBooked(s, t.side, Some(agg), o.actions, 0, s.orders, j);
    var r := ApplyAll(s, t.side, Some(agg), o.actions, 0);
    var rs := r.reports[|s.reports|..];
    AndCancelled(s, rs, agg, o.actions, j);
    assert (r.reports + [Cancelled(agg)])[|s.reports|..] == rs + [Cancelled(agg)];
  }

  /** As above; the aggressor may also hear that what is left of it is cancelled. */
  ghost predicate TellsAll(s: State, rs: seq<Report>, agg: nat, acts: seq<Action>, j: nat) {
    if agg == j then j in s.pool && Hears(rs, j, Traded(acts), s.pool[j].cum, s.pool[j].leaves, true)
    else Tells(s, rs, Some(agg), acts, j)
  }

  lemma AndCancelled(s: State, rs: seq<Report>, agg: nat, acts: seq<Action>, j: nat)
    requires Tells(s, rs, Some(agg), acts, j)
    ensures TellsAll(s, rs, agg, acts, j) && TellsAll(s, rs + [Cancelled(agg)], agg, acts, j)
  {
    hide Traded, TradedWith;
    if agg == j || j in s.orders {
      CancelAddsNothing(rs, agg, j, s.pool[j].cum, s.pool[j].leaves, agg == j);
    }
  }

  lemma CancelAddsNothing(rs: seq<Report>, id: nat, j: nat, cum: nat, leaves: nat, aggressor: bool)
    requires AddsUp(rs, j, cum, leaves, aggressor)
    ensures Reported(rs + [Cancelled(id)], j) == Reported(rs, j) && AddsUp(rs + [Cancelled(id)], j, cum, leaves, aggressor)
  {
    var last := [Cancelled(id)];
    assert last[1..] == [];
    assert Reported(last, j) == [];
    ReportedJoin(rs, last, j);
    AddsUpJoin(rs, last, j, cum, leaves, aggressor);
    var n := Quantity(Reported(rs, j));
    assert AddsUp(last, j, cum + n, leaves - n, aggressor);
  }

  /** What follows `first` in the reports of an accepted request. */
  ghost predicate Informs(s: State, t: State, first: Report, agg: nat, acts: seq<Action>, leaves: nat, j: nat)
    requires agg in s.pool
  {
    && s.reports + [first] <= t.reports
    && var rs := t.reports[|s.reports| + 1..];
       if agg == j then Hears(rs, j, Traded(acts), s.pool[j].cum, leaves, true) else Tells(s, rs, Some(agg), acts, j)
  }

  lemma SameTells(s: State, r: State, rs: seq<Report>, agg: nat, acts: seq<Action>, j: nat)
    requires agg in s.pool && agg in r.pool && r.pool == s.pool[agg := r.pool[agg]] && r.orders == s.orders && j != agg
    ensures Tells(r, rs, Some(agg), acts, j) == Tells(s, rs, Some(agg), acts, j)
  {
    hide Hears, TradedWith;
  }

  function Opening(s: State, agg: nat, limit: Price, qty: nat): Report
    requires agg in s.pool
  {
    if s.pool[agg].status == PendingNew then Acked(agg) else Replaced(agg, limit, qty, PreviewLeaves(s.pool[agg], qty))
  }

  lemma OpeningIsSaid(s: State, agg: nat, limit: Price, qty: nat)
    requires Incoming(s, agg, limit, qty)
    ensures var r := Replace(Acknowledge(s, agg), agg, limit, qty);
            r.reports == s.reports + [Opening(s, agg, limit, qty)]
  {
    hide Inv, View;
    PreparedState(s, agg, limit, qty);
  }

  lemma NothingLeftInforms(e: Engine, s: State, agg: nat, limit: Price, qty: nat, smp: SmpMode, j: nat)
    requires e.Valid() && Incoming(s, agg, limit, qty)
    requires var d := Prepare(e, s, agg, limit, qty, smp); d.Done? && d.reason == Accepted
    ensures Informs(s, Prepare(e, s, agg, limit, qty, smp).state, Opening(s, agg, limit, qty), agg, [], PreviewLeaves(s.pool[agg], qty), j)
  {
    hide Inv, View, PreChecks.InReach, PreChecks.CanFill, SelfOf, Opening;
    PreparedState(s, agg, limit, qty);
    OpeningIsSaid(s, agg, limit, qty);
    OwnAreLive(s, Opposite(s.pool[agg].side), Some(agg), j);
    var first, last := Opening(s, agg, limit, qty), [Cancelled(agg)];
    var t := Prepare(e, s, agg, limit, qty, smp).state;
    hide Prepare, Replace, Acknowledge;
    assert t.reports == s.reports + [first] + last;
    assert t.reports[|s.reports| + 1..] == last;
    CancelIsHeard(s, agg, j, PreviewLeaves(s.pool[agg], qty));
  }

  lemma CancelIsHeard(s: State, agg: nat, j: nat, leaves: nat)
    requires agg in s.pool && (j in s.orders ==> j in s.pool)
    ensures if agg == j then Hears([Cancelled(agg)], j, [], s.pool[j].cum, leaves, true) else Tells(s, [Cancelled(agg)], Some(agg), [], j)
  {
    assert [Cancelled(agg)][1..] == [];
  }

  /** An accepted match of any incoming order. */
  lemma MatchInforms(e: Engine, s: State, agg: nat, limit: Price, qty: nat, smp: SmpMode, j: nat)
    requires e.Valid() && Incoming(s, agg, limit, qty) && MatchOrder(e, s, agg, limit, qty, smp).reason == Accepted
    ensures var m := MatchOrder(e, s, agg, limit, qty, smp);
            Informs(s, m.state, Opening(s, agg, limit, qty), agg, m.actions, PreviewLeaves(s.pool[agg], qty), j)
  {
    hide View, Inv, PreChecks.InReach, PreChecks.CanFill, Loop, SelfOf, Tells, Hears, Opening, Informs;
    if Prepare(e, s, agg, limit, qty, smp).Done? {
      NothingLeftInforms(e, s, agg, limit, qty, smp, j);
    } else {
      LoopInforms(e, s, agg, limit, qty, smp, j);
    }
  }

  lemma LoopInforms(e: Engine, s: State, agg: nat, limit: Price, qty: nat, smp: SmpMode, j: nat)
    requires e.Valid() && Incoming(s, agg, limit, qty) && Prepare(e, s, agg, limit, qty, smp).Go?
    ensures var r := Prepare(e, s, agg, limit, qty, smp).state;
            && agg in r.pool
            && var m := Loop(e, r, agg, limit, smp);
               Informs(s, m.state, Opening(s, agg, limit, qty), agg, m.actions, PreviewLeaves(s.pool[agg], qty), j)
  {
    hide View, Inv, PreChecks.InReach, PreChecks.CanFill, Loop, SelfOf, Tells, Hears, Opening;
    var r := Prepare(e, s, agg, limit, qty, smp).state;
    PreparedState(s, agg, limit, qty);
    OpeningIsSaid(s, agg, limit, qty);
    SameTerms(s, r, agg, limit, smp);
    assert r.On(Opposite(s.pool[agg].side)) == s.On(Opposite(s.pool[agg].side));
    LoopBooked(e, r, agg, limit, smp, j);
    var m := Loop(e, r, agg, limit, smp);
    hide Replace, Acknowledge, Prepare;
    if agg != j {
      SameTells(s, r, m.state.reports[|r.reports|..], agg, m.actions, j);
    }
  }

  /**
   Everything that is said of a new order's request. Turned back, nothing; refused as fill-or-kill, an
   acknowledgement and a cancel. Otherwise an acknowledgement, and then: its sender hears of exactly the
   fills it got, with the figures adding up from nothing to its quantity; the owner of a resting order hears
   of exactly the fills and the self-match cancel of that order; nobody else hears anything.
   */
  lemma NewOrderReports(e: Engine, smp: SmpMode, s: State, id: nat, o: Order, priority: nat, j: nat)
    requires e.Valid() && Inv(s, {}) && FreshOrder(s, id, o) && j != id
    ensures var m := NewOrder(e, smp, s, id, o, priority);
            && (m.reason == SelfMatch ==> m.state.reports == s.reports)
            && (m.reason == FokCannotFill ==> m.state.reports == s.reports + [Acked(id), Cancelled(id)])
            && (m.reason == Accepted ==>
                  && s.reports + [Acked(id)] <= m.state.reports
                  && var rs := m.state.reports[|s.reports| + 1..];
                     Hears(rs, id, Traded(m.actions), 0, o.quantity, true) && Tells(s, rs, Some(id), m.actions, j))
  {
    hide View, Inv, MatchOrder, RestOwn, Tells, Hears;
    var a := Allocate(s, id, o);
    AllocatedIsIncoming(s, id, o);
    var m := MatchOrder(e, a, id, o.price, o.quantity, smp);
    if m.reason == Accepted {
      MatchInforms(e, a, id, o.price, o.quantity, smp, id);
      MatchInforms(e, a, id, o.price, o.quantity, smp, j);
      AllocatedTells(s, id, o, m.state.reports[|s.reports| + 1..], m.actions, j);
    } else {
      RefusedSays(e, a, id, o.price, o.quantity, smp);
    }
    if id in m.state.pool && m.state.pool[id].leaves > 0 {
      RestOwnShape(m.state, id, priority);
    }
  }

  lemma AllocatedTells(s: State, id: nat, o: Order, rs: seq<Report>, acts: seq<Action>, j: nat)
    requires j != id
    ensures Tells(Allocate(s, id, o), rs, Some(id), acts, j) == Tells(s, rs, Some(id), acts, j)
  {
    hide Hears, TradedWith;
  }

  lemma RefusedSays(e: Engine, s: State, agg: nat, limit: Price, qty: nat, smp: SmpMode)
    requires e.Valid() && Incoming(s, agg, limit, qty) && s.pool[agg].status == PendingNew
    ensures var m := MatchOrder(e, s, agg, limit, qty, smp);
            && (m.reason == SelfMatch ==> m.state.reports == s.reports)
            && (m.reason == FokCannotFill ==> m.state.reports == s.reports + [Acked(agg), Cancelled(agg)])
  {
    hide View, Inv, PreChecks.InReach, PreChecks.CanFill, SelfOf, Plan, ApplyAll, Shrinks, ActAll, ActionsOk, Filled;
    MatchOrderOutcomes(e, s, agg, limit, qty, smp);
    assert s.reports + [Acked(agg)] + [Cancelled(agg)] == s.reports + [Acked(agg), Cancelled(agg)];
    hide Loop;
    var p := Prepare(e, s, agg, limit, qty, smp);
    if p.Go? {
      LoopOutcome(e, s, agg, limit, qty, smp);
      LoopAccepts(e, s, agg, limit, qty, smp);
    }
  }

  lemma LoopAccepts(e: Engine, s: State, agg: nat, limit: Price, qty: nat, smp: SmpMode)
    requires e.Valid() && Incoming(s, agg, limit, qty) && Prepare(e, s, agg, limit, qty, smp).Go?
    ensures var r := Prepare(e, s, agg, limit, qty, smp).state;
            agg in r.pool && Loop(e, r, agg, limit, smp).reason == Accepted
  {
    hide View, Inv, PreChecks.InReach, PreChecks.CanFill, Loop, SelfOf;
    var r := Prepare(e, s, agg, limit, qty, smp).state;
    PreparedState(s, agg, limit, qty);
    SameTerms(s, r, agg, limit, smp);
    assert r.On(Opposite(s.pool[agg].side)) == s.On(Opposite(s.pool[agg].side));
    LoopKeeps(e, r, agg, limit, smp);
  }

  /**
   Likewise of an amendment: nothing if it is turned back; otherwise the replacement, with what is still
   wanted of the order, and then every fill, the figures going on from what had been filled before.
   */
  lemma AmendReports(e: Engine, smp: SmpMode, s: State, id: nat, price: Price, qty: nat, priority: nat, j: nat)
    requires e.Valid() && Inv(s, {}) && id in s.orders && id in s.pool && j != id
    requires Amend(e, smp, s, id, price, qty, priority).reason == Accepted
    ensures var m, wanted := Amend(e, smp, s, id, price, qty, priority), OrderFates.StillWanted(s.pool[id], qty);
            && s.reports + [Replaced(id, price, qty, wanted)] <= m.state.reports
            && var rs := m.state.reports[|s.reports| + 1..];
               Hears(rs, id, Traded(m.actions), s.pool[id].cum, wanted, true) && Tells(s, rs, Some(id), m.actions, j)
  {
    hide View, Distinct, Sorted, PhantomAt, IndexOk, Uncrossed, LookupsOk, MatchOrder, SettleAmended, Tells, Hears, RestsAsRecorded;
    var a := Marked(s, id);
    OrderFates.RecordedNow(s, id);
    OrderFates.BalancedNow(s, id);
    OrderFates.PreviewIsWanted(s.pool[id], qty);
    MarkedIsIncoming(s, id, price, qty);
    MatchInforms(e, a, id, price, qty, smp, id);
    MatchInforms(e, a, id, price, qty, smp, j);
    var m := MatchOrder(e, a, id, price, qty, smp);
    SameTells(s, a, m.state.reports[|s.reports| + 1..], id, m.actions, j);
    MatchOrderOutcomes(e, a, id, price, qty, smp);
    AmendedRests(s, m.state, id);
    var pr := if price != s.pool[id].price || qty > s.pool[id].quantity then priority else m.state.pool[id].priority;
    if m.state.pool[id].leaves == 0 {
      SettleDoneShape(m.state, id, pr);
    } else {
      SettleLiveShape(m.state, id, pr);
    }
  }

  /** A feed match is told to the owners of the orders it fills, fill by fill, and to nobody else. */
  lemma FeedReports(e: Engine, s: State, side: Side, limit: Price, qty: nat, seqNum: nat, j: nat)
    requires e.Valid() && Inv(s, {}) && !s.Refuses(seqNum)
    ensures var m := MatchFeed(e, s, side, limit, qty, seqNum);
            s.reports <= m.state.reports && Tells(s, m.state.reports[|s.reports|..], None, m.actions, j)
  {
    hide View, Inv, Plan, ApplyAll, Shrinks, ActionsOk, ActAll, Filled, Tells;
    var t := FeedTerms(side, limit);
    var q := s.On(t.side);
    SideIsOk(s, t.side);
    NotTurnedBack(e, t, q, qty);
    PlanSound(e, t, q, qty);
    PlanCancelsOwn(e, t, q, qty, {});
    NoSelfNoCancel(Plan(e, t, q, qty).actions);
    ApplyAllBooked(s, t.side, None, Plan(e, t, q, qty).actions, seqNum, s.orders, j);
  }
}
