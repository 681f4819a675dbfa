/** Time priority: who stands where at a price level, and what never changes it. */
module Priority {
  import opened Types
  import opened Queue
  import opened Orders
  import opened BookState
  import opened BookInvariant
  import opened BookOps
  import opened MatchPlan
  import opened Matching
  import opened Requests
  import opened RequestLaws
  import opened StatementLaws
  import Exchange
  import Rebuild
  import Runs
  import StatementRuns

  /** How many orders at the head of the queue are at `p` or better. */
  function AtOrBetter(s: Side, q: seq<Resting>, p: Price): (n: nat)
    ensures n <= |q|
  {
    if q == [] || !IsPriceBetterOrEqual(s, q[0].price, p) then 0 else 1 + AtOrBetter(s, q[1..], p)
  }

  /** A priority above everything resting at the price. */
  ghost predicate Youngest(q: seq<Resting>, x: Resting) {
    forall id :: id in View(q) && View(q)[id].price == x.price ==> View(q)[id].priority <= x.priority
  }

  /** `r` is `q` with `x` put behind everything at its price or better and before everything worse. */
  ghost predicate LastOfItsLevel(s: Side, q: seq<Resting>, x: Resting, r: seq<Resting>) {
    var n := AtOrBetter(s, q, x.price);
    && r == q[..n] + [x] + q[n..]
    && (forall i :: 0 <= i < n ==> IsPriceBetterOrEqual(s, q[i].price, x.price))
    && (forall i :: n <= i < |q| ==> IsPriceBetter(s, x.price, q[i].price))
  }

  lemma {:induction false} YoungestGoesLast(s: Side, q: seq<Resting>, x: Resting)
    requires WellFormed(s, q) && Youngest(q, x)
    ensures LastOfItsLevel(s, q, x, Insert(s, q, x))
  {
    if q != [] {
      HeadIsAhead(s, q, q[0].id);
      if IsPriceBetterOrEqual(s, q[0].price, x.price) {
        Tail(s, q);
        YoungerTail(q, x);
        hide View, WellFormed, Youngest, LastOfItsLevel;
        YoungestGoesLast(s, q[1..], x);
        LastWithHead(s, q, x);
      } else {
        BehindHead(s, q);
        hide View, WellFormed;
      }
    }
  }

  lemma YoungerTail(q: seq<Resting>, x: Resting)
    requires q != [] && Distinct(q) && Youngest(q, x)
    ensures Youngest(q[1..], x)
  {
    forall id | id in View(q[1..]) && View(q[1..])[id].price == x.price ensures View(q[1..])[id].priority <= x.priority {
      assert View(q)[id] == View(q[1..])[id];
    }
  }

  lemma LastWithHead(s: Side, q: seq<Resting>, x: Resting)
    requires q != [] && Ahead(s, q[0], x) && IsPriceBetterOrEqual(s, q[0].price, x.price)
    requires LastOfItsLevel(s, q[1..], x, Insert(s, q[1..], x))
    ensures LastOfItsLevel(s, q, x, Insert(s, q, x))
  {
    var n := AtOrBetter(s, q[1..], x.price);
    assert q == [q[0]] + q[1..];
    assert q[..n + 1] == [q[0]] + q[1..][..n] && q[n + 1..] == q[1..][n..];
    assert [q[0]] + (q[1..][..n] + [x] + q[1..][n..]) == q[..n + 1] + [x] + q[n + 1..];
  }

  lemma BehindHead(s: Side, q: seq<Resting>)
    requires WellFormed(s, q) && q != []
    ensures forall i :: 0 <= i < |q| ==> IsPriceBetterOrEqual(s, q[0].price, q[i].price)
  {
    ViewMember(q[1..]);
    forall i | 0 <= i < |q| ensures IsPriceBetterOrEqual(s, q[0].price, q[i].price) {
      assert i > 0 ==> q[i] == q[1..][i - 1] && q[i] in q[1..];
    }
  }

  // ----- new orders

  lemma NewRestsIn(e: Engine, smp: SmpMode, s: State, id: nat, o: Order, priority: nat)
    requires e.Valid() && Inv(s, {}) && FreshOrder(s, id, o)
    requires id in NewOrder(e, smp, s, id, o, priority).state.orders
    ensures var t := NewOrder(e, smp, s, id, o, priority).state;
            id in t.pool && t.On(o.side) == Insert(o.side, s.On(o.side), Resting(id, o.price, t.pool[id].leaves, priority))
  {
    hide View, PhantomAt, IndexOk, Uncrossed, LookupsOk, RestsAsRecorded, QueuesOk, MatchOrder, FitsBeside;
    var a := Allocate(s, id, o);
    AllocatedIsIncoming(s, id, o);
    MatchOrderOutcomes(e, a, id, o.price, o.quantity, smp);
    var m := MatchOrder(e, a, id, o.price, o.quantity, smp);
    assert id !in m.state.orders;
    if m.reason == Accepted && m.state.pool[id].leaves > 0 && m.state.pool[id].RestsRemainder() {
      RestOwnShape(m.state, id, priority);
      hide Insert, RestOwn;
      assert a.On(o.side) == s.On(o.side);
      assert m.state.On(o.side) == a.On(o.side);
    }
  }

  /** A new order that rests stands last of its level, whatever it traded first; nobody else moves. */
  lemma NewRestsLast(e: Engine, smp: SmpMode, s: State, id: nat, o: Order, priority: nat)
    requires e.Valid() && Inv(s, {}) && FreshOrder(s, id, o)
    requires id in NewOrder(e, smp, s, id, o, priority).state.orders
    requires Youngest(s.On(o.side), Resting(id, o.price, 0, priority))
    ensures var t := NewOrder(e, smp, s, id, o, priority).state;
            && id in t.pool
            && LastOfItsLevel(o.side, s.On(o.side), Resting(id, o.price, t.pool[id].leaves, priority), t.On(o.side))
  {
    NewRestsIn(e, smp, s, id, o, priority);
    hide View, NewOrder, Insert, LastOfItsLevel, FreshOrder;
    var x := Resting(id, o.price, NewOrder(e, smp, s, id, o, priority).state.pool[id].leaves, priority);
    SideIsOk(s, o.side);
    YoungestGoesLast(o.side, s.On(o.side), x);
  }

  // ----- amendments

  /** What an accepted amendment does to the order's own side of the book. */
  lemma AmendedQueue(e: Engine, smp: SmpMode, s: State, id: nat, price: Price, qty: nat, priority: nat)
    requires e.Valid() && Inv(s, {}) && id in s.orders
    requires id in s.pool && Amend(e, smp, s, id, price, qty, priority).reason == Accepted
    ensures var t, side := Amend(e, smp, s, id, price, qty, priority).state, s.pool[id].side;
            var pr := if Requeues(s, id, price, qty) then priority else s.pool[id].priority;
            && id in View(s.On(side)) && View(s.On(side))[id].price == s.pool[id].price
            && View(s.On(side))[id].priority == s.pool[id].priority
            && if id !in t.pool then t.On(side) == Resize(s.On(side), id, 0)
               else t.pool[id].leaves > 0
                    && t.On(side) == ModifiedQueue(side, s.On(side), Resting(id, price, t.pool[id].leaves, pr))
  {
    hide View, PhantomAt, IndexOk, Uncrossed, LookupsOk, QueuesOk, MatchOrder, FitsBeside, SettleAmended;
    var a := Marked(s, id);
    assert RestsAsRecorded(s, id);
    hide RestsAsRecorded;
    MarkedIsIncoming(s, id, price, qty);
    MatchOrderOutcomes(e, a, id, price, qty, smp);
    var m := MatchOrder(e, a, id, price, qty, smp);
    AmendedRests(s, m.state, id);
    var side := s.pool[id].side;
    assert a.On(side) == s.On(side) && m.state.On(side) == s.On(side);
    var pr := if Requeues(s, id, price, qty) then priority else m.state.pool[id].priority;
    hide Resize, ModifiedQueue;
    if m.state.pool[id].leaves == 0 {
      SettleDoneShape(m.state, id, pr);
    } else {
      SettleLiveShape(m.state, id, pr);
    }
  }

  /** An amendment that neither moves nor grows an order changes its quantity where it stands, and nothing else on its side. */
  lemma ShrinkingKeepsPlace(e: Engine, smp: SmpMode, s: State, id: nat, price: Price, qty: nat, priority: nat)
    requires e.Valid() && Inv(s, {}) && id in s.orders
    requires id in s.pool && Amend(e, smp, s, id, price, qty, priority).reason == Accepted
    requires price == s.pool[id].price && qty <= s.pool[id].quantity
    ensures var t, side := Amend(e, smp, s, id, price, qty, priority).state, s.pool[id].side;
            t.On(side) == Resize(s.On(side), id, if id in t.pool then t.pool[id].leaves else 0)
  {
    AmendedQueue(e, smp, s, id, price, qty, priority);
    hide View, Amend, Resize, Inv;
  }

  /** One that moves or grows it, and leaves something of it, puts it last of its level. */
  lemma RequeuedGoesLast(e: Engine, smp: SmpMode, s: State, id: nat, price: Price, qty: nat, priority: nat)
    requires e.Valid() && Inv(s, {}) && id in s.orders
    requires id in s.pool && Amend(e, smp, s, id, price, qty, priority).reason == Accepted
    requires (price != s.pool[id].price || qty > s.pool[id].quantity) && priority > s.pool[id].priority
    requires Youngest(s.On(s.pool[id].side), Resting(id, price, 0, priority))
    ensures var t, side := Amend(e, smp, s, id, price, qty, priority).state, s.pool[id].side;
            id in t.pool ==>
              LastOfItsLevel(side, Resize(s.On(side), id, 0), Resting(id, price, t.pool[id].leaves, priority), t.On(side))
  {
    AmendedQueue(e, smp, s, id, price, qty, priority);
    hide Amend, LastOfItsLevel;
    var t, side := Amend(e, smp, s, id, price, qty, priority).state, s.pool[id].side;
    if id in t.pool {
      var q, x := s.On(side), Resting(id, price, t.pool[id].leaves, priority);
      SideIsOk(s, side);
      hide Inv;
      ResizeView(q, id, 0);
      ResizeWellFormed(side, q, id, 0);
      assert Youngest(Resize(q, id, 0), x);
      YoungestGoesLast(side, Resize(q, id, 0), x);
    }
  }

  // ----- rebuilds

  function Owned(q: seq<Resting>, own: set<nat>): seq<Resting> {
    if q == [] then [] else if q[0].id in own then [q[0]] + Owned(q[1..], own) else Owned(q[1..], own)
  }

  lemma {:induction false} OwnedIsOk(s: Side, q: seq<Resting>, own: set<nat>)
    requires WellFormed(s, q)
    ensures WellFormed(s, Owned(q, own))
    ensures View(Owned(q, own)) == map id | id in View(q) && id in own :: View(q)[id]
  {
    if q != [] {
      Tail(s, q);
      OwnedIsOk(s, q[1..], own);
      var r := Owned(q[1..], own);
      if q[0].id in own {
        assert ([q[0]] + r)[1..] == r;
        assert View(q)[q[0].id] == q[0];
      }
    }
  }

  ghost predicate OnePerPlace(q: seq<Resting>) {
    forall i, j :: i in View(q) && j in View(q) && i != j ==>
      View(q)[i].price != View(q)[j].price || View(q)[i].priority != View(q)[j].priority
  }

  lemma HasMember(q: seq<Resting>)
    ensures q != [] <==> View(q) != map[]
  {
    if q != [] {
      assert q[0].id in View(q);
    }
  }

  lemma HeadIsAhead(s: Side, q: seq<Resting>, id: nat)
    requires WellFormed(s, q) && id in View(q)
    ensures q[0].id in View(q) && View(q)[q[0].id] == q[0]
    ensures id == q[0].id || Ahead(s, q[0], View(q)[id])
  {
  }

  lemma HeadsAgree(s: Side, a: seq<Resting>, b: seq<Resting>)
    requires WellFormed(s, a) && WellFormed(s, b) && View(a) == View(b) && OnePerPlace(a) && a != [] && b != []
    ensures a[0] == b[0]
  {
    assert a[0].id in View(a) && b[0].id in View(b);
    HeadIsAhead(s, a, b[0].id);
    HeadIsAhead(s, b, a[0].id);
    hide View, Distinct, Sorted, AllReal;
  }

  /** Sorted queues of the same orders, no two of which share a price and a priority, are the same queue. */
  lemma {:induction false} SameOrdersSameQueue(s: Side, a: seq<Resting>, b: seq<Resting>)
    requires WellFormed(s, a) && WellFormed(s, b) && View(a) == View(b) && OnePerPlace(a)
    ensures a == b
  {
    hide View, WellFormed, OnePerPlace;
    HasMember(a);
    HasMember(b);
    if a != [] {
      HeadsAgree(s, a, b);
      WithoutHead(s, a);
      WithoutHead(s, b);
      SameOrdersSameQueue(s, a[1..], b[1..]);
      assert a == [a[0]] + a[1..] && b == [b[0]] + b[1..];
    }
  }

  lemma WithoutHead(s: Side, q: seq<Resting>)
    requires WellFormed(s, q) && q != []
    ensures WellFormed(s, q[1..]) && View(q[1..]) == View(q) - {q[0].id}
    ensures OnePerPlace(q) ==> OnePerPlace(q[1..])
  {
    hide View, OnePerPlace, Sorted, AllReal;
    Tail(s, q);
    TailView(q);
    FewerPlaces(q, q[1..], q[0].id);
  }

  lemma TailView(q: seq<Resting>)
    requires q != [] && Distinct(q)
    ensures View(q[1..]) == View(q) - {q[0].id}
  {
  }

  lemma FewerPlaces(a: seq<Resting>, b: seq<Resting>, id: nat)
    requires View(b) == View(a) - {id}
    ensures OnePerPlace(a) ==> OnePerPlace(b)
  {
    hide View;
  }

  ghost predicate OwnPlacesDiffer(s: State) {
    forall i, j :: i in s.orders && j in s.orders && i in s.pool && j in s.pool && i != j ==>
      s.pool[i].priority != s.pool[j].priority
  }

  /** One side of a rebuilt book: the old queue without what is not ours. */
  lemma RebuiltSide(s: State, t: State, side: Side)
    requires Inv(s, {}) && Inv(t, {}) && SameOwners(s, t) && OwnPlacesDiffer(s)
    requires Rebuild.BackIn(s, t.On(side), s.On(side))
    ensures t.On(side) == Owned(s.On(side), s.orders)
  {
    hide WellFormed, View, Owned, Inv, OnePerPlace, OwnPlacesDiffer, SameOwners, Rebuild.BackIn;
    SideIsOk(s, side);
    SideIsOk(t, side);
    OwnedIsOk(side, s.On(side), s.orders);
    SameOwnOrders(s, t, side);
    OwnPlaces(s, t, side);
    SameOrdersSameQueue(side, t.On(side), Owned(s.On(side), s.orders));
  }

  lemma SameOwnOrders(s: State, t: State, side: Side)
    requires Inv(s, {}) && Inv(t, {}) && SameOwners(s, t) && Rebuild.BackIn(s, t.On(side), s.On(side))
    ensures View(t.On(side)) == map id | id in View(s.On(side)) && id in s.orders :: View(s.On(side))[id]
  {
    hide Distinct, Sorted, AllReal, PhantomAt, IndexOk, Uncrossed, LookupsOk, View;
    forall id | id in View(s.On(side)) && id in s.orders ensures id in View(t.On(side)) {
      OwnSide(s, {}, side, id);
      assert RestsAsRecorded(t, id);
    }
  }

  lemma OwnPlaces(s: State, t: State, side: Side)
    requires Inv(t, {}) && SameOwners(s, t) && OwnPlacesDiffer(s) && Rebuild.BackIn(s, t.On(side), s.On(side))
    ensures OnePerPlace(t.On(side))
  {
    hide Distinct, Sorted, AllReal, PhantomAt, IndexOk, Uncrossed, LookupsOk, View;
    var a := t.On(side);
    forall i, j | i in View(a) && j in View(a) && i != j
      ensures View(a)[i].price != View(a)[j].price || View(a)[i].priority != View(a)[j].priority
    {
      OwnSide(t, {}, side, i);
      OwnSide(t, {}, side, j);
    }
  }

  /**
   A rebuild drops the phantom orders and leaves our own exactly where they stood, in whatever order the
   map yields them, as long as no two of ours share a priority.
   */
  lemma RebuildKeepsOrder(s: State, ids: seq<nat>)
    requires Inv(s, {}) && Rebuild.Lists(ids, s.orders) && OwnPlacesDiffer(s)
    ensures var t := Rebuild.ClearMdOrders(s, ids);
            t.bids == Owned(s.bids, s.orders) && t.asks == Owned(s.asks, s.orders)
  {
    hide Inv, View, Owned, Rebuild.ClearMdOrders, Rebuild.BackIn, Rebuild.Lists, OwnPlacesDiffer;
    Rebuild.ClearMdOrdersKeeps(s, ids);
    var t := Rebuild.ClearMdOrders(s, ids);
    RebuiltSide(s, t, Buy);
    RebuiltSide(s, t, Sell);
  }

  /** So it is in every reachable state, since priorities are drawn from a counter. */
  lemma RebuildSafety(cfg: Exchange.Config, run: seq<Exchange.Event>, ids: seq<nat>)
    requires cfg.engine.Valid() && Runs.AdmissibleRun(cfg, Exchange.START, run)
    requires StatementRuns.DrawnRun(cfg, Exchange.START, run, 0)
    requires Rebuild.Lists(ids, Runs.Run(cfg, Exchange.START, run).book.orders)
    ensures var s := Runs.Run(cfg, Exchange.START, run).book;
            var t := Rebuild.ClearMdOrders(s, ids);
            t.bids == Owned(s.bids, s.orders) && t.asks == Owned(s.asks, s.orders)
  {
    hide Runs.Run, Runs.AdmissibleRun, StatementRuns.DrawnRun, Rebuild.ClearMdOrders, Owned, Inv;
    Runs.StartInv();
    Runs.RunKeeps(cfg, Exchange.START, run);
    StatementRuns.StatementSafety(cfg, run, 0, 0, 0);
    RebuildKeepsOrder(Runs.Run(cfg, Exchange.START, run).book, ids);
  }
}
