/** The credit table as seen from outside: what a print puts in and what a level update gets out. */
module CreditLaws {
  import opened Types
  import opened Queue
  import opened BookState
  import opened BookInvariant
  import opened MatchPlan
  import opened Matching
  import opened Feed
  import opened FeedMatching
  import opened Exchange
  import opened TradeCredits
  import opened CreditRuns
  import S = TradeSummaries
  import Reconcile
  import Requests
  import Runs

  // ----- the table

  /** What an update of `key` stamped `asOf` would not reflect. */
  function Unreflected(m: Credits, key: Key, asOf: nat): nat {
    TakeTradedQty(m, key, asOf).1
  }

  lemma UnreflectedIs(m: Credits, key: Key, asOf: nat)
    ensures Unreflected(m, key, asOf) == SumAfter(TradeCredits.At(m, key), asOf)
  {
    KeptSum(TradeCredits.At(m, key), asOf, asOf);
  }

  /** An empty table reflects everything. */
  lemma NothingTraded(key: Key, asOf: nat)
    ensures Unreflected(map[], key, asOf) == 0
  {
    UnreflectedIs(map[], key, asOf);
  }

  /** A credit counts for updates of its own price stamped before it, and for no others. */
  lemma CreditCounts(m: Credits, key: Key, qty: int, time: nat, other: Key, asOf: nat)
    ensures Unreflected(CreditTradedQty(m, key, qty, time), other, asOf)
            == Unreflected(m, other, asOf) + if other == key && asOf < time && qty > 0 then qty else 0
  {
    hide TakeTradedQty, Added, SumAfter;
    UnreflectedIs(m, other, asOf);
    UnreflectedIs(CreditTradedQty(m, key, qty, time), other, asOf);
    if qty > 0 {
      AddedSum(TradeCredits.At(m, key), qty, time, asOf);
    }
  }

  /** A take forgets the credits its update reflects, and only those: later updates see what both leave. */
  lemma TakeForgets(m: Credits, key: Key, asOf: nat, other: Key, next: nat)
    ensures Unreflected(TakeTradedQty(m, key, asOf).0, other, next)
            == Unreflected(m, other, if other == key && asOf > next then asOf else next)
  {
    UnreflectedIs(m, other, if other == key && asOf > next then asOf else next);
    UnreflectedIs(TakeTradedQty(m, key, asOf).0, other, next);
    KeptSum(TradeCredits.At(m, key), asOf, next);
  }

  // ----- what a print puts in

  function PhantomQtyAt(ss: seq<S.Summary>, p: Price): nat {
    if ss == [] then 0 else (if ss[0].price == p then ss[0].phantomQty else 0) + PhantomQtyAt(ss[1..], p)
  }

  function PhantomFilled(acts: seq<Action>, p: Price, own: set<nat>): nat {
    if acts == [] then 0
    else (if acts[0].Fill? && acts[0].price == p && acts[0].id !in own then acts[0].qty else 0) + PhantomFilled(acts[1..], p, own)
  }

  lemma {:induction false} PhantomSnoc(ss: seq<S.Summary>, x: S.Summary, p: Price)
    ensures PhantomQtyAt(ss + [x], p) == PhantomQtyAt(ss, p) + if x.price == p then x.phantomQty else 0
  {
    if ss == [] {
      assert ss + [x] == [x];
    } else {
      assert (ss + [x])[1..] == ss[1..] + [x];
      PhantomSnoc(ss[1..], x, p);
    }
  }

  /** The accumulator's price is that of its last summary. */
  ghost predicate AtLast(c: S.Context) {
    c.lastFillPrice == if c.summaries == [] then NULL_PRICE else c.summaries[|c.summaries| - 1].price
  }

  lemma RecordOnePhantom(c: S.Context, agg: nat, id: nat, price: Price, n: nat, phantom: nat, p: Price)
    requires AtLast(c) && price != NULL_PRICE
    ensures c.lastFillPrice == price ==> c.summaries != []
    ensures var t := S.RecordTrade(c, agg, id, price, n, phantom);
            AtLast(t) && PhantomQtyAt(t.summaries, p) == PhantomQtyAt(c.summaries, p) + if p == price then phantom else 0
  {
    hide PhantomQtyAt;
    var ss := c.summaries;
    var t := S.RecordTrade(c, agg, id, price, n, phantom);
    if c.lastFillPrice != price {
      PhantomSnoc(ss, t.summaries[|ss|], p);
    } else {
      var k := |ss| - 1;
      assert ss == ss[..k] + [ss[k]] && t.summaries == ss[..k] + [t.summaries[k]];
      PhantomSnoc(ss[..k], ss[k], p);
      PhantomSnoc(ss[..k], t.summaries[k], p);
    }
  }

  lemma {:induction false} RecordPhantom(c: S.Context, acts: seq<Action>, own: set<nat>, agg: nat, p: Price)
    requires AtLast(c) && RealPrices(acts)
    ensures c.lastFillPrice == NULL_PRICE || c.summaries != []
    ensures PhantomQtyAt(S.Record(c, acts, own, agg).summaries, p) == PhantomQtyAt(c.summaries, p) + PhantomFilled(acts, p, own)
    decreases |acts|
  {
    hide PhantomQtyAt, S.RecordTrade;
    if acts != [] {
      var a, rest := acts[0], acts[1..];
      assert forall i :: 0 <= i < |rest| ==> rest[i] == acts[i + 1];
      if a.Cancel? {
        RecordPhantom(c, rest, own, agg, p);
      } else {
        RecordOnePhantom(c, agg, a.id, a.price, a.qty, if a.id in own then 0 else a.qty, p);
        RecordPhantom(S.RecordTrade(c, agg, a.id, a.price, a.qty, if a.id in own then 0 else a.qty), rest, own, agg, p);
      }
    }
  }

  /** What the fills took of phantom orders is what the queue lost of them. */
  lemma {:induction false} FillsTakePhantom(q: seq<Resting>, acts: seq<Action>, p: Price, own: set<nat>)
    requires Distinct(q) && ActionsOk(q, acts) && forall i :: 0 <= i < |acts| ==> acts[i].Fill?
    ensures PhantomAt(ActAll(q, acts), p, own) + PhantomFilled(acts, p, own) == PhantomAt(q, p, own)
    decreases |acts|
  {
    hide View, Distinct, Resize, PhantomAt;
    if acts != [] {
      var a := acts[0];
      var n := View(q)[a.id].qty - a.qty;
      ResizePhantom(q, a.id, n, p, own);
      ResizeView(q, a.id, n);
      ViewIds(q);
      FillsTakePhantom(Act(q, a), acts[1..], p, own);
    }
  }

  lemma {:induction false} CreditAllCounts(m: Credits, side: Side, ss: seq<S.Summary>, time: nat, key: Key, asOf: nat)
    ensures Unreflected(CreditAll(m, side, ss, time), key, asOf)
            == Unreflected(m, key, asOf) + if key.0 == side && asOf < time then PhantomQtyAt(ss, key.1) else 0
    decreases |ss|
  {
    hide Unreflected, CreditTradedQty;
    if ss != [] {
      CreditCounts(m, (side, ss[0].price), ss[0].phantomQty, time, key, asOf);
      CreditAllCounts(CreditTradedQty(m, (side, ss[0].price), ss[0].phantomQty, time), side, ss[1..], time, key, asOf);
    }
  }

  /**
   A print credits, at every price of the side it traded with and with its own time, exactly the
   phantom quantity that side lost there; nothing is credited anywhere else.
   */
  lemma PrintCreditsWhatItTook(cfg: Config, x: Venue, side: Side, price: Price, qty: nat, time: nat, id: nat, priority: nat,
                               p: Price, asOf: nat)
    requires cfg.engine.Valid() && VenueInv(x) && Admissible(cfg, x, TradePrint(side, price, qty, time, id, priority))
    ensures var y, opp := Step(cfg, x, TradePrint(side, price, qty, time, id, priority)), Opposite(side);
            var took := PhantomAt(x.book.On(opp), p, x.book.orders) - PhantomAt(y.book.On(opp), p, x.book.orders);
            && took >= 0
            && Unreflected(y.credits, (opp, p), asOf) == Unreflected(x.credits, (opp, p), asOf) + (if asOf < time then took else 0)
            && Unreflected(y.credits, (side, p), asOf) == Unreflected(x.credits, (side, p), asOf)
  {
    hide Inv, MatchThenRest, Unreflected, CreditAll, S.Record, PhantomAt, Unused;
    Runs.DrawnStamp(cfg, x);
    var e, opp, r, n := cfg.engine, Opposite(side), Resting(id, price, qty, priority), Stamp(cfg, Drawn(cfg, x));
    PrintsAreCredited(e, x.book, side, r, n);
    PrintTakes(e, x.book, side, r, n, p);
    var m := MatchThenRest(e, x.book, side, r, n);
    var ss := S.Record(S.START, m.actions, x.book.orders, id).summaries;
    RecordPhantom(S.START, m.actions, x.book.orders, id, p);
    CreditAllCounts(x.credits, opp, ss, time, (opp, p), asOf);
    CreditAllCounts(x.credits, opp, ss, time, (side, p), asOf);
  }

  lemma PrintTakes(e: Engine, s: State, side: Side, r: Resting, n: nat, p: Price)
    requires e.Valid() && Inv(s, {}) && !s.Refuses(n) && Unused(s, r.id)
    ensures var m, opp := MatchThenRest(e, s, side, r, n), Opposite(side);
            PhantomAt(m.state.On(opp), p, s.orders) + PhantomFilled(m.actions, p, s.orders) == PhantomAt(s.On(opp), p, s.orders)
  {
    hide View, Inv, MatchFeed, Unused, ActionsOk, ActAll, FitsBeside, Shrinks, Insert, PhantomAt, Plan;
    var opp := Opposite(side);
    MatchFeedKeeps(e, s, side, r.price, r.qty, n);
    FeedFills(e, s, side, r.price, r.qty, n);
    var m := MatchFeed(e, s, side, r.price, r.qty, n);
    SideIsOk(s, opp);
    FillsTakePhantom(s.On(opp), m.actions, p, s.orders);
    if m.remaining > 0 {
      StillUnused(s, m.state, opp, r.id);
      AddShapeOpposite(m.state, side, r.(qty := m.remaining), n);
    }
  }

  lemma AddShapeOpposite(s: State, side: Side, x: Resting, n: nat)
    ensures L3Add(s, side, x, n).On(Opposite(side)) == s.On(Opposite(side))
  {
    hide Insert;
  }

  lemma FeedFills(e: Engine, s: State, side: Side, price: Price, qty: nat, n: nat)
    requires e.Valid() && Inv(s, {})
    ensures var m := MatchFeed(e, s, side, price, qty, n); forall i :: 0 <= i < |m.actions| ==> m.actions[i].Fill?
  {
    hide Inv, Plan, ApplyAll;
    var t := FeedTerms(side, price);
    SideIsOk(s, t.side);
    Requests.PlanCancelsOwn(e, t, s.On(t.side), qty, {});
    NoSelfNoCancel(Plan(e, t, s.On(t.side), qty).actions);
  }

  // ----- what an update gets out

  /**
   An update that is not stale, of a price at which something rests. The level shows the reported quantity
   less what prints took that the update does not reflect: growth joins as one new order, a reduction trims
   the level to its front. Our own orders, every other price and the other side stay as they were, and the
   credits the update reflects are forgotten.
   */
  lemma ExistingLevelLaw(cfg: Config, x: Venue, side: Side, price: Price, qty: nat, time: nat, id: nat, priority: nat, at: nat)
    requires cfg.engine.Valid() && VenueInv(x) && Admissible(cfg, x, LevelUpdate(side, price, qty, time, id, priority))
    requires !(cfg.stamps && time < x.lastUpdate) && at in View(x.book.On(side)) && View(x.book.On(side))[at].price == price
    ensures var s, y := x.book, Step(cfg, x, LevelUpdate(side, price, qty, time, id, priority));
            var owed, had := Unreflected(x.credits, (side, price), time), PhantomAt(s.On(side), price, s.orders);
            var target := if owed < qty then qty - owed else 0;
            && SameOwners(s, y.book) && y.book.reports == s.reports && y.book.On(Opposite(side)) == s.On(Opposite(side))
            && OwnUntouched(s, y.book, side)
            && (forall p: Price :: PhantomAt(y.book.On(side), p, s.orders) == if p == price then target else PhantomAt(s.On(side), p, s.orders))
            && y.book.On(side) == (if target > had then Insert(side, s.On(side), Resting(id, price, target - had, priority))
                                   else Reconcile.Trimmed(s.On(side), price, s.orders, target))
            && y.credits == TakeTradedQty(x.credits, (side, price), time).0
  {
    hide View, Inv, ReconcileLevel, PhantomAt, Insert, Reconcile.Trimmed, Unused, OwnUntouched, TakeTradedQty;
    Runs.DrawnStamp(cfg, x);
    var owed := Unreflected(x.credits, (side, price), time);
    assert RestsAt(x.book.On(side), price);
    ReconcileExact(x.book, side, price, Offset(qty, owed), id, priority, Stamp(cfg, Drawn(cfg, x)));
  }

  /**
   A print followed by an update of a level it traded at. An update stamped before the print shows the
   reported quantity less what the print took there; one stamped with it or after shows it in full.
   What older prints still owe comes off as well.
   */
  lemma UpdateAfterPrint(cfg: Config, x: Venue, trade: Event, level: Event)
    requires cfg.engine.Valid() && VenueInv(x) && trade.TradePrint? && Admissible(cfg, x, trade)
    requires level.LevelUpdate? && level.side == Opposite(trade.side) && Admissible(cfg, Step(cfg, x, trade), level)
    requires !(cfg.stamps && level.time < Step(cfg, x, trade).lastUpdate)
    requires var q := Step(cfg, x, trade).book.On(level.side); exists at :: at in View(q) && View(q)[at].price == level.price
    ensures var y, side, p := Step(cfg, x, trade), level.side, level.price;
            var t := Step(cfg, y, level).book;
            var took := PhantomAt(x.book.On(side), p, x.book.orders) - PhantomAt(y.book.On(side), p, x.book.orders);
            var owed := Unreflected(x.credits, (side, p), level.time) + if level.time < trade.time then took else 0;
            PhantomAt(t.On(side), p, t.orders) == if owed < level.qty then level.qty - owed else 0
  {
    hide Inv, Step, HandleLevel, PhantomAt, Unused, View, TakeTradedQty;
    PrintCreditsWhatItTook(cfg, x, trade.side, trade.price, trade.qty, trade.time, trade.id, trade.priority, level.price, level.time);
    Runs.StepKeeps(cfg, x, trade);
    var y, r := Step(cfg, x, trade), Resting(level.id, level.price, level.qty, level.priority);
    ExistingShows(cfg, y, level.side, r, level.time);
    UpdateShows(cfg, y, level.side, level.price, level.qty, level.time, level.id, level.priority);
  }
}
