/** The credit table of a running exchange is the one its history of trades and updates determines. */
module CreditRuns {
  import opened Types
  import opened Queue
  import opened BookState
  import opened BookInvariant
  import opened Feed
  import opened FeedMatching
  import opened Exchange
  import opened MatchPlan
  import opened Matching
  import Runs
  import TradeCredits
  import TradeSummaries

  function CreditOps(side: Side, ss: seq<TradeSummaries.Summary>, time: nat): seq<TradeCredits.Op> {
    if ss == [] then []
    else [TradeCredits.Traded((side, ss[0].price), ss[0].phantomQty, time)] + CreditOps(side, ss[1..], time)
  }

  /** What one event adds to the history: a take per reconciled level, a credit per traded price. */
  ghost function EventOps(cfg: Config, x: Venue, ev: Event): seq<TradeCredits.Op>
    requires cfg.engine.Valid()
  {
    match ev
    case LevelUpdate(side, price, _, time, _, _) =>
      if (cfg.stamps && time < x.lastUpdate) || !HasLevel(x.book, side, price) then []
      else [TradeCredits.Taken((side, price), time)]
    case TradePrint(side, price, qty, time, id, priority) =>
      var m := MatchThenRest(cfg.engine, x.book, side, Resting(id, price, qty, priority), Stamp(cfg, Drawn(cfg, x)));
      if RealPrices(m.actions) then
        CreditOps(Opposite(side),
                  TradeSummaries.Record(TradeSummaries.START, m.actions, x.book.orders, id).summaries, time)
      else []
    case _ => []
  }

  ghost function History(cfg: Config, x: Venue, run: seq<Event>): seq<TradeCredits.Op>
    requires cfg.engine.Valid()
    decreases |run|
  {
    if run == [] then [] else EventOps(cfg, x, run[0]) + History(cfg, Step(cfg, x, run[0]), run[1..])
  }

  lemma AppendOp(h: seq<TradeCredits.Op>, op: TradeCredits.Op)
    ensures TradeCredits.Run(h + [op]) ==
            if op.Traded? then TradeCredits.CreditTradedQty(TradeCredits.Run(h), op.key, op.qty, op.time)
            else TradeCredits.TakeTradedQty(TradeCredits.Run(h), op.key, op.asOf).0
  {
    assert (h + [op])[..|h|] == h;
  }

  lemma {:induction false} CreditAllIs(h: seq<TradeCredits.Op>, side: Side, ss: seq<TradeSummaries.Summary>, time: nat)
    ensures CreditAll(TradeCredits.Run(h), side, ss, time) == TradeCredits.Run(h + CreditOps(side, ss, time))
    decreases |ss|
  {
    hide TradeCredits.Run, TradeCredits.CreditTradedQty;
    if ss == [] {
      assert h + [] == h;
    } else {
      var op := TradeCredits.Traded((side, ss[0].price), ss[0].phantomQty, time);
      AppendOp(h, op);
      CreditAllIs(h + [op], side, ss[1..], time);
      assert (h + [op]) + CreditOps(side, ss[1..], time) == h + CreditOps(side, ss, time);
    }
  }

  lemma EventCredits(cfg: Config, x: Venue, ev: Event, h: seq<TradeCredits.Op>)
    requires cfg.engine.Valid() && x.credits == TradeCredits.Run(h)
    ensures Step(cfg, x, ev).credits == TradeCredits.Run(h + EventOps(cfg, x, ev))
  {
    hide TradeCredits.Run, TradeCredits.TakeTradedQty, CreditAll, CreditOps, MatchThenRest, MatchFeed, ReconcileLevel, HasLevel;
    hide TradeSummaries.Record;
    assert h + [] == h;
    if ev.LevelUpdate? {
      AppendOp(h, TradeCredits.Taken((ev.side, ev.price), ev.time));
    } else if ev.TradePrint? {
      var r := Resting(ev.id, ev.price, ev.qty, ev.priority);
      var m := MatchThenRest(cfg.engine, x.book, ev.side, r, Stamp(cfg, Drawn(cfg, x)));
      if RealPrices(m.actions) {
        CreditAllIs(h, Opposite(ev.side),
                    TradeSummaries.Record(TradeSummaries.START, m.actions, x.book.orders, ev.id).summaries, ev.time);
      }
    }
  }

  /** In a consistent book a print only ever trades at real prices, so every print is credited. */
  lemma PrintsAreCredited(e: Engine, s: State, side: Side, x: Resting, seqNum: nat)
    requires e.Valid() && Inv(s, {})
    ensures RealPrices(MatchThenRest(e, s, side, x, seqNum).actions)
  {
    hide Inv, ApplyAll, Plan;
    var t := FeedTerms(side, x.price);
    SideIsOk(s, t.side);
    TradeSummaries.PlanWorsens(e, t, s.On(t.side), x.qty);
  }

  lemma {:induction false} RunCredits(cfg: Config, x: Venue, run: seq<Event>, h: seq<TradeCredits.Op>)
    requires cfg.engine.Valid() && x.credits == TradeCredits.Run(h)
    ensures Runs.Run(cfg, x, run).credits == TradeCredits.Run(h + History(cfg, x, run))
    decreases |run|
  {
    hide Step, EventOps, TradeCredits.Run;
    if run == [] {
      assert h + [] == h;
    } else {
      EventCredits(cfg, x, run[0], h);
      RunCredits(cfg, Step(cfg, x, run[0]), run[1..], h + EventOps(cfg, x, run[0]));
      assert (h + EventOps(cfg, x, run[0])) + History(cfg, Step(cfg, x, run[0]), run[1..]) == h + History(cfg, x, run);
    }
  }

  /** After any run of the exchange the credit table is what its history determines, and takes answer from it. */
  lemma TableIsItsHistory(cfg: Config, run: seq<Event>, key: TradeCredits.Key, asOf: nat)
    requires cfg.engine.Valid()
    ensures var h := History(cfg, START, run);
            && TradeCredits.Refines(Runs.Run(cfg, START, run).credits, h)
            && TradeCredits.TakeTradedQty(Runs.Run(cfg, START, run).credits, key, asOf).1
               == TradeCredits.Outstanding(h, key, asOf, |h|)
  {
    assert START.credits == TradeCredits.Run([]);
    RunCredits(cfg, START, run, []);
    var h := History(cfg, START, run);
    assert [] + h == h;
    TradeCredits.CreditsRefineHistory(h, key, asOf);
  }

  // ----- what a level update leaves

  /** The phantom quantity a level shows after an update that is not stale. */
  ghost function Shown(cfg: Config, x: Venue, side: Side, r: Resting, time: nat): nat
    requires cfg.engine.Valid()
  {
    var t := HandleLevel(cfg, Drawn(cfg, x), side, r, time).book;
    PhantomAt(t.On(side), r.price, t.orders)
  }

  lemma ExistingShows(cfg: Config, x: Venue, side: Side, r: Resting, time: nat)
    requires cfg.engine.Valid() && VenueInv(x) && Unused(x.book, r.id) && r.price != NULL_PRICE
    requires !(cfg.stamps && time < x.lastUpdate) && HasLevel(x.book, side, r.price)
    ensures Shown(cfg, x, side, r, time)
            == Offset(r.qty, TradeCredits.TakeTradedQty(x.credits, (side, r.price), time).1)
  {
    hide Inv, HasLevel, TradeCredits.TakeTradedQty, ReconcileLevel, PhantomAt;
    Runs.DrawnStamp(cfg, x);
    var y := Drawn(cfg, x);
    var target := Offset(r.qty, TradeCredits.TakeTradedQty(x.credits, (side, r.price), time).1);
    ReconcileExact(x.book, side, r.price, target, r.id, r.priority, Stamp(cfg, y));
  }

  lemma NewShows(cfg: Config, x: Venue, side: Side, r: Resting, time: nat)
    requires cfg.engine.Valid() && VenueInv(x) && Unused(x.book, r.id) && r.price != NULL_PRICE
    requires !(cfg.stamps && time < x.lastUpdate) && !HasLevel(x.book, side, r.price)
    requires r.qty == 0 || FitsBeside(x.book, side, r.price)
    ensures Shown(cfg, x, side, r, time) == r.qty
  {
    hide View, Distinct, Sorted, AllReal, PhantomAt, LookupsOk, RestsAsRecorded, IndexOk, Uncrossed, FitsBeside, HasLevel, MatchFeed, Insert;
    Runs.DrawnStamp(cfg, x);
    var y := Drawn(cfg, x);
    var n := Stamp(cfg, y);
    NothingCrosses(cfg.engine, x.book, side, r.price, r.qty, n);
    LevelIsNew(x.book, side, r.price);
    assert x.book.orders <= x.book.pool.Keys;
    if r.qty > 0 {
      assert r.(qty := r.qty) == r;
      AddShape(x.book, side, r, n);
      var t := L3Add(x.book, side, r, n);
      assert t.On(side) == Insert(side, x.book.On(side), r);
      SideIsOk(x.book, side);
      InsertPhantom(side, x.book.On(side), r, r.price, x.book.orders);
    }
  }

  /** When a level update that crosses nothing is offset by the trades it has not seen. */
  ghost predicate Offsets(x: Venue, side: Side, price: Price, qty: nat, unreflected: nat) {
    HasLevel(x.book, side, price) || qty == 0 || unreflected == 0
  }

  /**
   After any run, an update of an existing level shows the reported quantity less exactly the phantom
   quantity that prints stamped after it took at its price and that no update since has accounted for. A
   new level that crosses nothing shows the reported quantity as it is, so that among all updates that
   cross nothing those offset as they should be are the ones of an existing level, of nothing, or with
   no such print.
   */
  lemma UpdatesOffsetTheirTrades(cfg: Config, run: seq<Event>, side: Side, price: Price, qty: nat, time: nat, id: nat, priority: nat)
    requires cfg.engine.Valid() && Runs.AdmissibleRun(cfg, START, run)
    requires Admissible(cfg, Runs.Run(cfg, START, run), LevelUpdate(side, price, qty, time, id, priority))
    requires !(cfg.stamps && time < Runs.Run(cfg, START, run).lastUpdate)
    ensures var x, h := Runs.Run(cfg, START, run), History(cfg, START, run);
            var t := Step(cfg, x, LevelUpdate(side, price, qty, time, id, priority)).book;
            var unreflected := TradeCredits.Outstanding(h, (side, price), time, |h|);
            var shown := PhantomAt(t.On(side), price, t.orders);
            var less := if unreflected < qty then qty - unreflected else 0;
            && (HasLevel(x.book, side, price) ==> shown == less)
            && (HasLevel(x.book, side, price) || qty == 0 || FitsBeside(x.book, side, price) ==>
                  (shown == less <==> Offsets(x, side, price, qty, unreflected)))
  {
    hide Runs.Run, Runs.AdmissibleRun, VenueInv, HasLevel, TradeCredits.TakeTradedQty, TradeCredits.Refines, TradeCredits.Outstanding, HandleLevel, FitsBeside, Unused;
    Runs.StartInv();
    Runs.RunKeeps(cfg, START, run);
    TableIsItsHistory(cfg, run, (side, price), time);
    var x, r := Runs.Run(cfg, START, run), Resting(id, price, qty, priority);
    if HasLevel(x.book, side, price) {
      ExistingShows(cfg, x, side, r, time);
    } else if qty == 0 || FitsBeside(x.book, side, price) {
      NewShows(cfg, x, side, r, time);
    }
  }

  // ----- an update of a level the print swept

  const PLAIN := Config(Fifo, SmpNone, false)

  const SWEPT: seq<Event> := [LevelUpdate(Sell, 100, 5, 1, 1, 1), TradePrint(Buy, 100, 5, 10, 2, 2)]

  const OFFERED: State := EMPTY.(asks := [Resting(1, 100, 5, 1)], md := map[100 := 5])

  lemma FirstLevelRests()
    ensures Admissible(PLAIN, START, SWEPT[0]) && Step(PLAIN, START, SWEPT[0]) == START.(book := OFFERED, lastUpdate := 1)
  {
    EmptyInv();
    NothingCrosses(Fifo, EMPTY, Sell, 100, 5, 0);
    hide MatchFeed;
    assert View(EMPTY.asks) == map[];
    assert !HasLevel(EMPTY, Sell, 100);
    var x := Resting(1, 100, 5, 1);
    assert x.(qty := 5) == x;
    assert EMPTY.WithSide(Sell, [x]).asks == [x];
    assert L3Add(EMPTY, Sell, x, 0) == OFFERED;
  }

  lemma PrintSweeps()
    ensures var x := Venue(OFFERED, map[], 0, 1, 0);
            && Admissible(PLAIN, x, SWEPT[1])
            && Step(PLAIN, x, SWEPT[1]).credits == map[(Sell, 100) := [TradeCredits.Credit(5, 10)]]
            && Step(PLAIN, x, SWEPT[1]).book.bids == [] && Step(PLAIN, x, SWEPT[1]).book.asks == []
            && Step(PLAIN, x, SWEPT[1]).book.pool == map[]
  {
    var x, q := Venue(OFFERED, map[], 0, 1, 0), OFFERED.asks;
    assert q[1..] == [] && View(q) == map[1 := q[0]];
    var t := FeedTerms(Buy, 100);
    var a := Fill(1, 100, 5);
    assert FifoPlan(t, q[1..], 0) == Outcome([], 0, false);
    assert FifoPlan(t, q, 5) == Outcome([a], 0, false) by {
      assert [a] + [] == [a];
    }
    assert Ready(OFFERED, Sell, None, a);
    assert Resize(q, 1, 0) == [];
    assert [a][1..] == [];
    var s := Apply(OFFERED, Sell, None, a, 0);
    assert s.asks == [] && s.bids == [] && s.pool == map[];
    var m := MatchThenRest(Fifo, OFFERED, Buy, Resting(2, 100, 5, 2), 0);
    assert m.state == s && m.actions == [a] && m.remaining == 0;
    var c := TradeSummaries.Record(TradeSummaries.START, [a], {}, 2);
    assert c.summaries == [TradeSummaries.Summary(100, 5, 5, 2, [TradeSummaries.Leg(2, 5), TradeSummaries.Leg(1, 5)])];
    assert c.summaries[1..] == [];
    var key: TradeCredits.Key := (Sell, 100);
    assert TradeCredits.CreditTradedQty(map[], key, 5, 10) == map[key := [TradeCredits.Credit(5, 10)]];
    assert CreditAll(map[], Sell, c.summaries, 10) == map[key := [TradeCredits.Credit(5, 10)]];
    assert RealPrices(m.actions);
    assert Step(PLAIN, x, SWEPT[1]) == HandlePrint(PLAIN, x, Buy, Resting(2, 100, 5, 2), 10);
  }

  /**
   Five offered at 100 are swept by a print stamped 10. An update stamped 8 still reports the five, and
   they rest again, although the history says that all of them have traded.
   */
  lemma SweptLevelIsNotOffset()
    ensures Runs.AdmissibleRun(PLAIN, START, SWEPT)
    ensures var x, ev := Runs.Run(PLAIN, START, SWEPT), LevelUpdate(Sell, 100, 5, 8, 3, 3);
            var h := History(PLAIN, START, SWEPT);
            var t := Step(PLAIN, x, ev).book;
            && Admissible(PLAIN, x, ev)
            && TradeCredits.Outstanding(h, (Sell, 100), 8, |h|) == 5
            && PhantomAt(t.On(Sell), 100, t.orders) == 5 != Offset(5, 5)
  {
    FirstLevelRests();
    PrintSweeps();
    hide Step, Admissible;
    assert SWEPT[1..] == [SWEPT[1]] && SWEPT[1..][1..] == [];
    var x := Runs.Run(PLAIN, START, SWEPT);
    assert x == Step(PLAIN, Venue(OFFERED, map[], 0, 1, 0), SWEPT[1]);
    assert View(x.book.bids) == map[] && View(x.book.asks) == map[];
    AfterTheSweep(x);
    Runs.StartInv();
    Runs.RunKeeps(PLAIN, START, SWEPT);
    NewShows(PLAIN, x, Sell, Resting(3, 100, 5, 3), 8);
    UpdateShows(PLAIN, x, Sell, 100, 5, 8, 3, 3);
    TableIsItsHistory(PLAIN, SWEPT, (Sell, 100), 8);
  }

  lemma UpdateShows(cfg: Config, x: Venue, side: Side, price: Price, qty: nat, time: nat, id: nat, priority: nat)
    requires cfg.engine.Valid()
    ensures var t := Step(cfg, x, LevelUpdate(side, price, qty, time, id, priority)).book;
            PhantomAt(t.On(side), price, t.orders) == Shown(cfg, x, side, Resting(id, price, qty, priority), time)
  {
    hide HandleLevel, PhantomAt;
  }

  lemma AfterTheSweep(x: Venue)
    requires x.credits == map[(Sell, 100) := [TradeCredits.Credit(5, 10)]]
    requires x.book.bids == [] && x.book.asks == [] && x.book.pool == map[]
    ensures TradeCredits.TakeTradedQty(x.credits, (Sell, 100), 8).1 == 5
    ensures !HasLevel(x.book, Sell, 100) && FitsBeside(x.book, Sell, 100) && Admissible(PLAIN, x, LevelUpdate(Sell, 100, 5, 8, 3, 3))
  {
    var cs := [TradeCredits.Credit(5, 10)];
    assert cs[1..] == [];
    assert TradeCredits.Kept(cs, 8) == cs;
    assert View(x.book.bids) == map[] && View(x.book.asks) == map[];
  }
}
