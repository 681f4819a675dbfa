/** FIFO and pro-rata differ only in who is filled at a level, never in how much trades there. */
module EngineAgreement {
  import opened Types
  import opened Queue
  import opened MatchPlan
  import ProRata
  import PreChecks

  /** No order of the level turns the aggressor back. */
  ghost predicate Passes(t: Terms, level: seq<Resting>) {
    forall i :: 0 <= i < |level| ==>
      Crosses(t.side, level[i].price, t.limit) && level[i].qty > 0 && !(t.smp == CancelNewest && t.Blocks(level[i]))
  }

  /** FIFO works through a queue level by level. */
  lemma {:induction false} FifoByLevel(t: Terms, level: seq<Resting>, rest: seq<Resting>, qty: nat)
    requires Passes(t, level)
    ensures !FifoPlan(t, level, qty).rejected
    ensures FifoPlan(t, level, qty).remaining == qty - Min(qty, Total(Kept(t, level)))
    ensures FifoPlan(t, level + rest, qty) ==
            FifoPlan(t, rest, FifoPlan(t, level, qty).remaining).After(FifoPlan(t, level, qty).actions)
  {
    if level == [] {
      assert level + rest == rest;
      assert FifoPlan(t, rest, qty).After([]) == FifoPlan(t, rest, qty);
    } else if qty == 0 {
      assert FifoPlan(t, rest, 0).actions == [];
    } else {
      assert Passes(t, level[1..]);
      hide FifoPlan, Kept, Total;
      FifoByLevel(t, level[1..], rest, if t.Blocks(level[0]) then qty else qty - Min(qty, level[0].qty));
      FifoLevelStep(t, level, rest, qty);
    }
  }

  lemma FifoLevelStep(t: Terms, level: seq<Resting>, rest: seq<Resting>, qty: nat)
    requires Passes(t, level) && level != [] && qty > 0
    requires var n := if t.Blocks(level[0]) then 0 else Min(qty, level[0].qty);
             var inner := FifoPlan(t, level[1..], qty - n);
             && !inner.rejected && inner.remaining == qty - n - Min(qty - n, Total(Kept(t, level[1..])))
             && FifoPlan(t, level[1..] + rest, qty - n) == FifoPlan(t, rest, inner.remaining).After(inner.actions)
    ensures !FifoPlan(t, level, qty).rejected
    ensures FifoPlan(t, level, qty).remaining == qty - Min(qty, Total(Kept(t, level)))
    ensures FifoPlan(t, level + rest, qty) ==
            FifoPlan(t, rest, FifoPlan(t, level, qty).remaining).After(FifoPlan(t, level, qty).actions)
  {
    hide FifoPlan, Kept, Total;
    var all := level + rest;
    assert all[0] == level[0] && all[1..] == level[1..] + rest;
    FifoHead(t, all, qty);
    FifoHead(t, level, qty);
    KeptCons(t, level);
    var n := if t.Blocks(level[0]) then 0 else Min(qty, level[0].qty);
    var first := if t.Blocks(level[0]) then Cancel(level[0].id) else Fill(level[0].id, level[0].price, n);
    var inner := FifoPlan(t, level[1..], qty - n);
    Chained(FifoPlan(t, rest, inner.remaining), inner, first);
  }

  lemma Chained(o: Outcome, inner: Outcome, first: Action)
    ensures o.After(inner.actions).After([first]) == o.After(inner.After([first]).actions)
  {
    AfterTwice(o, first, inner.actions);
  }

  /** FIFO deals with the order at the front and goes on behind it. */
  lemma FifoHead(t: Terms, q: seq<Resting>, qty: nat)
    requires q != [] && qty > 0 && Crosses(t.side, q[0].price, t.limit)
    requires !(t.smp == CancelNewest && t.Blocks(q[0]))
    ensures var n := if t.Blocks(q[0]) then 0 else Min(qty, q[0].qty);
            var first := if t.Blocks(q[0]) then Cancel(q[0].id) else Fill(q[0].id, q[0].price, n);
            FifoPlan(t, q, qty) == FifoPlan(t, q[1..], qty - n).After([first])
  {
  }

  lemma KeptCons(t: Terms, level: seq<Resting>)
    requires level != []
    ensures Total(Kept(t, level)) == (if t.Blocks(level[0]) then 0 else level[0].qty) + Total(Kept(t, level[1..]))
  {
    if !t.Blocks(level[0]) {
      assert Kept(t, level)[1..] == Kept(t, level[1..]);
    }
  }

  lemma AfterTwice(o: Outcome, first: Action, acts: seq<Action>)
    ensures o.After(acts).After([first]) == o.After([first] + acts)
  {
    assert [first] + (acts + o.actions) == ([first] + acts) + o.actions;
  }

  lemma {:induction false} FifoLevelFills(t: Terms, level: seq<Resting>, qty: nat, p: Price, p': Price)
    requires Passes(t, level)
    requires forall i :: 0 <= i < |level| ==> level[i].price == p
    ensures FilledAt(FifoPlan(t, level, qty).actions, p') ==
            if p' == p then Min(qty, Total(Kept(t, level))) else 0
  {
    if level != [] && qty > 0 {
      var x, more := level[0], level[1..];
      var n := if t.Blocks(x) then 0 else Min(qty, x.qty);
      FifoLevelFills(t, more, qty - n, p, p');
      KeptCons(t, level);
      assert FifoPlan(t, level, qty).actions[1..] == FifoPlan(t, more, qty - n).actions;
    }
  }

  lemma LevelActionsFill(split: Splitting, t: Terms, q: seq<Resting>, qty: nat, p: Price)
    requires ProRata.Exact(split) && WellFormed(t.side, q) && q != []
    ensures FilledAt(LevelActions(split, t, q, qty), p) ==
            if p == q[0].price then Min(qty, Total(Kept(t, Front(q)))) else 0
  {
    FrontBehind(t.side, q);
    KeptMembers(t, Front(q));
    var kept := Kept(t, Front(q));
    SizesTotal(kept);
    LevelFillsSum(kept, split(Sizes(kept), qty), q[0].price);
    CancelsFillNothing(t, Front(q), p);
    FilledConcat(Cancels(t, Front(q)), Split(split, kept, qty), p);
  }

  lemma FrontPasses(split: Splitting, t: Terms, q: seq<Resting>, qty: nat)
    requires WellFormed(t.side, q) && !t.Stops(q, qty) && !ProRataPlan(split, t, q, qty).rejected
    ensures Passes(t, Front(q))
  {
    FrontBehind(t.side, q);
    KeptMembers(t, Front(q));
  }

  /**
   Whatever the lot size, minimum and percentage, and in every SMP mode the pro-rata loop is not
   turned back in, the two engines trade the same quantity at every price and leave the same rest.
   */
  lemma {:induction false} SameQuantityAtEveryPrice(split: Splitting, t: Terms, q: seq<Resting>, qty: nat, p: Price)
    requires ProRata.Exact(split) && WellFormed(t.side, q) && !ProRataPlan(split, t, q, qty).rejected
    ensures FilledAt(FifoPlan(t, q, qty).actions, p) == FilledAt(ProRataPlan(split, t, q, qty).actions, p)
    ensures FifoPlan(t, q, qty).remaining == ProRataPlan(split, t, q, qty).remaining
    ensures !FifoPlan(t, q, qty).rejected
    decreases |q|
  {
    if !t.Stops(q, qty) {
      FrontPasses(split, t, q, qty);
      FrontBehind(t.side, q);
      var left := qty - Min(qty, Total(Kept(t, Front(q))));
      SameQuantityAtEveryPrice(split, t, Behind(q), left, p);
      FifoByLevel(t, Front(q), Behind(q), qty);
      FifoLevelFills(t, Front(q), qty, q[0].price, p);
      LevelActionsFill(split, t, q, qty, p);
      FilledConcat(FifoPlan(t, Front(q), qty).actions, FifoPlan(t, Behind(q), left).actions, p);
      FilledConcat(LevelActions(split, t, q, qty), ProRataPlan(split, t, Behind(q), left).actions, p);
    }
  }

  // ----- at 100 percent the engines are the same engine

  lemma {:induction false} FifoLevelIsFifoShares(t: Terms, level: seq<Resting>, qty: nat)
    requires t.smp == SmpNone && Passes(t, level)
    ensures LevelFills(level, ProRata.FifoShares(Sizes(level), qty)) == FifoPlan(t, level, qty).actions
  {
    if level != [] {
      var x, more := level[0], level[1..];
      var n := Min(qty, x.qty);
      var shares := ProRata.FifoShares(Sizes(level), qty);
      assert Sizes(level)[1..] == Sizes(more);
      assert shares[1..] == ProRata.FifoShares(Sizes(more), qty - n);
      FifoLevelIsFifoShares(t, more, qty - n);
      if qty == 0 {
        assert FifoPlan(t, more, 0).actions == [];
      }
    }
  }

  lemma {:induction false} NothingBlocked(t: Terms, level: seq<Resting>)
    requires t.smp == SmpNone
    ensures Kept(t, level) == level && Cancels(t, level) == []
  {
    if level != [] {
      NothingBlocked(t, level[1..]);
    }
  }

  ghost predicate InQueueOrder(split: Splitting) {
    forall sizes: seq<nat>, qty: nat :: split(sizes, qty) == ProRata.FifoShares(sizes, qty)
  }

  /** Splitting a level in queue order does there what FIFO does. */
  lemma LevelInQueueOrder(split: Splitting, t: Terms, q: seq<Resting>, qty: nat)
    requires InQueueOrder(split) && WellFormed(t.side, q) && t.smp == SmpNone && !t.Stops(q, qty)
    ensures Kept(t, Front(q)) == Front(q) && LevelActions(split, t, q, qty) == FifoPlan(t, Front(q), qty).actions
    ensures FifoPlan(t, Front(q), qty).remaining == qty - Min(qty, Total(Front(q)))
    ensures FifoPlan(t, q, qty) ==
            FifoPlan(t, Behind(q), FifoPlan(t, Front(q), qty).remaining).After(FifoPlan(t, Front(q), qty).actions)
  {
    hide View, WellFormed, Total, Crosses;
    FrontBehind(t.side, q);
    NothingBlocked(t, Front(q));
    FifoByLevel(t, Front(q), Behind(q), qty);
    FifoLevelIsFifoShares(t, Front(q), qty);
    hide Front, Behind, Kept, Cancels, FifoPlan, LevelFills, Passes;
    assert split(Sizes(Front(q)), qty) == ProRata.FifoShares(Sizes(Front(q)), qty);
  }

  lemma {:induction false} QueueOrderSplitIsFifo(split: Splitting, t: Terms, q: seq<Resting>, qty: nat)
    requires InQueueOrder(split) && WellFormed(t.side, q) && t.smp == SmpNone
    ensures ProRataPlan(split, t, q, qty) == FifoPlan(t, q, qty)
    decreases |q|
  {
    hide View, Front, Behind, Kept, FifoPlan, ProRataPlan, LevelActions, InQueueOrder, WellFormed, Total, Crosses;
    if t.Stops(q, qty) {
      BothStop(split, t, q, qty);
    } else {
      FrontBehind(t.side, q);
      LevelInQueueOrder(split, t, q, qty);
      ProRataHead(split, t, q, qty);
      QueueOrderSplitIsFifo(split, t, Behind(q), qty - Min(qty, Total(Front(q))));
    }
  }

  lemma BothStop(split: Splitting, t: Terms, q: seq<Resting>, qty: nat)
    requires t.Stops(q, qty)
    ensures ProRataPlan(split, t, q, qty) == FifoPlan(t, q, qty)
  {
  }

  lemma ProRataHead(split: Splitting, t: Terms, q: seq<Resting>, qty: nat)
    requires !t.Stops(q, qty) && t.smp == SmpNone
    ensures |Behind(q)| < |q|
    ensures ProRataPlan(split, t, q, qty) ==
            ProRataPlan(split, t, Behind(q), qty - Min(qty, Total(Kept(t, Front(q))))).After(LevelActions(split, t, q, qty))
  {
    hide Front, Kept, Total, LevelActions;
  }

  /** With `fifo_percent` 100 and SMP off, pro-rata takes exactly FIFO's actions, for any lot size and minimum. */
  lemma HundredPercentIsFifo(cfg: ProRata.Config, t: Terms, q: seq<Resting>, qty: nat)
    requires cfg.Valid() && cfg.fifoPercent == 100 && WellFormed(t.side, q) && t.smp == SmpNone
    ensures Plan(ProRataEngine(cfg), t, q, qty) == Plan(Fifo, t, q, qty)
  {
    forall sizes: seq<nat>, qty: nat
      ensures ProRata.Splitter(cfg)(sizes, qty) == ProRata.FifoShares(sizes, qty)
    {
      ProRata.HundredPercentIsFifo(cfg, sizes, qty);
    }
    QueueOrderSplitIsFifo(ProRata.Splitter(cfg), t, q, qty);
  }

  /** The agreement, in terms of configured engines. */
  lemma EnginesAgree(cfg: ProRata.Config, t: Terms, q: seq<Resting>, qty: nat)
    requires cfg.Valid() && WellFormed(t.side, q)
    requires t.smp == CancelNewest ==> !PreChecks.InReach(ProRataEngine(cfg), t, q, qty)
    ensures var a, b := Plan(Fifo, t, q, qty), Plan(ProRataEngine(cfg), t, q, qty);
            && a.remaining == b.remaining && !a.rejected && !b.rejected
            && forall p :: FilledAt(a.actions, p) == FilledAt(b.actions, p)
  {
    ProRata.SplitterExact(cfg);
    if t.smp == CancelNewest {
      PreChecks.BackstopExact(ProRataEngine(cfg), t, q, qty);
    } else {
      PreChecks.NeverRejected(ProRata.Splitter(cfg), t, q, qty);
    }
    forall p
      ensures FilledAt(Plan(Fifo, t, q, qty).actions, p) == FilledAt(Plan(ProRataEngine(cfg), t, q, qty).actions, p)
    {
      SameQuantityAtEveryPrice(ProRata.Splitter(cfg), t, q, qty, p);
    }
    SameQuantityAtEveryPrice(ProRata.Splitter(cfg), t, q, qty, 0);
  }
}
