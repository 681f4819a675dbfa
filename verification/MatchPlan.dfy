/**
 What one match does to the resting side, as a list of actions. Both engines are described by the
 actions they take; the pre-checks, the engines' agreement and conservation are theorems about them.
 */
module MatchPlan {
  import opened Types
  import opened Queue
  import ProRata

  /** A fill of a resting order, or the self-match cancel of one. */
  datatype Action = Fill(id: nat, price: Price, qty: nat) | Cancel(id: nat)

  /** `rejected` is the CANCEL_NEWEST backstop: the loop met one of the aggressor owner's orders. */
  datatype Outcome = Outcome(actions: seq<Action>, remaining: nat, rejected: bool) {
    function After(first: seq<Action>): Outcome {
      this.(actions := first + actions)
    }
  }

  datatype Engine = Fifo | ProRataEngine(cfg: ProRata.Config) {
    predicate Valid() {
      ProRataEngine? ==> cfg.Valid()
    }
  }

  /** The resting side, the aggressor's limit, the SMP mode, and the owner's other orders. */
  datatype Terms = Terms(side: Side, limit: Price, smp: SmpMode, self: set<nat>) {
    predicate Stops(q: seq<Resting>, qty: nat) {
      qty == 0 || q == [] || !Crosses(side, q[0].price, limit)
    }

    predicate Blocks(x: Resting) {
      smp != SmpNone && x.id in self
    }
  }

  // ----- FIFO

  function FifoPlan(t: Terms, q: seq<Resting>, qty: nat): Outcome {
    if t.Stops(q, qty) then Outcome([], qty, false)
    else if t.Blocks(q[0]) then
      if t.smp == CancelNewest then Outcome([], qty, true)
      else FifoPlan(t, q[1..], qty).After([Cancel(q[0].id)])
    else
      var n := Min(qty, q[0].qty);
      FifoPlan(t, q[1..], qty - n).After([Fill(q[0].id, q[0].price, n)])
  }

  // ----- pro-rata, for any exact way of splitting a level

  type Splitting = (seq<nat>, nat) -> seq<nat>

  /** How many orders share the best price. */
  function FrontLen(q: seq<Resting>): (n: nat)
    ensures n <= |q| && (q != [] ==> n > 0)
    ensures forall i :: 0 <= i < n ==> q[i].price == q[0].price
    ensures n < |q| ==> q[n].price != q[0].price
  {
    if |q| <= 1 then |q| else if q[1].price == q[0].price then 1 + FrontLen(q[1..]) else 1
  }

  function Front(q: seq<Resting>): (r: seq<Resting>) {
    q[..FrontLen(q)]
  }

  function Behind(q: seq<Resting>): (r: seq<Resting>)
    ensures q != [] ==> |r| < |q|
  {
    q[FrontLen(q)..]
  }

  function Sizes(level: seq<Resting>): (r: seq<nat>)
    ensures |r| == |level|
  {
    if level == [] then [] else [level[0].qty] + Sizes(level[1..])
  }

  function Kept(t: Terms, level: seq<Resting>): seq<Resting> {
    if level == [] then []
    else if t.Blocks(level[0]) then Kept(t, level[1..])
    else [level[0]] + Kept(t, level[1..])
  }

  function Cancels(t: Terms, level: seq<Resting>): seq<Action> {
    if level == [] then []
    else if t.Blocks(level[0]) then [Cancel(level[0].id)] + Cancels(t, level[1..])
    else Cancels(t, level[1..])
  }

  function LevelFills(level: seq<Resting>, alloc: seq<nat>): seq<Action> {
    if level == [] || alloc == [] then []
    else if alloc[0] == 0 then LevelFills(level[1..], alloc[1..])
    else [Fill(level[0].id, level[0].price, alloc[0])] + LevelFills(level[1..], alloc[1..])
  }

  ghost function Split(split: Splitting, level: seq<Resting>, qty: nat): seq<Action> {
    LevelFills(level, split(Sizes(level), qty))
  }

  /** What the loop does at the best level: cancel the owner's other orders there, then split. */
  ghost function LevelActions(split: Splitting, t: Terms, q: seq<Resting>, qty: nat): seq<Action> {
    Cancels(t, Front(q)) + Split(split, Kept(t, Front(q)), qty)
  }

  ghost function ProRataPlan(split: Splitting, t: Terms, q: seq<Resting>, qty: nat): Outcome
    decreases |q|
  {
    if t.Stops(q, qty) then Outcome([], qty, false)
    else if t.smp == CancelNewest && Kept(t, Front(q)) != Front(q) then Outcome([], qty, true)
    else
      ProRataPlan(split, t, Behind(q), qty - Min(qty, Total(Kept(t, Front(q)))))
        .After(LevelActions(split, t, q, qty))
  }

  ghost function Plan(e: Engine, t: Terms, q: seq<Resting>, qty: nat): Outcome
    requires e.Valid()
  {
    match e
    case Fifo => FifoPlan(t, q, qty)
    case ProRataEngine(cfg) =>
      ProRataPlan(ProRata.Splitter(cfg), t, q, qty)
  }

  // ----- effect of actions on the queue

  ghost predicate ActionOk(q: seq<Resting>, a: Action) {
    a.id in View(q) && (a.Fill? ==> a.price == View(q)[a.id].price && 0 < a.qty <= View(q)[a.id].qty)
  }

  ghost function Act(q: seq<Resting>, a: Action): seq<Resting>
    requires ActionOk(q, a)
  {
    Resize(q, a.id, if a.Fill? then View(q)[a.id].qty - a.qty else 0)
  }

  ghost predicate ActionsOk(q: seq<Resting>, acts: seq<Action>)
    decreases |acts|
  {
    acts == [] || (ActionOk(q, acts[0]) && ActionsOk(Act(q, acts[0]), acts[1..]))
  }

  ghost function ActAll(q: seq<Resting>, acts: seq<Action>): seq<Resting>
    requires ActionsOk(q, acts)
    decreases |acts|
  {
    if acts == [] then q else ActAll(Act(q, acts[0]), acts[1..])
  }

  function Filled(acts: seq<Action>): nat {
    if acts == [] then 0 else (if acts[0].Fill? then acts[0].qty else 0) + Filled(acts[1..])
  }

  function FilledAt(acts: seq<Action>, p: Price): nat {
    if acts == [] then 0
    else (if acts[0].Fill? && acts[0].price == p then acts[0].qty else 0) + FilledAt(acts[1..], p)
  }

  // ----- sequencing lemmas

  lemma {:induction false} ActionsConcat(q: seq<Resting>, a: seq<Action>, b: seq<Action>)
    requires ActionsOk(q, a) && ActionsOk(ActAll(q, a), b)
    ensures ActionsOk(q, a + b) && ActAll(q, a + b) == ActAll(ActAll(q, a), b)
    decreases |a|
  {
    if a == [] {
      assert a + b == b;
    } else {
      ActionsConcat(Act(q, a[0]), a[1..], b);
      assert (a + b)[1..] == a[1..] + b;
    }
  }

  lemma {:induction false} FilledConcat(a: seq<Action>, b: seq<Action>, p: Price)
    ensures Filled(a + b) == Filled(a) + Filled(b)
    ensures FilledAt(a + b, p) == FilledAt(a, p) + FilledAt(b, p)
  {
    if a == [] {
      assert a + b == b;
    } else {
      FilledConcat(a[1..], b, p);
      assert (a + b)[1..] == a[1..] + b;
    }
  }

  lemma TailOfJoin(a: seq<Resting>, b: seq<Resting>, c: seq<Resting>)
    requires a != []
    ensures a + b + c == [a[0]] + (a[1..] + b + c) && (a + b + c)[1..] == a[1..] + b + c
  {
  }

  /** In a queue of distinct ids, resizing an order leaves everything before and after it alone. */
  lemma {:induction false} ResizeAt(done: seq<Resting>, x: Resting, rest: seq<Resting>, n: nat)
    requires Distinct(done + [x] + rest)
    ensures Resize(done + [x] + rest, x.id, n) == done + (if n == 0 then [] else [x.(qty := n)]) + rest
    ensures x.id in View(done + [x] + rest) && View(done + [x] + rest)[x.id] == x
  {
    var q := done + [x] + rest;
    if done == [] {
      assert q == [x] + rest;
      assert q[1..] == rest;
    } else {
      TailOfJoin(done, [x], rest);
      TailOfJoin(done, if n == 0 then [] else [x.(qty := n)], rest);
      ResizeAt(done[1..], x, rest, n);
    }
  }

  // ----- both engines only take actions the book can honour, and stop only when they must

  /** Everything the exchange relies on, whichever engine made the plan. */
  ghost predicate Sound(t: Terms, q: seq<Resting>, qty: nat, o: Outcome) {
    && ActionsOk(q, o.actions)
    && Filled(o.actions) + o.remaining == qty
    && (!o.rejected ==> t.Stops(ActAll(q, o.actions), o.remaining))
  }

  lemma Tail(s: Side, q: seq<Resting>)
    requires WellFormed(s, q) && q != []
    ensures WellFormed(s, q[1..])
  {
    ResizeWellFormed(s, q, q[0].id, 0);
  }

  lemma {:induction false} FifoSound(t: Terms, q: seq<Resting>, qty: nat)
    requires WellFormed(t.side, q)
    ensures Sound(t, q, qty, FifoPlan(t, q, qty))
  {
    if !t.Stops(q, qty) && !(t.Blocks(q[0]) && t.smp == CancelNewest) {
      Tail(t.side, q);
      var n := if t.Blocks(q[0]) then 0 else Min(qty, q[0].qty);
      var first := if t.Blocks(q[0]) then Cancel(q[0].id) else Fill(q[0].id, q[0].price, n);
      FifoSound(t, q[1..], qty - n);
      var rest := FifoPlan(t, q[1..], qty - n);
      assert View(q)[q[0].id] == q[0];
      assert ([first] + rest.actions)[1..] == rest.actions;
      if first.Cancel? || n == q[0].qty {
        assert Act(q, first) == q[1..];
      }
    }
  }

  /** One resize inside a level, with the level split into what is done, the order, and the rest. */
  lemma ResizeInLevel(q: seq<Resting>, done: seq<Resting>, level: seq<Resting>, rest: seq<Resting>, n: nat)
    requires Distinct(q) && q == done + level + rest && level != []
    ensures level[0].id in View(q) && View(q)[level[0].id] == level[0]
    ensures var kept := if n == 0 then [] else [level[0].(qty := n)];
            Resize(q, level[0].id, n) == (done + kept) + level[1..] + rest
    ensures Distinct(Resize(q, level[0].id, n))
  {
    var x, more := level[0], level[1..];
    assert q == done + [x] + (more + rest);
    ResizeAt(done, x, more + rest, n);
    ResizeView(q, x.id, n);
  }

  lemma {:induction false} CancelLevel(
      t: Terms, q: seq<Resting>, done: seq<Resting>, level: seq<Resting>, rest: seq<Resting>)
    requires Distinct(q) && q == done + level + rest
    ensures ActionsOk(q, Cancels(t, level))
    ensures ActAll(q, Cancels(t, level)) == done + Kept(t, level) + rest
    ensures Distinct(done + Kept(t, level) + rest)
    decreases |level|
  {
    if level != [] {
      if t.Blocks(level[0]) {
        ResizeInLevel(q, done, level, rest, 0);
        assert done + [] == done;
        CancelLevel(t, Resize(q, level[0].id, 0), done, level[1..], rest);
        assert Cancels(t, level)[1..] == Cancels(t, level[1..]);
      } else {
        assert q == (done + [level[0]]) + level[1..] + rest;
        CancelLevel(t, q, done + [level[0]], level[1..], rest);
        assert done + Kept(t, level) + rest == (done + [level[0]]) + Kept(t, level[1..]) + rest;
      }
    }
  }

  lemma {:induction false} CancelsFillNothing(t: Terms, level: seq<Resting>, p: Price)
    ensures Filled(Cancels(t, level)) == 0 == FilledAt(Cancels(t, level), p)
  {
    if level != [] {
      CancelsFillNothing(t, level[1..], p);
      if t.Blocks(level[0]) {
        assert Cancels(t, level)[1..] == Cancels(t, level[1..]);
      }
    }
  }

  /** What a level keeps after the given fills. */
  ghost function Shrunk(level: seq<Resting>, alloc: seq<nat>): seq<Resting>
    requires ProRata.Within(alloc, Sizes(level))
  {
    if level == [] then []
    else
      var left := level[0].qty - alloc[0];
      (if left == 0 then [] else [level[0].(qty := left)]) + Shrunk(level[1..], alloc[1..])
  }

  lemma {:induction false} FillLevel(
      q: seq<Resting>, done: seq<Resting>, level: seq<Resting>, alloc: seq<nat>, rest: seq<Resting>)
    requires Distinct(q) && q == done + level + rest
    requires ProRata.Within(alloc, Sizes(level))
    requires forall i :: 0 <= i < |level| ==> level[i].qty > 0
    ensures ActionsOk(q, LevelFills(level, alloc))
    ensures ActAll(q, LevelFills(level, alloc)) == done + Shrunk(level, alloc) + rest
    decreases |level|
  {
    if level != [] {
      var left := level[0].qty - alloc[0];
      assert Sizes(level)[1..] == Sizes(level[1..]);
      var kept := if left == 0 then [] else [level[0].(qty := left)];
      if alloc[0] == 0 {
        assert level == kept + level[1..];
        Assoc(done, kept, level[1..], rest);
        FillLevel(q, done + kept, level[1..], alloc[1..], rest);
      } else {
        ResizeInLevel(q, done, level, rest, left);
        FillLevel(Resize(q, level[0].id, left), done + kept, level[1..], alloc[1..], rest);
        assert LevelFills(level, alloc)[1..] == LevelFills(level[1..], alloc[1..]);
      }
      Assoc(done, kept, Shrunk(level[1..], alloc[1..]), rest);
    }
  }

  lemma Assoc<T>(a: seq<T>, b: seq<T>, c: seq<T>, d: seq<T>)
    ensures a + (b + c) + d == (a + b) + c + d
  {
  }

  lemma {:induction false} SizesTotal(level: seq<Resting>)
    ensures ProRata.Sum(Sizes(level)) == Total(level)
  {
    if level != [] {
      SizesTotal(level[1..]);
    }
  }

  lemma {:induction false} LevelFillsSum(level: seq<Resting>, alloc: seq<nat>, p: Price)
    requires |level| == |alloc|
    requires forall i :: 0 <= i < |level| ==> level[i].price == p
    ensures Filled(LevelFills(level, alloc)) == ProRata.Sum(alloc) == FilledAt(LevelFills(level, alloc), p)
    ensures forall p' :: p' != p ==> FilledAt(LevelFills(level, alloc), p') == 0
  {
    if level != [] {
      LevelFillsSum(level[1..], alloc[1..], p);
      if alloc[0] != 0 {
        assert LevelFills(level, alloc)[1..] == LevelFills(level[1..], alloc[1..]);
      }
    }
  }

  lemma {:induction false} ShrunkAll(level: seq<Resting>)
    requires ProRata.Within(Sizes(level), Sizes(level))
    ensures Shrunk(level, Sizes(level)) == []
  {
    if level != [] {
      assert Sizes(level)[1..] == Sizes(level[1..]);
      ShrunkAll(level[1..]);
    }
  }

  lemma {:induction false} KeptMembers(t: Terms, level: seq<Resting>)
    ensures forall i :: 0 <= i < |Kept(t, level)| ==> Kept(t, level)[i] in level && !t.Blocks(Kept(t, level)[i])
    ensures |Kept(t, level)| <= |level|
    ensures Kept(t, level) == level <==> forall i :: 0 <= i < |level| ==> !t.Blocks(level[i])
  {
    if level != [] {
      KeptMembers(t, level[1..]);
      if Kept(t, level) == level && !t.Blocks(level[0]) {
        assert Kept(t, level)[1..] == level[1..];
      }
      if forall i :: 0 <= i < |level| ==> !t.Blocks(level[i]) {
        assert forall i :: 0 <= i < |level[1..]| ==> level[1..][i] == level[i + 1];
      }
    }
  }

  /** The fills of one level: exact in total, all at its price, and they leave what they should. */
  lemma SplitLevel(split: Splitting, level: seq<Resting>, rest: seq<Resting>, qty: nat, p: Price)
    requires ProRata.Exact(split) && Distinct(level + rest)
    requires forall i :: 0 <= i < |level| ==> level[i].qty > 0 && level[i].price == p
    ensures ActionsOk(level + rest, Split(split, level, qty))
    ensures qty >= Total(level) ==> ActAll(level + rest, Split(split, level, qty)) == rest
    ensures Filled(Split(split, level, qty)) == Min(qty, Total(level)) == FilledAt(Split(split, level, qty), p)
    ensures forall p' :: p' != p ==> FilledAt(Split(split, level, qty), p') == 0
  {
    var alloc := split(Sizes(level), qty);
    SizesTotal(level);
    assert level + rest == [] + level + rest;
    FillLevel(level + rest, [], level, alloc, rest);
    LevelFillsSum(level, alloc, p);
    if qty >= Total(level) {
      ProRata.WithinFull(alloc, Sizes(level));
      ShrunkAll(level);
      assert [] + [] + rest == rest;
    }
  }

  lemma {:induction false} Suffix(s: Side, q: seq<Resting>, n: nat)
    requires WellFormed(s, q) && n <= |q|
    ensures WellFormed(s, q[n..])
    ensures forall i :: 0 <= i < |q| ==> q[i].qty > 0
  {
    if q != [] {
      Tail(s, q);
      assert View(q)[q[0].id] == q[0];
      Suffix(s, q[1..], if n == 0 then 0 else n - 1);
      if n > 0 {
        assert q[1..][n - 1..] == q[n..];
      } else {
        assert q[0..] == q;
      }
      assert forall i :: 0 < i < |q| ==> q[i] == q[1..][i - 1];
    }
  }

  lemma FrontBehind(s: Side, q: seq<Resting>)
    requires WellFormed(s, q) && q != []
    ensures Front(q) + Behind(q) == q && Front(q) != []
    ensures forall i :: 0 <= i < |Front(q)| ==> Front(q)[i].price == q[0].price && Front(q)[i].qty > 0
    ensures WellFormed(s, Behind(q))
  {
    Suffix(s, q, FrontLen(q));
  }

  ghost predicate LevelDone(q: seq<Resting>, qty: nat, acts: seq<Action>, kept: seq<Resting>, rest: seq<Resting>) {
    && ActionsOk(q, acts)
    && Filled(acts) == Min(qty, Total(kept))
    && (qty >= Total(kept) ==> ActAll(q, acts) == rest)
  }

  lemma CancelThenFill(q: seq<Resting>, qty: nat, cancels: seq<Action>, fills: seq<Action>,
                       kept: seq<Resting>, rest: seq<Resting>)
    requires ActionsOk(q, cancels) && Filled(cancels) == 0
    requires LevelDone(ActAll(q, cancels), qty, fills, kept, rest)
    ensures LevelDone(q, qty, cancels + fills, kept, rest)
  {
    ActionsConcat(q, cancels, fills);
    FilledConcat(cancels, fills, 0);
  }

  lemma CancelFront(t: Terms, q: seq<Resting>, level: seq<Resting>, rest: seq<Resting>)
    requires Distinct(q) && q == level + rest
    ensures ActionsOk(q, Cancels(t, level)) && Filled(Cancels(t, level)) == 0
    ensures ActAll(q, Cancels(t, level)) == Kept(t, level) + rest
    ensures Distinct(Kept(t, level) + rest)
  {
    assert q == [] + level + rest;
    CancelLevel(t, q, [], level, rest);
    assert [] + Kept(t, level) + rest == Kept(t, level) + rest;
    CancelsFillNothing(t, level, 0);
  }

  /** One level of the pro-rata loop: the self-match cancels and then the split. */
  lemma ProRataLevel(split: Splitting, t: Terms, q: seq<Resting>, qty: nat)
    requires ProRata.Exact(split) && WellFormed(t.side, q) && q != []
    ensures LevelDone(q, qty, LevelActions(split, t, q, qty), Kept(t, Front(q)), Behind(q))
  {
    FrontBehind(t.side, q);
    KeptMembers(t, Front(q));
    SplitFront(split, t, q, qty, Front(q), Behind(q), q[0].price);
  }

  lemma SplitFront(split: Splitting, t: Terms, q: seq<Resting>, qty: nat,
                   level: seq<Resting>, rest: seq<Resting>, p: Price)
    requires ProRata.Exact(split) && Distinct(q) && q == level + rest
    requires forall i :: 0 <= i < |Kept(t, level)| ==> Kept(t, level)[i].qty > 0 && Kept(t, level)[i].price == p
    ensures LevelDone(q, qty, Cancels(t, level) + Split(split, Kept(t, level), qty), Kept(t, level), rest)
  {
    CancelFront(t, q, level, rest);
    SplitLevel(split, Kept(t, level), rest, qty, p);
    CancelThenFill(q, qty, Cancels(t, level), Split(split, Kept(t, level), qty), Kept(t, level), rest);
  }

  /** A sound plan for what some actions leave extends to a sound plan that starts with them. */
  lemma SoundAfter(t: Terms, q: seq<Resting>, qty: nat, acts: seq<Action>, next: seq<Resting>, o: Outcome)
    requires ActionsOk(q, acts) && Filled(acts) <= qty
    requires Sound(t, next, qty - Filled(acts), o)
    requires ActAll(q, acts) == next || (o.actions == [] && o.remaining == 0)
    ensures Sound(t, q, qty, o.After(acts))
  {
    FilledConcat(acts, o.actions, 0);
    if o.actions == [] {
      assert acts + o.actions == acts;
    } else {
      ActionsConcat(q, acts, o.actions);
    }
  }

  lemma StoppedAtZero(split: Splitting, t: Terms, q: seq<Resting>)
    ensures ProRataPlan(split, t, q, 0).actions == [] && ProRataPlan(split, t, q, 0).remaining == 0
  {
  }

  lemma ProRataStep(split: Splitting, t: Terms, q: seq<Resting>, qty: nat)
    requires !t.Stops(q, qty) && !(t.smp == CancelNewest && Kept(t, Front(q)) != Front(q))
    requires LevelDone(q, qty, LevelActions(split, t, q, qty), Kept(t, Front(q)), Behind(q))
    requires var left := qty - Min(qty, Total(Kept(t, Front(q))));
             Sound(t, Behind(q), left, ProRataPlan(split, t, Behind(q), left))
    ensures Sound(t, q, qty, ProRataPlan(split, t, q, qty))
  {
    hide Sound, LevelActions, Kept, Front, Behind, ActionsOk, ActAll, Filled, Total;
    var left := qty - Min(qty, Total(Kept(t, Front(q))));
    StoppedAtZero(split, t, Behind(q));
    SoundAfter(t, q, qty, LevelActions(split, t, q, qty), Behind(q), ProRataPlan(split, t, Behind(q), left));
  }

  lemma SoundNothing(t: Terms, q: seq<Resting>, qty: nat, rejected: bool)
    requires rejected || t.Stops(q, qty)
    ensures Sound(t, q, qty, Outcome([], qty, rejected))
  {
  }

  lemma {:induction false} ProRataSound(split: Splitting, t: Terms, q: seq<Resting>, qty: nat)
    requires ProRata.Exact(split) && WellFormed(t.side, q)
    ensures Sound(t, q, qty, ProRataPlan(split, t, q, qty))
    decreases |q|
  {
    hide View, WellFormed, ProRata.Exact, Sound, LevelDone, LevelActions, Kept, Total, Front, Behind;
    if t.Stops(q, qty) || (t.smp == CancelNewest && Kept(t, Front(q)) != Front(q)) {
      SoundNothing(t, q, qty, !t.Stops(q, qty));
    } else {
      ProRataLevel(split, t, q, qty);
      FrontBehind(t.side, q);
      ProRataSound(split, t, Behind(q), qty - Min(qty, Total(Kept(t, Front(q)))));
      ProRataStep(split, t, q, qty);
    }
  }

  lemma PlanSound(e: Engine, t: Terms, q: seq<Resting>, qty: nat)
    requires e.Valid() && WellFormed(t.side, q)
    ensures Sound(t, q, qty, Plan(e, t, q, qty))
  {
    match e
    case Fifo => FifoSound(t, q, qty);
    case ProRataEngine(cfg) =>
      ProRata.SplitterExact(cfg);
      ProRataSound(ProRata.Splitter(cfg), t, q, qty);
  }
}
