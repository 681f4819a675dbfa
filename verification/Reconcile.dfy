/**
 Setting the phantom quantity of one price level: growth joins at the back as one new order, and a
 reduction is taken from the back, skipping the simulator's own orders.
 */
module Reconcile {
  import opened Types
  import opened Queue
  import opened BookState
  import opened MatchPlan

  datatype Reduction = Reduction(id: nat, newQty: nat)

  predicate IsPhantomAt(x: Resting, p: Price, own: set<nat>) {
    x.price == p && x.id !in own
  }

  /** The reductions the exchange chooses, walking the level from its back. */
  function Reductions(q: seq<Resting>, p: Price, own: set<nat>, diff: nat): seq<Reduction> {
    if q == [] || diff == 0 then []
    else
      var x, init := q[|q| - 1], q[..|q| - 1];
      if !IsPhantomAt(x, p, own) then Reductions(init, p, own, diff)
      else
        var r := Min(diff, x.qty);
        [Reduction(x.id, x.qty - r)] + Reductions(init, p, own, diff - r)
  }

  function ResizeAll(q: seq<Resting>, reds: seq<Reduction>): seq<Resting>
    decreases |reds|
  {
    if reds == [] then q else ResizeAll(Resize(q, reds[0].id, reds[0].newQty), reds[1..])
  }

  /** The reference: the level keeps its first `keep` units of phantom quantity and nothing else of it. */
  function Trimmed(q: seq<Resting>, p: Price, own: set<nat>, keep: nat): seq<Resting> {
    if q == [] then []
    else if !IsPhantomAt(q[0], p, own) then [q[0]] + Trimmed(q[1..], p, own, keep)
    else
      var k := Min(keep, q[0].qty);
      if k == 0 then Trimmed(q[1..], p, own, keep) else [q[0].(qty := k)] + Trimmed(q[1..], p, own, keep - k)
  }

  // ----- sums from the back

  lemma {:induction false} PhantomConcat(a: seq<Resting>, b: seq<Resting>, p: Price, own: set<nat>)
    ensures PhantomAt(a + b, p, own) == PhantomAt(a, p, own) + PhantomAt(b, p, own)
  {
    if a == [] {
      assert a + b == b;
    } else {
      assert (a + b)[1..] == a[1..] + b;
      PhantomConcat(a[1..], b, p, own);
    }
  }

  /** What trimming leaves of a single order. */
  function Cut(x: Resting, p: Price, own: set<nat>, keep: nat): seq<Resting> {
    if !IsPhantomAt(x, p, own) then [x] else if Min(keep, x.qty) == 0 then [] else [x.(qty := Min(keep, x.qty))]
  }

  lemma TrimmedHead(q: seq<Resting>, p: Price, own: set<nat>, keep: nat)
    requires q != []
    ensures Trimmed(q, p, own, keep) ==
            Cut(q[0], p, own, keep) + Trimmed(q[1..], p, own, keep - Min(keep, Phantom(q[0], p, own)))
  {
  }

  lemma {:induction false} TrimmedConcat(a: seq<Resting>, b: seq<Resting>, p: Price, own: set<nat>, keep: nat)
    ensures Trimmed(a + b, p, own, keep) ==
            Trimmed(a, p, own, keep) + Trimmed(b, p, own, keep - Min(keep, PhantomAt(a, p, own)))
  {
    if a == [] {
      assert a + b == b;
    } else {
      var k := Min(keep, Phantom(a[0], p, own));
      assert (a + b)[1..] == a[1..] + b;
      assert PhantomAt(a, p, own) == Phantom(a[0], p, own) + PhantomAt(a[1..], p, own);
      TrimmedHead(a, p, own, keep);
      TrimmedHead(a + b, p, own, keep);
      hide Trimmed, PhantomAt, Cut, Phantom;
      TrimmedConcat(a[1..], b, p, own, keep - k);
      Regroup(Cut(a[0], p, own, keep), Trimmed(a[1..], p, own, keep - k),
              Trimmed(b, p, own, keep - Min(keep, PhantomAt(a, p, own))));
    }
  }

  lemma {:induction false} TrimmedWhole(q: seq<Resting>, p: Price, own: set<nat>, keep: nat)
    requires keep >= PhantomAt(q, p, own) && forall i :: 0 <= i < |q| ==> q[i].qty > 0
    ensures Trimmed(q, p, own, keep) == q
  {
    if q != [] {
      var k := if IsPhantomAt(q[0], p, own) then q[0].qty else 0;
      TrimmedWhole(q[1..], p, own, keep - k);
      assert q == [q[0]] + q[1..];
    }
  }

  /** What the trim leaves of the front order, and everything behind it. */
  lemma TrimmedFront(q: seq<Resting>, p: Price, own: set<nat>, keep: nat)
    requires Distinct(q) && q != []
    ensures var k := if IsPhantomAt(q[0], p, own) then Min(keep, q[0].qty) else 0;
            var rest := View(Trimmed(q[1..], p, own, keep - k));
            && q[0].id !in rest
            && View(Trimmed(q, p, own, keep)) ==
               if !IsPhantomAt(q[0], p, own) then rest[q[0].id := q[0]]
               else if k == 0 then rest else rest[q[0].id := q[0].(qty := k)]
  {
    var k := if IsPhantomAt(q[0], p, own) then Min(keep, q[0].qty) else 0;
    TrimmedFewer(q[1..], p, own, keep - k);
    ViewCons(if k > 0 then q[0].(qty := k) else q[0], Trimmed(q[1..], p, own, keep - k));
  }

  /**
   The trim order by order: every phantom order of the level keeps what is left of `keep` once the phantom
   quantity ahead of it has its own, capped by its size, and goes if that is nothing; no other order changes.
   */
  lemma {:induction false} TrimmedOrderByOrder(q: seq<Resting>, p: Price, own: set<nat>, keep: nat, i: nat)
    requires Distinct(q) && i < |q|
    ensures var ahead, x := PhantomAt(q[..i], p, own), q[i];
            var left := if keep <= ahead then 0 else Min(keep - ahead, x.qty);
            var r := View(Trimmed(q, p, own, keep));
            if !IsPhantomAt(x, p, own) then x.id in r && r[x.id] == x
            else if left == 0 then x.id !in r
            else x.id in r && r[x.id] == x.(qty := left)
  {
    var k := if IsPhantomAt(q[0], p, own) then Min(keep, q[0].qty) else 0;
    TrimmedFront(q, p, own, keep);
    if i > 0 {
      BehindTheHead(q, i);
      TrimmedOrderByOrder(q[1..], p, own, keep - k, i - 1);
      assert q[..i][0] == q[0] && q[..i][1..] == q[1..][..i - 1];
      assert PhantomAt(q[..i], p, own) == Phantom(q[0], p, own) + PhantomAt(q[1..][..i - 1], p, own);
    } else {
      assert q[..0] == [];
      assert PhantomAt(q[..0], p, own) == 0;
    }
    hide PhantomAt, View, Distinct, Trimmed;
  }

  lemma BehindTheHead(q: seq<Resting>, i: nat)
    requires Distinct(q) && 0 < i < |q|
    ensures q[1..][i - 1] == q[i] && q[i].id != q[0].id && Distinct(q[1..])
  {
    ViewMember(q[1..]);
    assert q[1..][i - 1] == q[i] && q[i] in q[1..];
  }

  lemma {:induction false} TrimmedFewer(q: seq<Resting>, p: Price, own: set<nat>, keep: nat)
    requires Distinct(q)
    ensures forall id :: id in View(Trimmed(q, p, own, keep)) ==> id in View(q)
  {
    if q != [] {
      var k := if IsPhantomAt(q[0], p, own) then Min(keep, q[0].qty) else 0;
      TrimmedFewer(q[1..], p, own, keep - k);
      ViewCons(if k > 0 then q[0].(qty := k) else q[0], Trimmed(q[1..], p, own, keep - k));
    }
  }

  // ----- the walk from the back is the trim

  lemma {:induction false} ViewSnoc(q: seq<Resting>, y: Resting)
    requires Distinct(q + [y])
    ensures Distinct(q) && y.id !in View(q) && View(q + [y]) == View(q)[y.id := y]
  {
    var all := q + [y];
    if q == [] {
      assert all[1..] == [];
    } else {
      assert all[1..] == q[1..] + [y];
      ViewSnoc(q[1..], y);
    }
  }

  lemma {:induction false} ResizeSnoc(q: seq<Resting>, y: Resting, id: nat, n: nat)
    requires id in View(q)
    ensures Resize(q + [y], id, n) == Resize(q, id, n) + [y]
  {
    assert (q + [y])[1..] == q[1..] + [y];
    if q[0].id != id {
      ResizeSnoc(q[1..], y, id, n);
    }
  }

  lemma ResizeLast(q: seq<Resting>, x: Resting, n: nat)
    requires Distinct(q + [x])
    ensures Resize(q + [x], x.id, n) == q + (if n == 0 then [] else [x.(qty := n)])
  {
    assert q + [x] == q + [x] + [];
    ResizeAt(q, x, [], n);
  }

  /** Each reduction names a different resting phantom order of the level and lowers it. */
  ghost predicate ReductionsOk(q: seq<Resting>, p: Price, own: set<nat>, reds: seq<Reduction>) {
    && (forall i :: 0 <= i < |reds| ==> reds[i].id in View(q) && IsPhantomAt(View(q)[reds[i].id], p, own))
    && (forall i, j :: 0 <= i < j < |reds| ==> reds[i].id != reds[j].id)
  }

  lemma ReductionsTail(q: seq<Resting>, p: Price, own: set<nat>, reds: seq<Reduction>)
    requires Distinct(q) && ReductionsOk(q, p, own, reds) && reds != []
    ensures ReductionsOk(Resize(q, reds[0].id, reds[0].newQty), p, own, reds[1..])
    ensures Distinct(Resize(q, reds[0].id, reds[0].newQty))
  {
    hide View, Distinct, Resize;
    ResizeView(q, reds[0].id, reds[0].newQty);
    var t := Resize(q, reds[0].id, reds[0].newQty);
    forall i | 0 <= i < |reds[1..]| ensures reds[1..][i].id in View(t) && IsPhantomAt(View(t)[reds[1..][i].id], p, own) {
      assert reds[1..][i] == reds[i + 1];
    }
  }

  lemma {:induction false} ResizeAllSnoc(q: seq<Resting>, y: Resting, p: Price, own: set<nat>, reds: seq<Reduction>)
    requires Distinct(q) && ReductionsOk(q, p, own, reds)
    ensures ResizeAll(q + [y], reds) == ResizeAll(q, reds) + [y]
    decreases |reds|
  {
    if reds != [] {
      ResizeSnoc(q, y, reds[0].id, reds[0].newQty);
      ReductionsTail(q, p, own, reds);
      ResizeAllSnoc(Resize(q, reds[0].id, reds[0].newQty), y, p, own, reds[1..]);
    }
  }

  /** Reductions of a queue's front stay in order behind a last order, which may be reduced first. */
  lemma ReductionsCons(init: seq<Resting>, x: Resting, p: Price, own: set<nat>, reds: seq<Reduction>, n: nat)
    requires View(init + [x]) == View(init)[x.id := x] && x.id !in View(init) && ReductionsOk(init, p, own, reds)
    ensures ReductionsOk(init + [x], p, own, reds)
    ensures IsPhantomAt(x, p, own) ==> ReductionsOk(init + [x], p, own, [Reduction(x.id, n)] + reds)
  {
    hide View, IsPhantomAt;
  }

  lemma {:induction false} ReductionsAreOk(q: seq<Resting>, p: Price, own: set<nat>, diff: nat)
    requires Distinct(q)
    ensures ReductionsOk(q, p, own, Reductions(q, p, own, diff))
    decreases |q|
  {
    if q != [] && diff > 0 {
      var x, init := q[|q| - 1], q[..|q| - 1];
      assert q == init + [x];
      ViewSnoc(init, x);
      hide View, Distinct, ReductionsOk;
      var r := if IsPhantomAt(x, p, own) then Min(diff, x.qty) else 0;
      ReductionsAreOk(init, p, own, diff - r);
      ReductionsCons(init, x, p, own, Reductions(init, p, own, diff - r), x.qty - r);
    }
  }

  /** Reductions from the back leave exactly the front of the level's phantom quantity. */
  lemma {:induction false} ReductionsTrim(q: seq<Resting>, p: Price, own: set<nat>, diff: nat)
    requires Distinct(q) && diff <= PhantomAt(q, p, own) && forall i :: 0 <= i < |q| ==> q[i].qty > 0
    ensures ResizeAll(q, Reductions(q, p, own, diff)) == Trimmed(q, p, own, PhantomAt(q, p, own) - diff)
    decreases |q|
  {
    hide View, Distinct, PhantomAt, ResizeAll, Trimmed, Reductions, IsPhantomAt;
    if diff == 0 {
      NoReductions(q, p, own);
    } else {
      EmptyPhantom(p, own);
      var x, init := q[|q| - 1], q[..|q| - 1];
      assert q == init + [x];
      var r := if IsPhantomAt(x, p, own) then Min(diff, x.qty) else 0;
      ViewSnoc(init, x);
      TrimBack(init, x, p, own, diff, r);
      ReductionsTrim(init, p, own, diff - r);
      TrimStep(init, x, p, own, diff, r);
    }
  }

  lemma NoReductions(q: seq<Resting>, p: Price, own: set<nat>)
    requires forall i :: 0 <= i < |q| ==> q[i].qty > 0
    ensures ResizeAll(q, Reductions(q, p, own, 0)) == q == Trimmed(q, p, own, PhantomAt(q, p, own))
  {
    TrimmedWhole(q, p, own, PhantomAt(q, p, own));
  }

  /** The reference, peeled from the back. */
  lemma TrimBack(init: seq<Resting>, x: Resting, p: Price, own: set<nat>, diff: nat, r: nat)
    requires diff <= PhantomAt(init + [x], p, own) && x.qty > 0
    requires forall i :: 0 <= i < |init| ==> init[i].qty > 0
    requires r == if IsPhantomAt(x, p, own) then Min(diff, x.qty) else 0
    ensures diff - r <= PhantomAt(init, p, own)
    ensures Trimmed(init + [x], p, own, PhantomAt(init + [x], p, own) - diff) ==
            Trimmed(init, p, own, PhantomAt(init, p, own) - (diff - r)) + (if x.qty == r then [] else [x.(qty := x.qty - r)])
  {
    PhantomConcat(init, [x], p, own);
    assert PhantomAt([x], p, own) == Phantom(x, p, own);
    var keep := PhantomAt(init + [x], p, own) - diff;
    TrimmedConcat(init, [x], p, own, keep);
    LastTrimmed(x, p, own, keep - Min(keep, PhantomAt(init, p, own)));
    if diff == r {
      TrimmedWhole(init, p, own, keep);
      TrimmedWhole(init, p, own, PhantomAt(init, p, own));
    }
    hide PhantomAt, Trimmed;
  }

  lemma LastTrimmed(x: Resting, p: Price, own: set<nat>, keep: nat)
    ensures Trimmed([x], p, own, keep) == Cut(x, p, own, keep)
  {
    assert [x][1..] == [];
    assert Trimmed([], p, own, keep) == [];
  }

  /** The walk's first step, at the last order. */
  lemma ReductionsFirst(init: seq<Resting>, x: Resting, p: Price, own: set<nat>, diff: nat)
    requires diff > 0
    ensures Reductions(init + [x], p, own, diff) ==
            if IsPhantomAt(x, p, own)
            then [Reduction(x.id, x.qty - Min(diff, x.qty))] + Reductions(init, p, own, diff - Min(diff, x.qty))
            else Reductions(init, p, own, diff)
  {
    var q := init + [x];
    assert q[..|q| - 1] == init && q[|q| - 1] == x;
  }

  lemma ResizeFirst(q: seq<Resting>, red: Reduction, rest: seq<Reduction>)
    ensures ResizeAll(q, [red] + rest) == ResizeAll(Resize(q, red.id, red.newQty), rest)
  {
    assert ([red] + rest)[1..] == rest;
  }

  lemma TrimStep(init: seq<Resting>, x: Resting, p: Price, own: set<nat>, diff: nat, r: nat)
    requires Distinct(init + [x]) && Distinct(init) && diff > 0 && x.qty > 0
    requires r == if IsPhantomAt(x, p, own) then Min(diff, x.qty) else 0
    ensures ResizeAll(init + [x], Reductions(init + [x], p, own, diff)) ==
            ResizeAll(init, Reductions(init, p, own, diff - r)) + (if x.qty == r then [] else [x.(qty := x.qty - r)])
  {
    hide View, Distinct, Resize, ResizeAll, Reductions, ReductionsOk, IsPhantomAt;
    var rest := Reductions(init, p, own, diff - r);
    ReductionsAreOk(init, p, own, diff - r);
    ReductionsFirst(init, x, p, own, diff);
    if IsPhantomAt(x, p, own) {
      ResizeFirst(init + [x], Reduction(x.id, x.qty - r), rest);
      ResizeLast(init, x, x.qty - r);
      if x.qty == r {
        assert init + [] == init;
      } else {
        ResizeAllSnoc(init, x.(qty := x.qty - r), p, own, rest);
      }
    } else {
      assert x.(qty := x.qty - 0) == x;
      ResizeAllSnoc(init, x, p, own, rest);
    }
  }

  lemma {:induction false} TrimmedPhantom(q: seq<Resting>, p: Price, own: set<nat>, keep: nat, p': Price)
    ensures PhantomAt(Trimmed(q, p, own, keep), p', own) ==
            if p' == p then Min(keep, PhantomAt(q, p, own)) else PhantomAt(q, p', own)
  {
    if q != [] {
      var k := if IsPhantomAt(q[0], p, own) then Min(keep, q[0].qty) else 0;
      TrimmedPhantom(q[1..], p, own, keep - k, p');
      var head := if !IsPhantomAt(q[0], p, own) then [q[0]] else if k == 0 then [] else [q[0].(qty := k)];
      PhantomConcat(head, Trimmed(q[1..], p, own, keep - k), p', own);
      if head != [] {
        assert head[1..] == [];
      }
    }
  }
}
