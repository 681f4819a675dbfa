/**
 One side of the L3 book: a queue sorted best price first and, within a price, by priority.
 A price level is a maximal run of equal prices.
 */
module Queue {
  import opened Types

  /** What rests, by order id. */
  ghost function View(q: seq<Resting>): map<nat, Resting> {
    if q == [] then map[] else View(q[1..])[q[0].id := q[0]]
  }

  predicate Ahead(s: Side, a: Resting, b: Resting) {
    IsPriceBetter(s, a.price, b.price) || (a.price == b.price && a.priority <= b.priority)
  }

  ghost predicate Distinct(q: seq<Resting>) {
    q == [] || (q[0].id !in View(q[1..]) && Distinct(q[1..]))
  }

  ghost predicate Sorted(s: Side, q: seq<Resting>) {
    q == [] || ((forall id :: id in View(q[1..]) ==> Ahead(s, q[0], View(q[1..])[id])) && Sorted(s, q[1..]))
  }

  ghost predicate AllReal(q: seq<Resting>) {
    forall id :: id in View(q) ==> View(q)[id].id == id && View(q)[id].qty > 0 && View(q)[id].price != NULL_PRICE
  }

  ghost predicate WellFormed(s: Side, q: seq<Resting>) {
    Distinct(q) && Sorted(s, q) && AllReal(q)
  }

  function Total(q: seq<Resting>): nat {
    if q == [] then 0 else q[0].qty + Total(q[1..])
  }

  lemma EmptyTotal()
    ensures Total([]) == 0
  {
  }

  // ----- the library's two mutations

  /** Sets the resting quantity of `id` in place; zero removes it. */
  function Resize(q: seq<Resting>, id: nat, n: nat): (r: seq<Resting>) {
    if q == [] then []
    else if q[0].id == id then (if n == 0 then q[1..] else [q[0].(qty := n)] + q[1..])
    else [q[0]] + Resize(q[1..], id, n)
  }

  /** Rests `x` behind everything that is ahead of it. */
  function Insert(s: Side, q: seq<Resting>, x: Resting): (r: seq<Resting>) {
    if q == [] || !Ahead(s, q[0], x) then [x] + q else [q[0]] + Insert(s, q[1..], x)
  }

  lemma ViewCons(x: Resting, q: seq<Resting>)
    ensures View([x] + q) == View(q)[x.id := x]
  {
    assert ([x] + q)[1..] == q;
  }

  lemma {:induction false} ViewMember(q: seq<Resting>)
    requires Distinct(q)
    ensures forall x :: x in q <==> x.id in View(q) && View(q)[x.id] == x
  {
    if q != [] {
      ViewMember(q[1..]);
      assert q == [q[0]] + q[1..];
    }
  }

  lemma {:induction false} ResizeView(q: seq<Resting>, id: nat, n: nat)
    requires Distinct(q) && id in View(q)
    ensures View(Resize(q, id, n)) ==
            if n == 0 then View(q) - {id} else View(q)[id := View(q)[id].(qty := n)]
    ensures Distinct(Resize(q, id, n))
  {
    if q[0].id == id {
      if n != 0 {
        ViewIds(q);
        ViewCons(q[0].(qty := n), q[1..]);
        assert ([q[0].(qty := n)] + q[1..])[1..] == q[1..];
      }
    } else {
      ResizeView(q[1..], id, n);
      var t := Resize(q[1..], id, n);
      ViewCons(q[0], t);
      assert ([q[0]] + t)[1..] == t;
    }
  }

  ghost predicate AllIdsMatch(q: seq<Resting>) {
    forall id :: id in View(q) ==> View(q)[id].id == id
  }

  lemma {:induction false} ViewIds(q: seq<Resting>)
    ensures AllIdsMatch(q)
  {
    if q != [] {
      ViewIds(q[1..]);
    }
  }

  lemma {:induction false} ResizeWellFormed(s: Side, q: seq<Resting>, id: nat, n: nat)
    requires WellFormed(s, q) && id in View(q)
    ensures WellFormed(s, Resize(q, id, n))
  {
    ResizeView(q, id, n);
    ResizeSorted(s, q, id, n);
  }

  lemma {:induction false} ResizeSorted(s: Side, q: seq<Resting>, id: nat, n: nat)
    requires Distinct(q) && Sorted(s, q) && id in View(q)
    ensures Sorted(s, Resize(q, id, n))
  {
    if q[0].id == id {
      assert n != 0 ==> ([q[0].(qty := n)] + q[1..])[1..] == q[1..];
    } else {
      ResizeSorted(s, q[1..], id, n);
      ResizeView(q[1..], id, n);
      var t := Resize(q[1..], id, n);
      assert ([q[0]] + t)[1..] == t;
    }
  }

  lemma {:induction false} InsertView(s: Side, q: seq<Resting>, x: Resting)
    requires Distinct(q) && x.id !in View(q)
    ensures View(Insert(s, q, x)) == View(q)[x.id := x]
    ensures Distinct(Insert(s, q, x))
  {
    if q == [] || !Ahead(s, q[0], x) {
      ViewCons(x, q);
      assert ([x] + q)[1..] == q;
    } else {
      InsertView(s, q[1..], x);
      var t := Insert(s, q[1..], x);
      ViewCons(q[0], t);
      assert ([q[0]] + t)[1..] == t;
    }
  }

  lemma {:induction false} InsertWellFormed(s: Side, q: seq<Resting>, x: Resting)
    requires WellFormed(s, q) && x.id !in View(q) && x.qty > 0 && x.price != NULL_PRICE
    ensures WellFormed(s, Insert(s, q, x))
  {
    InsertView(s, q, x);
    InsertSorted(s, q, x);
  }

  lemma {:induction false} InsertSorted(s: Side, q: seq<Resting>, x: Resting)
    requires Distinct(q) && Sorted(s, q) && x.id !in View(q)
    ensures Sorted(s, Insert(s, q, x))
  {
    if q == [] {
    } else if !Ahead(s, q[0], x) {
      assert ([x] + q)[1..] == q;
    } else {
      InsertSorted(s, q[1..], x);
      InsertView(s, q[1..], x);
      var t := Insert(s, q[1..], x);
      assert ([q[0]] + t)[1..] == t;
    }
  }

  // ----- liquidity the simulator does not own, per price

  function Phantom(x: Resting, p: Price, own: set<nat>): nat {
    if x.price == p && x.id !in own then x.qty else 0
  }

  /** Quantity resting at `p` whose order is not one of `own`. */
  function PhantomAt(q: seq<Resting>, p: Price, own: set<nat>): nat {
    if q == [] then 0 else Phantom(q[0], p, own) + PhantomAt(q[1..], p, own)
  }

  lemma EmptyPhantom(p: Price, own: set<nat>)
    ensures PhantomAt([], p, own) == 0
  {
  }

  lemma {:induction false} ResizePhantom(q: seq<Resting>, id: nat, n: nat, p: Price, own: set<nat>)
    requires Distinct(q) && id in View(q)
    ensures PhantomAt(Resize(q, id, n), p, own) ==
            PhantomAt(q, p, own) - Phantom(View(q)[id], p, own) + Phantom(View(q)[id].(qty := n), p, own)
  {
    ViewIds(q);
    if q[0].id == id {
      if n != 0 {
        assert ([q[0].(qty := n)] + q[1..])[1..] == q[1..];
      }
    } else {
      ResizePhantom(q[1..], id, n, p, own);
      var t := Resize(q[1..], id, n);
      assert ([q[0]] + t)[1..] == t;
    }
  }

  lemma {:induction false} InsertPhantom(s: Side, q: seq<Resting>, x: Resting, p: Price, own: set<nat>)
    ensures PhantomAt(Insert(s, q, x), p, own) == PhantomAt(q, p, own) + Phantom(x, p, own)
  {
    if q == [] || !Ahead(s, q[0], x) {
      assert ([x] + q)[1..] == q;
    } else {
      InsertPhantom(s, q[1..], x, p, own);
      var t := Insert(s, q[1..], x);
      assert ([q[0]] + t)[1..] == t;
    }
  }

  /** Only the owners of what rests matter. */
  lemma {:induction false} PhantomSameOwners(q: seq<Resting>, p: Price, own: set<nat>, own': set<nat>)
    requires forall id :: id in View(q) ==> (id in own <==> id in own')
    requires Distinct(q)
    ensures PhantomAt(q, p, own) == PhantomAt(q, p, own')
  {
    if q != [] {
      PhantomSameOwners(q[1..], p, own, own');
    }
  }
}
