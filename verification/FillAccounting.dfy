/** Fill accounting over any run of fills and amendments of one order. */
module FillAccounting {
  import opened Types
  import opened Orders

  datatype Event = Fill(price: Price, qty: nat) | Amend(newPrice: Price, newQty: nat)

  /** An order before anything happened to it. */
  predicate Fresh(o: Order) {
    o.leaves == o.quantity && o.cum == 0 && o.cumValue == 0 && o.avg == 0
  }

  /** Fills never exceed what is left; an order with nothing left has left the book. */
  ghost predicate Admissible(o: Order, run: seq<Event>)
    decreases |run|
  {
    run != [] ==>
      && (run[0].Fill? ==> 0 < run[0].qty <= o.leaves)
      && (run[0].Amend? ==> o.leaves > 0)
      && Admissible(After(o, run[0]), run[1..])
  }

  function After(o: Order, e: Event): Order
    requires e.Fill? ==> 0 < e.qty <= o.leaves
  {
    match e
    case Fill(p, n) => ExecuteOrder(o, p, n)
    case Amend(p, n) => ApplyReplace(o, p, n)
  }

  ghost function Run(o: Order, run: seq<Event>): Order
    requires Admissible(o, run)
    decreases |run|
  {
    if run == [] then o else Run(After(o, run[0]), run[1..])
  }

  function FilledQty(run: seq<Event>): nat {
    if run == [] then 0 else (if run[0].Fill? then run[0].qty else 0) + FilledQty(run[1..])
  }

  function FilledValue(run: seq<Event>): nat {
    if run == [] then 0 else (if run[0].Fill? then run[0].price * run[0].qty else 0) + FilledValue(run[1..])
  }

  ghost predicate PricesWithin(run: seq<Event>, lo: Price, hi: Price) {
    forall i :: 0 <= i < |run| && run[i].Fill? ==> lo <= run[i].price <= hi
  }

  /** A live order's quantities add up; one that an amendment finished has nothing left. */
  predicate Balanced(o: Order) {
    if o.leaves > 0 then o.cum + o.leaves == o.quantity else o.cum >= o.quantity
  }

  lemma Scale(p: nat, lo: nat, hi: nat, n: nat)
    requires lo <= p <= hi
    ensures lo * n <= p * n <= hi * n
  {
    assert p * n == lo * n + (p - lo) * n;
    assert hi * n == p * n + (hi - p) * n;
  }

  lemma Distribute(k: nat, a: nat, b: nat)
    ensures k * (a + b) == k * a + k * b
  {
  }

  /**
   Over every admissible run: the order stays balanced, its cumulative quantity and value are the
   sums over the fills, and the average lies between the lowest and highest fill price.
   */
  lemma {:induction false} RunAccounting(o: Order, run: seq<Event>, lo: Price, hi: Price)
    requires Balanced(o) && Admissible(o, run) && PricesWithin(run, lo, hi)
    requires lo * o.cum <= o.cumValue <= hi * o.cum
    requires o.cum > 0 ==> o.avg == o.cumValue / o.cum
    ensures var r := Run(o, run);
            && Balanced(r)
            && r.cum == o.cum + FilledQty(run)
            && r.cumValue == o.cumValue + FilledValue(run)
            && lo * r.cum <= r.cumValue <= hi * r.cum
            && (r.cum > 0 ==> r.avg == r.cumValue / r.cum)
    decreases |run|
  {
    if run != [] {
      var e := run[0];
      if e.Fill? {
        Scale(e.price, lo, hi, e.qty);
        Distribute(lo, o.cum, e.qty);
        Distribute(hi, o.cum, e.qty);
      }
      RunAccounting(After(o, e), run[1..], lo, hi);
    }
  }

  lemma QuotientBetween(value: nat, cum: nat, lo: nat, hi: nat)
    requires cum > 0 && lo * cum <= value <= hi * cum
    ensures lo <= value / cum <= hi
  {
    var q := value / cum;
    assert value == q * cum + value % cum;
    if q < lo {
      Scale(q + 1, q + 1, lo, cum);
    }
    if q > hi {
      Scale(hi + 1, hi + 1, q, cum);
    }
  }

  /** From a fresh order: the exact sums, and an average inside the traded range. */
  lemma FreshRunAccounting(o: Order, run: seq<Event>, lo: Price, hi: Price)
    requires Fresh(o) && Admissible(o, run) && PricesWithin(run, lo, hi)
    ensures var r := Run(o, run);
            && r.cum == FilledQty(run) && r.cumValue == FilledValue(run)
            && Balanced(r)
            && (r.leaves > 0 ==> r.cum + r.leaves == r.quantity)
            && (r.cum > 0 ==> lo <= r.avg <= hi)
  {
    RunAccounting(o, run, lo, hi);
    var r := Run(o, run);
    if r.cum > 0 {
      QuotientBetween(r.cumValue, r.cum, lo, hi);
    }
  }

  const INT64_MAX: nat := 0x7FFF_FFFF_FFFF_FFFF
  const UINT128_MAX: nat := 0xFFFF_FFFF_FFFF_FFFF_FFFF_FFFF_FFFF_FFFF

  ghost predicate QuantitiesWithin(run: seq<Event>, most: nat) {
    forall i :: 0 <= i < |run| && run[i].Amend? ==> run[i].newQty <= most
  }

  /** An order never fills more than the largest quantity it was entered or amended to. */
  lemma {:induction false} FilledWithin(o: Order, run: seq<Event>, most: nat)
    requires Balanced(o) && Admissible(o, run) && QuantitiesWithin(run, most)
    requires o.cum <= most && (o.leaves > 0 ==> o.quantity <= most)
    ensures Run(o, run).cum <= most
    decreases |run|
  {
    if run != [] {
      FilledWithin(After(o, run[0]), run[1..], most);
    }
  }

  /** With 64-bit prices and 64-bit order and amendment quantities the value never leaves 128 bits. */
  lemma ValueFits(o: Order, run: seq<Event>)
    requires Fresh(o) && Admissible(o, run) && PricesWithin(run, 0, INT64_MAX)
    requires o.quantity <= INT64_MAX && QuantitiesWithin(run, INT64_MAX)
    ensures Run(o, run).cum <= INT64_MAX && Run(o, run).cumValue <= UINT128_MAX
  {
    RunAccounting(o, run, 0, INT64_MAX);
    FilledWithin(o, run, INT64_MAX);
    var r := Run(o, run);
    Scale(r.cum, 0, INT64_MAX, INT64_MAX);
  }

  /** The preview that CANCEL_NEWEST scans with is the leaves the amendment really gets. */
  lemma PreviewIsExact(o: Order, price: Price, qty: nat)
    requires o.status == PendingReplace && o.cum + o.leaves == o.quantity
    ensures PreviewLeaves(o, qty) == ApplyReplace(o, price, qty).leaves
    ensures qty <= o.cum <==> ApplyReplace(o, price, qty).leaves == 0
  {
  }
}
