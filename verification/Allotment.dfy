/** The pro-rata split order by order, in plain arithmetic. */
module Allotment {
  import opened Types
  import opened ProRata

  predicate WholeLots(n: nat, lot: nat)
    requires lot > 0
  {
    n % lot == 0
  }

  /** What order `i` takes of `f` when everything ahead of it is filled first. */
  function QueueFill(sizes: seq<nat>, f: nat, i: nat): (r: nat)
    requires i < |sizes|
    ensures r <= sizes[i]
  {
    var ahead := Sum(sizes[..i]);
    if f <= ahead then 0 else if f - ahead <= sizes[i] then f - ahead else sizes[i]
  }

  /**
   A share of the pool: the most whole lots that stay within the order's proportion and do not fall
   below the minimum, or nothing when there is no such number of lots.
   */
  ghost predicate ShareRule(cfg: Config, pool: nat, room: nat, base: nat, r: nat)
    requires cfg.Valid()
  {
    && WholeLots(r, cfg.lotSize) && r * base <= pool * room && (r == 0 || r >= cfg.minAllocation)
    && forall m: nat :: WholeLots(m, cfg.lotSize) && m >= cfg.minAllocation && m * base <= pool * room ==> m <= r
  }

  /**
   How `qty` goes to a level it cannot take whole: whole lots `f` of the first-come part, the most that
   fit it, are filled in queue order; each order gets its share of the rest by what it still has; and
   what the rounding left goes in queue order again.
   */
  ghost predicate SplitsAs(cfg: Config, sizes: seq<nat>, qty: nat, alloc: seq<nat>, f: nat, shares: seq<nat>, still: seq<nat>)
    requires cfg.Valid()
  {
    && |alloc| == |shares| == |still| == |sizes| && f + Sum(shares) <= qty < Sum(sizes)
    && WholeLots(f, cfg.lotSize) && f * 100 <= qty * cfg.fifoPercent < (f + cfg.lotSize) * 100
    && (forall i :: 0 <= i < |sizes| ==>
          && ShareRule(cfg, qty - f, sizes[i] - QueueFill(sizes, f, i), Sum(sizes) - f, shares[i])
          && sizes[i] == QueueFill(sizes, f, i) + shares[i] + still[i]
          && alloc[i] == QueueFill(sizes, f, i) + shares[i] + QueueFill(still, qty - f - Sum(shares), i))
  }

  // ----- rounding

  /** Rounding down to lots gives the most whole lots that fit. */
  lemma MostLots(x: nat, lot: nat, m: nat)
    requires lot > 0
    ensures WholeLots(FloorLot(x, lot), lot)
    ensures WholeLots(m, lot) && m <= x ==> m <= FloorLot(x, lot)
  {
    var q := x / lot;
    assert FloorLot(x, lot) == q * lot;
    Multiple(q, lot);
    if WholeLots(m, lot) && m <= x {
      var k := m / lot;
      assert m == k * lot;
      if k > q {
        MulMono(q + 1, k, lot);
      } else {
        MulMono(k, q, lot);
      }
    }
  }

  lemma Multiple(q: nat, lot: nat)
    requires lot > 0
    ensures q * lot % lot == 0
  {
    var k := q * lot / lot;
    assert q * lot == k * lot + q * lot % lot;
    OneMore(k, lot);
    OneMore(q, lot);
    if k < q {
      MulMono(k + 1, q, lot);
    } else if q < k {
      MulMono(q + 1, k, lot);
    }
  }

  lemma OneMore(k: nat, lot: nat)
    ensures (k + 1) * lot == k * lot + lot
  {
  }

  lemma ShareIsLots(cfg: Config, pool: nat, room: nat, base: nat)
    requires cfg.Valid() && base != 0 && room <= base
    ensures ShareRule(cfg, pool, room, base, Share(cfg, pool, room, base))
  {
    hide WholeLots, FloorLot;
    var lot := cfg.lotSize;
    var exact, r := MulDivFloor(pool, room, base), Share(cfg, pool, room, base);
    MostLots(exact, lot, 0);
    assert WholeLots(0, lot) by { MostLots(0, lot, 0); }
    forall m: nat | WholeLots(m, lot) && m >= cfg.minAllocation && m * base <= pool * room ensures m <= r {
      FloorIsMost(pool * room, base, exact, m);
      MostLots(exact, lot, m);
    }
  }

  lemma FloorIsMost(x: nat, base: nat, r: nat, m: nat)
    requires base != 0 && x < (r + 1) * base && m * base <= x
    ensures m <= r
  {
    if m > r {
      MulMono(r + 1, m, base);
    }
  }

  lemma SliceIsLots(cfg: Config, qty: nat)
    requires cfg.Valid()
    ensures var f := Slice(cfg, qty);
            WholeLots(f, cfg.lotSize) && f * 100 <= qty * cfg.fifoPercent < (f + cfg.lotSize) * 100
  {
    hide WholeLots;
    MostLots(MulDivFloor(qty, cfg.fifoPercent, 100), cfg.lotSize, 0);
  }

  // ----- the split

  lemma FillAt(sizes: seq<nat>, f: nat, i: nat)
    requires i < |sizes|
    ensures FifoShares(sizes, f)[i] == QueueFill(sizes, f, i)
  {
    FifoClosedForm(sizes, f, i);
  }

  lemma RestAt(cfg: Config, sizes: seq<nat>, f: nat, pool: nat, i: nat)
    requires cfg.Valid() && i < |sizes|
    requires Within(FifoShares(sizes, f), sizes) && Sum(FifoShares(sizes, f)) == f && f + pool < Sum(sizes)
    ensures var s := SplitRest(cfg, sizes, FifoShares(sizes, f), pool);
            var still := Minus(Minus(sizes, s.fifo), s.shares);
            && |s.shares| == |still| == |s.leftover| == |sizes|
            && ShareRule(cfg, pool, sizes[i] - QueueFill(sizes, f, i), Sum(sizes) - f, s.shares[i])
            && sizes[i] == QueueFill(sizes, f, i) + s.shares[i] + still[i]
            && Combined(s)[i] == QueueFill(sizes, f, i) + s.shares[i] + QueueFill(still, pool - Sum(s.shares), i)
  {
    hide Sum, FifoShares, Shares, Share, QueueFill, ShareRule, Within, Plus, Minus;
    var fifo := FifoShares(sizes, f);
    var s, room := SplitRest(cfg, sizes, fifo, pool), Minus(sizes, fifo);
    var still := Minus(room, s.shares);
    FillAt(sizes, f, i);
    SumMinus(sizes, fifo);
    MembersBelowSum(room);
    PointwiseAt(sizes, fifo, i);
    PointwiseAt(room, s.shares, i);
    SharesAt(cfg, pool, room, Sum(room), i);
    ShareIsLots(cfg, pool, room[i], Sum(room));
    FillAt(still, s.spilled, i);
    PlusAt(fifo, s.shares, i);
    PlusAt(Plus(fifo, s.shares), s.leftover, i);
  }

  /** The split of every level the aggressor cannot take whole, order by order. */
  lemma SplitPlainly(cfg: Config, sizes: seq<nat>, qty: nat)
    requires cfg.Valid() && qty < Sum(sizes)
    ensures exists f, shares, still :: SplitsAs(cfg, sizes, qty, Allocation(cfg, sizes, qty), f, shares, still)
  {
    hide Sum, FifoShares, SplitRest, QueueFill, ShareRule, WholeLots, FloorLot, Combined, Minus, Within;
    var f := Slice(cfg, qty);
    SliceIsLots(cfg, qty);
    FifoSharesFit(sizes, f);
    var s := SplitLevel(cfg, sizes, qty);
    var still := Minus(Minus(sizes, s.fifo), s.shares);
    forall i | 0 <= i < |sizes|
      ensures |s.shares| == |still| == |s.leftover| == |sizes|
      ensures ShareRule(cfg, qty - f, sizes[i] - QueueFill(sizes, f, i), Sum(sizes) - f, s.shares[i])
      ensures sizes[i] == QueueFill(sizes, f, i) + s.shares[i] + still[i]
      ensures Combined(s)[i] == QueueFill(sizes, f, i) + s.shares[i] + QueueFill(still, qty - f - Sum(s.shares), i)
    {
      RestAt(cfg, sizes, f, qty - f, i);
    }
    assert SplitsAs(cfg, sizes, qty, Allocation(cfg, sizes, qty), f, s.shares, still);
  }

  /** In particular no order gets less than its place in the queue earns it of the first-come part. */
  lemma FirstComeIsSafe(cfg: Config, sizes: seq<nat>, qty: nat)
    requires cfg.Valid() && qty < Sum(sizes)
    ensures exists f: nat ::
              && WholeLots(f, cfg.lotSize) && f * 100 <= qty * cfg.fifoPercent < (f + cfg.lotSize) * 100
              && forall i :: 0 <= i < |sizes| ==> Allocation(cfg, sizes, qty)[i] >= QueueFill(sizes, f, i)
  {
    hide Sum, QueueFill, ShareRule, WholeLots, Allocation;
    SplitPlainly(cfg, sizes, qty);
    var f, shares, still :| SplitsAs(cfg, sizes, qty, Allocation(cfg, sizes, qty), f, shares, still);
    assert WholeLots(f, cfg.lotSize);
  }
}
