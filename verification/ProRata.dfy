/**
 How the pro-rata engine splits an aggressor across one price level: a FIFO slice, then shares in
 proportion to size rounded down to lots, then the leftover in queue order.
 */
module ProRata {
  import opened Types

  datatype Config = Config(lotSize: nat, minAllocation: nat, fifoPercent: nat) {
    /** What the engine's constructor insists on. */
    predicate Valid() {
      lotSize > 0 && fifoPercent <= 100
    }
  }

  function Sum(a: seq<nat>): nat {
    if a == [] then 0 else a[0] + Sum(a[1..])
  }

  ghost predicate Within(a: seq<nat>, sizes: seq<nat>) {
    |a| == |sizes| && (a != [] ==> a[0] <= sizes[0] && Within(a[1..], sizes[1..]))
  }

  function Plus(a: seq<nat>, b: seq<nat>): (r: seq<nat>)
    requires |a| == |b|
    ensures |r| == |a|
  {
    if a == [] then [] else [a[0] + b[0]] + Plus(a[1..], b[1..])
  }

  ghost function Minus(sizes: seq<nat>, a: seq<nat>): (r: seq<nat>)
    requires Within(a, sizes)
    ensures |r| == |a|
  {
    if a == [] then [] else [sizes[0] - a[0]] + Minus(sizes[1..], a[1..])
  }

  lemma {:induction false} PointwiseAt(sizes: seq<nat>, a: seq<nat>, i: nat)
    requires Within(a, sizes) && i < |a|
    ensures a[i] <= sizes[i] && Minus(sizes, a)[i] == sizes[i] - a[i]
  {
    if i > 0 {
      PointwiseAt(sizes[1..], a[1..], i - 1);
    }
  }

  // ----- arithmetic

  /** floor(a * b / c), exact: the quotient is at most `a`, so it needs no more bits than `a`. */
  function MulDivFloor(a: nat, b: nat, c: nat): (r: nat)
    requires c != 0 && b <= c
    ensures r * c <= a * b < (r + 1) * c
    ensures r <= a
  {
    var r := a * b / c;
    assert r * c <= a * b < (r + 1) * c by { DivBounds(a * b, c); }
    assert r <= a by { QuotientBound(a, b, c, r); }
    r
  }

  lemma DivBounds(x: nat, c: nat)
    requires c != 0
    ensures x / c * c <= x < (x / c + 1) * c
  {
    assert x == x / c * c + x % c;
  }

  lemma QuotientBound(a: nat, b: nat, c: nat, r: nat)
    requires b <= c && r * c <= a * b && c != 0
    ensures r <= a
  {
    if r > a {
      assert r * c >= (a + 1) * c by { MulMono(a + 1, r, c); }
      assert a * b <= a * c by { MulMono(b, c, a); }
    }
  }

  lemma MulMono(a: nat, b: nat, c: nat)
    requires a <= b
    ensures a * c <= b * c && c * a <= c * b
  {
    assert b * c == a * c + (b - a) * c;
  }

  function FloorLot(x: nat, lot: nat): (r: nat)
    requires lot > 0
    ensures r <= x < r + lot
  {
    x - x % lot
  }

  // ----- the three steps

  /** Queue order: each order takes what it can of what is left. */
  function FifoShares(sizes: seq<nat>, f: nat): (r: seq<nat>)
    ensures |r| == |sizes|
  {
    if sizes == [] then [] else [Min(f, sizes[0])] + FifoShares(sizes[1..], f - Min(f, sizes[0]))
  }

  /** One order's proportional share of `pool`, given what it and the level still have. */
  function Share(cfg: Config, pool: nat, room: nat, base: nat): (r: nat)
    requires cfg.Valid() && base != 0 && room <= base
    ensures r * base <= pool * room
    ensures cfg.minAllocation == 0 ==> pool * room < (r + cfg.lotSize) * base
  {
    var exact := MulDivFloor(pool, room, base);
    var lots := FloorLot(exact, cfg.lotSize);
    assert lots * base <= exact * base by { MulMono(lots, exact, base); }
    assert (exact + 1) * base <= (lots + cfg.lotSize) * base by { MulMono(exact + 1, lots + cfg.lotSize, base); }
    if lots < cfg.minAllocation then 0 else lots
  }

  function Shares(cfg: Config, pool: nat, room: seq<nat>, base: nat): (r: seq<nat>)
    requires cfg.Valid() && base != 0
    requires forall i :: 0 <= i < |room| ==> room[i] <= base
    ensures |r| == |room|
  {
    if room == [] then [] else [Share(cfg, pool, room[0], base)] + Shares(cfg, pool, room[1..], base)
  }

  // ----- what each step places

  lemma {:induction false} FifoSharesFit(sizes: seq<nat>, f: nat)
    ensures Within(FifoShares(sizes, f), sizes)
    ensures Sum(FifoShares(sizes, f)) == Min(f, Sum(sizes))
  {
    if sizes != [] {
      var t := FifoShares(sizes[1..], f - Min(f, sizes[0]));
      FifoSharesFit(sizes[1..], f - Min(f, sizes[0]));
      assert FifoShares(sizes, f)[1..] == t;
    }
  }

  lemma {:induction false} SumMinus(sizes: seq<nat>, a: seq<nat>)
    requires Within(a, sizes)
    ensures Sum(Minus(sizes, a)) == Sum(sizes) - Sum(a)
  {
    if a != [] {
      SumMinus(sizes[1..], a[1..]);
      assert Minus(sizes, a)[1..] == Minus(sizes[1..], a[1..]);
    }
  }

  lemma {:induction false} SumPlus(a: seq<nat>, b: seq<nat>)
    requires |a| == |b|
    ensures Sum(Plus(a, b)) == Sum(a) + Sum(b)
  {
    if a != [] {
      SumPlus(a[1..], b[1..]);
      assert Plus(a, b)[1..] == Plus(a[1..], b[1..]);
    }
  }

  lemma {:induction false} WithinPlus(a: seq<nat>, b: seq<nat>, sizes: seq<nat>)
    requires Within(a, sizes) && Within(b, Minus(sizes, a))
    ensures Within(Plus(a, b), sizes)
    ensures Minus(sizes, Plus(a, b)) == Minus(Minus(sizes, a), b)
  {
    if a != [] {
      assert Minus(sizes, a)[1..] == Minus(sizes[1..], a[1..]);
      WithinPlus(a[1..], b[1..], sizes[1..]);
      assert Plus(a, b)[1..] == Plus(a[1..], b[1..]);
    }
  }

  lemma {:induction false} WithinFull(a: seq<nat>, sizes: seq<nat>)
    requires Within(a, sizes) && Sum(a) == Sum(sizes)
    ensures a == sizes
  {
    if a != [] {
      WithinSum(a[1..], sizes[1..]);
      WithinFull(a[1..], sizes[1..]);
    }
  }

  lemma {:induction false} WithinSum(a: seq<nat>, sizes: seq<nat>)
    requires Within(a, sizes)
    ensures Sum(a) <= Sum(sizes)
  {
    if a != [] {
      WithinSum(a[1..], sizes[1..]);
    }
  }

  lemma {:induction false} WithinSelf(sizes: seq<nat>)
    ensures Within(sizes, sizes)
  {
    if sizes != [] {
      WithinSelf(sizes[1..]);
    }
  }

  lemma {:induction false} MemberBelowSum(a: seq<nat>, i: nat)
    requires i < |a|
    ensures a[i] <= Sum(a)
  {
    if i > 0 {
      MemberBelowSum(a[1..], i - 1);
    }
  }

  lemma MembersBelowSum(a: seq<nat>)
    ensures forall i :: 0 <= i < |a| ==> a[i] <= Sum(a)
  {
    forall i | 0 <= i < |a| ensures a[i] <= Sum(a) {
      MemberBelowSum(a, i);
    }
  }

  lemma AddScaled(pool: nat, x: nat, y: nat, a: nat, b: nat, base: nat)
    ensures (a + b) * base == a * base + b * base
    ensures pool * (x + y) == pool * x + pool * y
  {
  }

  /** The shares never exceed the pool, and each fits its order when the pool is below the base. */
  lemma {:induction false} SharesFit(cfg: Config, pool: nat, room: seq<nat>, base: nat)
    requires cfg.Valid() && base != 0 && pool <= base
    requires forall i :: 0 <= i < |room| ==> room[i] <= base
    ensures Within(Shares(cfg, pool, room, base), room)
    ensures Sum(Shares(cfg, pool, room, base)) * base <= pool * Sum(room)
  {
    if room != [] {
      SharesFit(cfg, pool, room[1..], base);
      var head, rest := Share(cfg, pool, room[0], base), Shares(cfg, pool, room[1..], base);
      assert Shares(cfg, pool, room, base)[1..] == rest;
      ShareBelowRoom(pool, room[0], base, head);
      AddScaled(pool, room[0], Sum(room[1..]), head, Sum(rest), base);
    }
  }

  lemma LotSlack(lot: nat, n: nat)
    ensures (n + 1) * lot == lot + n * lot
  {
  }

  /** With no minimum they fall short of the pool by less than a lot per order. */
  lemma {:induction false} SharesTight(cfg: Config, pool: nat, room: seq<nat>, base: nat)
    requires cfg.Valid() && cfg.minAllocation == 0 && base != 0 && room != []
    requires forall i :: 0 <= i < |room| ==> room[i] <= base
    ensures pool * Sum(room) < (Sum(Shares(cfg, pool, room, base)) + |room| * cfg.lotSize) * base
  {
    var lot, n := cfg.lotSize, |room[1..]|;
    var head, rest := Share(cfg, pool, room[0], base), Shares(cfg, pool, room[1..], base);
    assert Shares(cfg, pool, room, base)[1..] == rest;
    LotSlack(lot, n);
    AddScaled(pool, room[0], Sum(room[1..]), head + lot, Sum(rest) + n * lot, base);
    if room[1..] == [] {
      assert Sum(rest) + n * lot == 0;
    } else {
      SharesTight(cfg, pool, room[1..], base);
    }
  }

  lemma ShareBelowRoom(pool: nat, room: nat, base: nat, r: nat)
    requires base != 0 && pool <= base && r * base <= pool * room
    ensures r <= room
  {
    QuotientBound(room, pool, base, r);
  }

  lemma ProportionBound(pool: nat, total: nat, base: nat, s: nat)
    requires s * base <= pool * total && total == base && base != 0
    ensures s <= pool
  {
    if s > pool {
      MulMono(pool + 1, s, base);
    }
  }

  // ----- the whole split

  datatype Split = Split(fifo: seq<nat>, shares: seq<nat>, leftover: seq<nat>, spilled: nat)

  ghost function Slice(cfg: Config, qty: nat): (r: nat)
    requires cfg.Valid()
    ensures r <= qty
  {
    FloorLot(MulDivFloor(qty, cfg.fifoPercent, 100), cfg.lotSize)
  }

  /** Steps two and three, once `fifo` has been placed. */
  ghost function SplitRest(cfg: Config, sizes: seq<nat>, fifo: seq<nat>, pool: nat): (r: Split)
    requires cfg.Valid() && Within(fifo, sizes) && Sum(fifo) + pool < Sum(sizes)
    ensures r.fifo == fifo
    ensures Within(r.shares, Minus(sizes, r.fifo))
    ensures Within(r.leftover, Minus(Minus(sizes, r.fifo), r.shares))
    ensures Sum(r.leftover) == r.spilled == pool - Sum(r.shares)
  {
    var room := Minus(sizes, fifo);
    SumMinus(sizes, fifo);
    MembersBelowSum(room);
    var base := Sum(room);
    SharesFit(cfg, pool, room, base);
    var shares := Shares(cfg, pool, room, base);
    ProportionBound(pool, Sum(room), base, Sum(shares));
    var spilled := pool - Sum(shares);
    SumMinus(room, shares);
    FifoSharesFit(Minus(room, shares), spilled);
    Split(fifo, shares, FifoShares(Minus(room, shares), spilled), spilled)
  }

  /** The three steps of a level the aggressor cannot take whole. */
  ghost function SplitLevel(cfg: Config, sizes: seq<nat>, qty: nat): (r: Split)
    requires cfg.Valid() && qty < Sum(sizes)
  {
    FifoSharesFit(sizes, Slice(cfg, qty));
    SplitRest(cfg, sizes, FifoShares(sizes, Slice(cfg, qty)), qty - Slice(cfg, qty))
  }

  ghost function Combined(s: Split): (r: seq<nat>)
    requires |s.fifo| == |s.shares| == |s.leftover|
    ensures |r| == |s.fifo|
  {
    Plus(Plus(s.fifo, s.shares), s.leftover)
  }

  /** The quantity each order of the level trades, in queue order. */
  ghost function Allocation(cfg: Config, sizes: seq<nat>, qty: nat): (r: seq<nat>)
    requires cfg.Valid()
    ensures |r| == |sizes|
  {
    if qty >= Sum(sizes) then sizes
    else Combined(SplitLevel(cfg, sizes, qty))
  }

  /** Every split is exact: it places min(qty, level) and gives no order more than it has. */
  lemma AllocationExact(cfg: Config, sizes: seq<nat>, qty: nat)
    requires cfg.Valid()
    ensures Within(Allocation(cfg, sizes, qty), sizes)
    ensures Sum(Allocation(cfg, sizes, qty)) == Min(qty, Sum(sizes))
  {
    if qty >= Sum(sizes) {
      WithinSelf(sizes);
    } else {
      var s := SplitLevel(cfg, sizes, qty);
      FifoSharesFit(sizes, Slice(cfg, qty));
      WithinPlus(s.fifo, s.shares, sizes);
      WithinPlus(Plus(s.fifo, s.shares), s.leftover, sizes);
      SumPlus(s.fifo, s.shares);
      SumPlus(Plus(s.fifo, s.shares), s.leftover);
    }
  }

  /** Share i is within one lot below the exact proportion pool * room[i] / Sum(room). */
  ghost predicate Proportional(shares: seq<nat>, pool: nat, room: seq<nat>, lot: nat) {
    |shares| == |room| &&
    forall i :: 0 <= i < |room| ==>
      shares[i] * Sum(room) <= pool * room[i] < (shares[i] + lot) * Sum(room)
  }

  /** A way of splitting an aggressor across a level: exact in total, and within each order's size. */
  ghost predicate Exact(split: (seq<nat>, nat) -> seq<nat>) {
    forall sizes: seq<nat>, qty: nat ::
      Within(split(sizes, qty), sizes) && Sum(split(sizes, qty)) == Min(qty, Sum(sizes))
  }

  ghost function Splitter(cfg: Config): (split: (seq<nat>, nat) -> seq<nat>)
    requires cfg.Valid()
    ensures forall sizes: seq<nat>, qty: nat :: split(sizes, qty) == Allocation(cfg, sizes, qty)
  {
    (sizes: seq<nat>, qty: nat) => Allocation(cfg, sizes, qty)
  }

  lemma SplitterExact(cfg: Config)
    requires cfg.Valid()
    ensures Exact(Splitter(cfg))
  {
    forall sizes: seq<nat>, qty: nat
      ensures Within(Splitter(cfg)(sizes, qty), sizes) && Sum(Splitter(cfg)(sizes, qty)) == Min(qty, Sum(sizes))
    {
      AllocationExact(cfg, sizes, qty);
    }
  }

  /**
   Fairness. With no minimum, every order's share of the pool is within one lot below its exact
   proportion, and what spills over to queue order is less than a lot per order.
   */
  lemma FairShares(cfg: Config, sizes: seq<nat>, slice: nat, qty: nat)
    requires cfg.Valid() && cfg.minAllocation == 0 && slice <= qty < Sum(sizes)
    ensures Within(FifoShares(sizes, slice), sizes) && Sum(FifoShares(sizes, slice)) == slice
    ensures Fair(SplitRest(cfg, sizes, FifoShares(sizes, slice), qty - slice), sizes, qty - slice, cfg.lotSize)
  {
    FifoSharesFit(sizes, slice);
    FairRest(cfg, sizes, FifoShares(sizes, slice), qty - slice);
  }

  ghost predicate Fair(s: Split, sizes: seq<nat>, pool: nat, lot: nat) {
    && Within(s.fifo, sizes)
    && Proportional(s.shares, pool, Minus(sizes, s.fifo), lot)
    && s.spilled < |sizes| * lot
  }

  lemma FairRest(cfg: Config, sizes: seq<nat>, fifo: seq<nat>, pool: nat)
    requires cfg.Valid() && cfg.minAllocation == 0 && Within(fifo, sizes) && Sum(fifo) + pool < Sum(sizes)
    ensures Fair(SplitRest(cfg, sizes, fifo, pool), sizes, pool, cfg.lotSize)
  {
    SumMinus(sizes, fifo);
    MembersBelowSum(Minus(sizes, fifo));
    FairPool(cfg, pool, Minus(sizes, fifo));
  }

  lemma FairPool(cfg: Config, pool: nat, room: seq<nat>)
    requires cfg.Valid() && cfg.minAllocation == 0 && Sum(room) != 0
    requires forall i :: 0 <= i < |room| ==> room[i] <= Sum(room)
    ensures Proportional(Shares(cfg, pool, room, Sum(room)), pool, room, cfg.lotSize)
    ensures pool < Sum(Shares(cfg, pool, room, Sum(room))) + |room| * cfg.lotSize
  {
    var base := Sum(room);
    var shares := Shares(cfg, pool, room, base);
    forall i | 0 <= i < |room|
      ensures shares[i] * base <= pool * room[i] < (shares[i] + cfg.lotSize) * base
    {
      SharesAt(cfg, pool, room, base, i);
    }
    SharesTight(cfg, pool, room, base);
    CancelFactor(pool, Sum(shares) + |room| * cfg.lotSize, base);
  }

  lemma CancelFactor(a: nat, b: nat, c: nat)
    requires a * c < b * c
    ensures a < b
  {
    if a >= b {
      MulMono(b, a, c);
    }
  }

  lemma {:induction false} SharesAt(cfg: Config, pool: nat, room: seq<nat>, base: nat, i: nat)
    requires cfg.Valid() && base != 0 && i < |room|
    requires forall i :: 0 <= i < |room| ==> room[i] <= base
    ensures Shares(cfg, pool, room, base)[i] == Share(cfg, pool, room[i], base)
  {
    if i > 0 {
      SharesAt(cfg, pool, room[1..], base, i - 1);
    }
  }

  /** FIFO in closed form: an order trades what is left of the quantity once everything ahead of it is filled. */
  lemma {:induction false} FifoClosedForm(sizes: seq<nat>, qty: nat, i: nat)
    requires i < |sizes|
    ensures FifoShares(sizes, qty)[i] ==
            if qty <= Sum(sizes[..i]) then 0 else Min(qty - Sum(sizes[..i]), sizes[i])
  {
    if i > 0 {
      FifoClosedForm(sizes[1..], qty - Min(qty, sizes[0]), i - 1);
      assert sizes[..i][1..] == sizes[1..][..i - 1];
    }
  }

  // ----- at 100 percent the split is FIFO

  lemma {:induction false} SharesVanish(cfg: Config, pool: nat, room: seq<nat>, base: nat)
    requires cfg.Valid() && base != 0 && pool < cfg.lotSize
    requires forall i :: 0 <= i < |room| ==> room[i] <= base
    ensures Sum(Shares(cfg, pool, room, base)) == 0
  {
    if room != [] {
      SharesVanish(cfg, pool, room[1..], base);
      assert Shares(cfg, pool, room, base)[1..] == Shares(cfg, pool, room[1..], base);
      var exact := MulDivFloor(pool, room[0], base);
      assert exact % cfg.lotSize == exact by { SmallMod(exact, cfg.lotSize); }
    }
  }

  lemma SmallMod(x: nat, m: nat)
    requires x < m
    ensures x % m == x
  {
  }

  lemma FifoCons(x: nat, rest: seq<nat>, f: nat)
    ensures FifoShares([x] + rest, f) == [Min(f, x)] + FifoShares(rest, f - Min(f, x))
  {
    assert ([x] + rest)[1..] == rest;
  }

  lemma MinusCons(x: nat, rest: seq<nat>, t: nat, a: seq<nat>)
    requires t <= x && Within(a, rest)
    ensures Within([t] + a, [x] + rest)
    ensures Minus([x] + rest, [t] + a) == [x - t] + Minus(rest, a)
  {
    var ta, xr := [t] + a, [x] + rest;
    assert ta[1..] == a && xr[1..] == rest;
  }

  lemma PlusCons(t: nat, a: seq<nat>, u: nat, b: seq<nat>)
    requires |a| == |b|
    ensures Plus([t] + a, [u] + b) == [t + u] + Plus(a, b)
  {
    var ta, ub := [t] + a, [u] + b;
    assert ta[1..] == a && ub[1..] == b;
  }

  /** Two FIFO passes in a row place what one pass of the combined quantity places. */
  lemma {:induction false} FifoTwice(sizes: seq<nat>, f: nat, g: nat)
    ensures Within(FifoShares(sizes, f), sizes)
    ensures Plus(FifoShares(sizes, f), FifoShares(Minus(sizes, FifoShares(sizes, f)), g)) == FifoShares(sizes, f + g)
  {
    if sizes != [] {
      var x, rest := sizes[0], sizes[1..];
      var t := Min(f, x);
      var u := Min(g, x - t);
      FifoTwice(rest, f - t, g - u);
      var a := FifoShares(rest, f - t);
      var b := FifoShares(Minus(rest, a), g - u);
      MinusCons(x, rest, t, a);
      PlusCons(t, a, u, b);
      assert sizes == [x] + rest;
      FifoCons(x - t, Minus(rest, a), g);
      assert Min(f + g, x) == t + u;
    }
  }

  lemma SliceAtHundred(cfg: Config, qty: nat)
    requires cfg.Valid() && cfg.fifoPercent == 100
    ensures qty < Slice(cfg, qty) + cfg.lotSize
  {
    assert MulDivFloor(qty, 100, 100) == qty by {
      assert qty * 100 / 100 == qty;
    }
  }

  /** With the whole quantity in the FIFO slice, every order gets exactly its FIFO fill, for any lot size. */
  lemma HundredPercentIsFifo(cfg: Config, sizes: seq<nat>, qty: nat)
    requires cfg.Valid() && cfg.fifoPercent == 100
    ensures Allocation(cfg, sizes, qty) == FifoShares(sizes, qty)
  {
    if qty >= Sum(sizes) {
      FifoTakesAll(sizes, qty);
    } else {
      SliceAtHundred(cfg, qty);
      AlmostAllFifo(cfg, sizes, Slice(cfg, qty), qty);
    }
  }

  lemma AlmostAllFifo(cfg: Config, sizes: seq<nat>, slice: nat, qty: nat)
    requires cfg.Valid() && slice == Slice(cfg, qty) && qty < Sum(sizes) && qty < slice + cfg.lotSize
    ensures Combined(SplitLevel(cfg, sizes, qty)) == FifoShares(sizes, slice + (qty - slice))
  {
    FifoSharesFit(sizes, slice);
    hide SplitRest, FifoShares, Combined, Sum;
    SmallPoolIsFifo(cfg, sizes, FifoShares(sizes, slice), slice, qty - slice);
  }

  lemma SmallPoolIsFifo(cfg: Config, sizes: seq<nat>, fifo: seq<nat>, slice: nat, pool: nat)
    requires cfg.Valid() && Within(fifo, sizes) && Sum(fifo) + pool < Sum(sizes) && pool < cfg.lotSize
    requires fifo == FifoShares(sizes, slice)
    ensures Combined(SplitRest(cfg, sizes, fifo, pool)) == FifoShares(sizes, slice + pool)
  {
    FifoTwice(sizes, slice, pool);
    SmallPoolGoesFifo(cfg, sizes, fifo, pool);
  }

  lemma SmallPoolShares(cfg: Config, sizes: seq<nat>, fifo: seq<nat>, pool: nat)
    requires cfg.Valid() && Within(fifo, sizes) && Sum(fifo) + pool < Sum(sizes) && pool < cfg.lotSize
    ensures var s := SplitRest(cfg, sizes, fifo, pool);
            && |s.shares| == |Minus(sizes, fifo)| == |fifo|
            && Sum(s.shares) == 0 && s.leftover == FifoShares(Minus(Minus(sizes, fifo), s.shares), pool)
  {
    hide Shares, FifoShares, Sum, Plus, Minus;
    var room := Minus(sizes, fifo);
    SumMinus(sizes, fifo);
    MembersBelowSum(room);
    SharesVanish(cfg, pool, room, Sum(room));
  }

  lemma SmallPoolGoesFifo(cfg: Config, sizes: seq<nat>, fifo: seq<nat>, pool: nat)
    requires cfg.Valid() && Within(fifo, sizes) && Sum(fifo) + pool < Sum(sizes) && pool < cfg.lotSize
    ensures Combined(SplitRest(cfg, sizes, fifo, pool)) == Plus(fifo, FifoShares(Minus(sizes, fifo), pool))
  {
    hide SplitRest, FifoShares, Sum, Plus, Minus, Within;
    var s := SplitRest(cfg, sizes, fifo, pool);
    var room := Minus(sizes, fifo);
    SmallPoolShares(cfg, sizes, fifo, pool);
    ZeroShares(room, s.shares);
    ZeroShares(fifo, s.shares);
  }

  lemma {:induction false} ZeroShares(a: seq<nat>, zeros: seq<nat>)
    requires |a| == |zeros| && Sum(zeros) == 0
    ensures Plus(a, zeros) == a && Within(zeros, a) && Minus(a, zeros) == a
  {
    if a != [] {
      ZeroShares(a[1..], zeros[1..]);
    }
  }

  lemma {:induction false} FifoTakesAll(sizes: seq<nat>, qty: nat)
    requires qty >= Sum(sizes)
    ensures FifoShares(sizes, qty) == sizes
  {
    if sizes != [] {
      FifoTakesAll(sizes[1..], qty - sizes[0]);
    }
  }

  // ----- the engine's loops

  lemma {:induction false} PlusAt(a: seq<nat>, b: seq<nat>, i: nat)
    requires |a| == |b| && i < |a|
    ensures Plus(a, b)[i] == a[i] + b[i]
  {
    if i > 0 {
      PlusAt(a[1..], b[1..], i - 1);
    }
  }

  lemma {:induction false} SumPrefix(a: seq<nat>, i: nat)
    requires i < |a|
    ensures Sum(a[..i + 1]) == Sum(a[..i]) + a[i]
  {
    if i > 0 {
      assert a[..i + 1][1..] == a[1..][..i] && a[..i][1..] == a[1..][..i - 1];
      SumPrefix(a[1..], i - 1);
    }
  }

  lemma {:induction false} SumPrefixBelow(a: seq<nat>, i: nat)
    requires i <= |a|
    ensures Sum(a[..i]) <= Sum(a)
  {
    if i > 0 {
      assert a[..i][1..] == a[1..][..i - 1];
      SumPrefixBelow(a[1..], i - 1);
    }
  }

  lemma {:induction false} FifoNothing(sizes: seq<nat>)
    ensures FifoShares(sizes, 0) == seq(|sizes|, _ => 0)
  {
    if sizes != [] {
      FifoNothing(sizes[1..]);
    }
  }

  /** Queue-order pass: adds to `a` what `left` covers of the room each order still has. */
  method PlaceInQueueOrder(sizes: seq<nat>, a: seq<nat>, left: nat) returns (b: seq<nat>, rest: nat)
    requires Within(a, sizes)
    ensures b == Plus(a, FifoShares(Minus(sizes, a), left))
    ensures rest == left - Min(left, Sum(Minus(sizes, a)))
  {
    ghost var room := Minus(sizes, a);
    ghost var target := Plus(a, FifoShares(room, left));
    b, rest := a, left;
    var i := 0;
    FifoSharesFit(room, left);
    while i < |sizes| && rest != 0
      invariant 0 <= i <= |sizes| && |b| == |sizes|
      invariant forall j :: 0 <= j < i ==> b[j] == target[j]
      invariant forall j :: i <= j < |sizes| ==> b[j] == a[j]
      invariant FifoShares(room, left)[i..] == FifoShares(room[i..], rest)
      invariant rest + Min(left, Sum(room)) == left + Min(rest, Sum(room[i..]))
    {
      PointwiseAt(sizes, a, i);
      var extra := Min(rest, sizes[i] - b[i]);
      assert room[i..][0] == room[i] && room[i..][1..] == room[i + 1..];
      assert FifoShares(room, left)[i] == FifoShares(room, left)[i..][0] == extra;
      PlusAt(a, FifoShares(room, left), i);
      assert FifoShares(room, left)[i + 1..] == FifoShares(room, left)[i..][1..];
      b := b[i := b[i] + extra];
      rest := rest - extra;
      i := i + 1;
    }
    if rest == 0 {
      FifoNothing(room[i..]);
      forall j | i <= j < |sizes| ensures b[j] == target[j] {
        PlusAt(a, FifoShares(room, left), j);
        assert FifoShares(room, left)[j] == FifoShares(room, left)[i..][j - i];
      }
    }
    assert b == target;
  }

  /** Proportional pass: adds each order's share of `pool` and returns what was not placed. */
  method PlaceShares(cfg: Config, sizes: seq<nat>, a: seq<nat>, pool: nat, base: nat) returns (b: seq<nat>, rest: nat)
    requires cfg.Valid() && Within(a, sizes) && base == Sum(sizes) - Sum(a) && pool < base
    requires forall i :: 0 <= i < |a| ==> Minus(sizes, a)[i] <= base
    requires Sum(Shares(cfg, pool, Minus(sizes, a), base)) <= pool
    ensures b == Plus(a, Shares(cfg, pool, Minus(sizes, a), base))
    ensures rest == pool - Sum(Shares(cfg, pool, Minus(sizes, a), base))
  {
    ghost var room := Minus(sizes, a);
    ghost var shares := Shares(cfg, pool, room, base);
    b, rest := a, pool;
    var i := 0;
    while i < |sizes|
      invariant 0 <= i <= |sizes| && |b| == |sizes|
      invariant forall j :: 0 <= j < i ==> b[j] == Plus(a, shares)[j]
      invariant forall j :: i <= j < |sizes| ==> b[j] == a[j]
      invariant rest == pool - Sum(shares[..i])
    {
      PointwiseAt(sizes, a, i);
      SharesAt(cfg, pool, room, base, i);
      PlusAt(a, shares, i);
      SumPrefix(shares, i);
      SumPrefixBelow(shares, i + 1);
      var share := Share(cfg, pool, sizes[i] - b[i], base);
      b := b[i := b[i] + share];
      rest := rest - share;
      i := i + 1;
    }
    assert shares[..i] == shares;
    assert b == Plus(a, shares);
  }

  /**
   The quantity each order on the level trades. The engine's closing assertion - nothing is left to
   place - is discharged here, as is the `b <= c` precondition of every MulDivFloor.
   */
  method Allocate(cfg: Config, sizes: seq<nat>, qty: nat) returns (alloc: seq<nat>)
    requires cfg.Valid()
    ensures alloc == Allocation(cfg, sizes, qty)
    ensures Within(alloc, sizes) && Sum(alloc) == Min(qty, Sum(sizes))
  {
    AllocationExact(cfg, sizes, qty);
    var total := 0;
    for i := 0 to |sizes|
      invariant total == Sum(sizes[..i])
    {
      SumPrefix(sizes, i);
      total := total + sizes[i];
    }
    assert sizes[..|sizes|] == sizes;
    if qty >= total {
      return sizes;
    }
    hide Sum, SplitRest, Combined, FifoShares, Within, Plus, FloorLot, MulDivFloor;
    var zeros := seq(|sizes|, _ => 0);
    ZerosSum(|sizes|);
    ZeroShares(sizes, zeros);
    var slice := FloorLot(MulDivFloor(qty, cfg.fifoPercent, 100), cfg.lotSize);
    var unplaced: nat;
    alloc, unplaced := PlaceInQueueOrder(sizes, zeros, slice);
    ZerosPlus(FifoShares(sizes, slice));
    FifoSharesFit(sizes, slice);
    var left := qty - slice;
    alloc := AllocateRest(cfg, sizes, alloc, left, total - (qty - left));
  }

  method AllocateRest(cfg: Config, sizes: seq<nat>, fifo: seq<nat>, pool: nat, base: nat) returns (alloc: seq<nat>)
    requires cfg.Valid() && Within(fifo, sizes) && base == Sum(sizes) - Sum(fifo) && pool < base
    ensures alloc == Combined(SplitRest(cfg, sizes, fifo, pool))
  {
    ghost var s := SplitRest(cfg, sizes, fifo, pool);
    SumMinus(sizes, fifo);
    MembersBelowSum(Minus(sizes, fifo));
    var left := pool;
    alloc := fifo;
    if left > 0 {
      alloc, left := PlaceShares(cfg, sizes, fifo, pool, base);
    } else {
      NoPool(cfg, fifo, Minus(sizes, fifo), base);
    }
    WithinPlus(fifo, s.shares, sizes);
    SumMinus(Minus(sizes, fifo), s.shares);
    alloc, left := PlaceInQueueOrder(sizes, alloc, left);
    assert left == 0;
  }

  lemma NoPool(cfg: Config, a: seq<nat>, room: seq<nat>, base: nat)
    requires cfg.Valid() && base != 0 && |a| == |room|
    requires forall i :: 0 <= i < |room| ==> room[i] <= base
    ensures Sum(Shares(cfg, 0, room, base)) == 0 && Plus(a, Shares(cfg, 0, room, base)) == a
  {
    SharesVanish(cfg, 0, room, base);
    ZeroShares(a, Shares(cfg, 0, room, base));
  }

  lemma {:induction false} ZerosSum(n: nat)
    ensures Sum(seq(n, _ => 0)) == 0
  {
    if n > 0 {
      ZerosSum(n - 1);
      assert seq(n, _ => 0)[1..] == seq(n - 1, _ => 0);
    }
  }

  lemma {:induction false} ZerosPlus(a: seq<nat>)
    ensures Plus(seq(|a|, _ => 0), a) == a
  {
    if a != [] {
      ZerosPlus(a[1..]);
      assert seq(|a|, _ => 0)[1..] == seq(|a| - 1, _ => 0);
    }
  }
}
