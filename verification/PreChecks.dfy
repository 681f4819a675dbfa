/**
 The two read-only checks made before an order is touched, and the proof that each predicts what
 the matching loop would do: the CANCEL_NEWEST scan and the fill-or-kill scan.
 */
module PreChecks {
  import opened Types
  import opened Queue
  import opened MatchPlan
  import ProRata

  // ----- order of the queue

  lemma SortedAt(s: Side, q: seq<Resting>, i: nat)
    requires WellFormed(s, q) && 0 < i < |q|
    ensures Ahead(s, q[0], q[i])
  {
    ViewMember(q[1..]);
    assert q[i] == q[1..][i - 1];
    assert q[i] in q[1..];
  }

  lemma WorseBehind(t: Terms, q: seq<Resting>, i: nat)
    requires WellFormed(t.side, q) && i < |q| && !Crosses(t.side, q[0].price, t.limit)
    ensures !Crosses(t.side, q[i].price, t.limit)
  {
    if i > 0 {
      SortedAt(t.side, q, i);
    }
  }

  // ----- the CANCEL_NEWEST scan

  /** FIFO reaches order i when the quantity ahead of it does not use the aggressor up. */
  ghost predicate ReachesInQueue(t: Terms, q: seq<Resting>, qty: nat, i: nat) {
    i < |q| && Crosses(t.side, q[i].price, t.limit) && q[i].id in t.self && Total(q[..i]) < qty
  }

  function BetterTotal(s: Side, q: seq<Resting>, p: Price): nat {
    if q == [] then 0 else (if IsPriceBetter(s, q[0].price, p) then q[0].qty else 0) + BetterTotal(s, q[1..], p)
  }

  /** Pro-rata reaches every order of a level that the better levels do not use the aggressor up before. */
  ghost predicate ReachesOnLevel(t: Terms, q: seq<Resting>, qty: nat, i: nat) {
    i < |q| && Crosses(t.side, q[i].price, t.limit) && q[i].id in t.self && BetterTotal(t.side, q, q[i].price) < qty
  }

  ghost predicate QueueReach(t: Terms, q: seq<Resting>, qty: nat) {
    exists i: nat :: ReachesInQueue(t, q, qty, i)
  }

  ghost predicate LevelReach(t: Terms, q: seq<Resting>, qty: nat) {
    exists i: nat :: ReachesOnLevel(t, q, qty, i)
  }

  lemma ReachShift(t: Terms, q: seq<Resting>, qty: nat, i: nat)
    requires q != []
    ensures ReachesInQueue(t, q, qty, i + 1) <==>
            qty > q[0].qty && ReachesInQueue(t, q[1..], qty - Min(qty, q[0].qty), i)
  {
    if i + 1 < |q| {
      assert q[..i + 1][1..] == q[1..][..i];
      assert q[..i + 1][0] == q[0];
    }
  }

  lemma QueueReachStep(t: Terms, q: seq<Resting>, qty: nat)
    requires WellFormed(t.side, q) && q != [] && Crosses(t.side, q[0].price, t.limit) && qty > 0
    ensures QueueReach(t, q, qty) <==>
            q[0].id in t.self || QueueReach(t, q[1..], qty - Min(qty, q[0].qty))
  {
    if q[0].id in t.self {
      assert q[..0] == [];
      assert ReachesInQueue(t, q, qty, 0);
    } else {
      if QueueReach(t, q, qty) {
        var i: nat :| ReachesInQueue(t, q, qty, i);
        ReachShift(t, q, qty, i - 1);
      }
      if QueueReach(t, q[1..], qty - Min(qty, q[0].qty)) {
        var i: nat :| ReachesInQueue(t, q[1..], qty - Min(qty, q[0].qty), i);
        ReachShift(t, q, qty, i);
      }
    }
  }

  lemma NoReachBehind(t: Terms, q: seq<Resting>, qty: nat)
    requires WellFormed(t.side, q) && t.Stops(q, qty)
    ensures !QueueReach(t, q, qty) && !LevelReach(t, q, qty)
  {
    if q != [] && !Crosses(t.side, q[0].price, t.limit) {
      forall i: nat | i < |q| ensures !Crosses(t.side, q[i].price, t.limit) {
        WorseBehind(t, q, i);
      }
    }
  }

  /** The scan predicts the FIFO loop exactly: the backstop fires if and only if an own order is in reach. */
  lemma {:induction false} FifoBackstop(t: Terms, q: seq<Resting>, qty: nat)
    requires WellFormed(t.side, q) && t.smp == CancelNewest
    ensures FifoPlan(t, q, qty).rejected <==> QueueReach(t, q, qty)
  {
    if t.Stops(q, qty) {
      NoReachBehind(t, q, qty);
    } else {
      QueueReachStep(t, q, qty);
      Tail(t.side, q);
      if q[0].id !in t.self {
        FifoBackstop(t, q[1..], qty - Min(qty, q[0].qty));
      }
    }
  }

  lemma {:induction false} BetterTotalConcat(s: Side, a: seq<Resting>, b: seq<Resting>, p: Price)
    ensures BetterTotal(s, a + b, p) == BetterTotal(s, a, p) + BetterTotal(s, b, p)
  {
    if a == [] {
      assert a + b == b;
    } else {
      assert (a + b)[1..] == a[1..] + b;
      BetterTotalConcat(s, a[1..], b, p);
    }
  }

  lemma {:induction false} BetterTotalUniform(s: Side, level: seq<Resting>, p: Price, p': Price)
    requires forall i :: 0 <= i < |level| ==> level[i].price == p
    ensures BetterTotal(s, level, p') == if IsPriceBetter(s, p, p') then Total(level) else 0
  {
    if level != [] {
      BetterTotalUniform(s, level[1..], p, p');
    }
  }

  lemma {:induction false} NothingBetter(s: Side, q: seq<Resting>, p: Price)
    requires forall i :: 0 <= i < |q| ==> !IsPriceBetter(s, q[i].price, p)
    ensures BetterTotal(s, q, p) == 0
  {
    if q != [] {
      NothingBetter(s, q[1..], p);
    }
  }

  /** Everything behind the best level is strictly worse. */
  lemma BehindIsWorse(s: Side, q: seq<Resting>, i: nat)
    requires WellFormed(s, q) && q != [] && i < |Behind(q)|
    ensures IsPriceBetter(s, q[0].price, Behind(q)[i].price)
  {
    var n := FrontLen(q);
    FrontBehind(s, q);
    SortedAt(s, q, n + i);
    SortedAt(s, q, n);
    if i > 0 {
      SortedAt(s, Behind(q), i);
    }
  }

  lemma LevelReachShift(t: Terms, q: seq<Resting>, qty: nat, i: nat)
    requires WellFormed(t.side, q) && q != [] && i < |Behind(q)|
    ensures ReachesOnLevel(t, q, qty, |Front(q)| + i) <==>
            qty > Total(Front(q)) && ReachesOnLevel(t, Behind(q), qty - Min(qty, Total(Front(q))), i)
  {
    FrontBehind(t.side, q);
    BehindIsWorse(t.side, q, i);
    var p := Behind(q)[i].price;
    BetterTotalConcat(t.side, Front(q), Behind(q), p);
    BetterTotalUniform(t.side, Front(q), q[0].price, p);
  }

  lemma FrontReached(t: Terms, q: seq<Resting>, qty: nat, i: nat)
    requires WellFormed(t.side, q) && q != [] && i < |Front(q)| && qty > 0
    requires Crosses(t.side, q[0].price, t.limit)
    ensures ReachesOnLevel(t, q, qty, i) <==> Front(q)[i].id in t.self
  {
    FrontBehind(t.side, q);
    forall j | 0 <= j < |q| ensures !IsPriceBetter(t.side, q[j].price, q[0].price) {
      if j > 0 {
        SortedAt(t.side, q, j);
      }
    }
    NothingBetter(t.side, q, q[0].price);
    assert q[i] == Front(q)[i];
  }

  lemma LevelReachStep(t: Terms, q: seq<Resting>, qty: nat)
    requires WellFormed(t.side, q) && q != [] && Crosses(t.side, q[0].price, t.limit) && qty > 0
    ensures LevelReach(t, q, qty) <==>
            || (exists i :: 0 <= i < |Front(q)| && Front(q)[i].id in t.self)
            || LevelReach(t, Behind(q), qty - Min(qty, Total(Front(q))))
  {
    var left := qty - Min(qty, Total(Front(q)));
    FrontBehind(t.side, q);
    if LevelReach(t, q, qty) {
      var i: nat :| ReachesOnLevel(t, q, qty, i);
      if i < |Front(q)| {
        FrontReached(t, q, qty, i);
      } else {
        LevelReachShift(t, q, qty, i - |Front(q)|);
      }
    }
    if i :| 0 <= i < |Front(q)| && Front(q)[i].id in t.self {
      FrontReached(t, q, qty, i);
    }
    if LevelReach(t, Behind(q), left) {
      var i: nat :| ReachesOnLevel(t, Behind(q), left, i);
      LevelReachShift(t, q, qty, i);
    }
  }

  /** The same for pro-rata, whose reach is the whole level. */
  lemma {:induction false} ProRataBackstop(split: Splitting, t: Terms, q: seq<Resting>, qty: nat)
    requires WellFormed(t.side, q) && t.smp == CancelNewest
    ensures ProRataPlan(split, t, q, qty).rejected <==> LevelReach(t, q, qty)
    decreases |q|
  {
    hide View, WellFormed, LevelReach, Total, BetterTotal, Crosses;
    if t.Stops(q, qty) {
      NoReachBehind(t, q, qty);
    } else {
      LevelReachStep(t, q, qty);
      KeptMembers(t, Front(q));
      FrontBehind(t.side, q);
      if Kept(t, Front(q)) == Front(q) {
        ProRataBackstop(split, t, Behind(q), qty - Min(qty, Total(Front(q))));
      }
    }
  }

  // ----- the fill-or-kill scan

  /** Crossing quantity that self-match prevention leaves tradable. */
  function Available(t: Terms, q: seq<Resting>): nat {
    if q == [] || !Crosses(t.side, q[0].price, t.limit) then 0
    else (if t.Blocks(q[0]) then 0 else q[0].qty) + Available(t, q[1..])
  }

  /** Is there enough before the scan runs out, or under CANCEL_NEWEST before it meets an own order? */
  ghost predicate CanFill(t: Terms, q: seq<Resting>, qty: nat) {
    if q == [] || !Crosses(t.side, q[0].price, t.limit) then qty == 0
    else if t.Blocks(q[0]) then t.smp != CancelNewest && CanFill(t, q[1..], qty)
    else qty <= q[0].qty || CanFill(t, q[1..], qty - q[0].qty)
  }

  lemma {:induction false} CanFillAvailable(t: Terms, q: seq<Resting>, qty: nat)
    requires t.smp != CancelNewest
    ensures CanFill(t, q, qty) <==> qty <= Available(t, q)
  {
    if q != [] && Crosses(t.side, q[0].price, t.limit) {
      if t.Blocks(q[0]) {
        CanFillAvailable(t, q[1..], qty);
      } else if qty > q[0].qty {
        CanFillAvailable(t, q[1..], qty - q[0].qty);
      }
    }
  }

  /** A plan that is not turned back leaves exactly what the crossing liquidity could not cover. */
  lemma {:induction false} FifoRemaining(t: Terms, q: seq<Resting>, qty: nat)
    requires WellFormed(t.side, q) && !FifoPlan(t, q, qty).rejected
    ensures FifoPlan(t, q, qty).remaining == qty - Min(qty, Available(t, q))
  {
    if !t.Stops(q, qty) {
      Tail(t.side, q);
      FifoRemaining(t, q[1..], if t.Blocks(q[0]) then qty else qty - Min(qty, q[0].qty));
    }
  }

  lemma {:induction false} AvailableLevel(t: Terms, level: seq<Resting>, rest: seq<Resting>)
    requires forall i :: 0 <= i < |level| ==> Crosses(t.side, level[i].price, t.limit)
    ensures Available(t, level + rest) == Total(Kept(t, level)) + Available(t, rest)
  {
    if level == [] {
      assert level + rest == rest;
    } else {
      assert (level + rest)[1..] == level[1..] + rest;
      AvailableLevel(t, level[1..], rest);
      if !t.Blocks(level[0]) {
        assert Kept(t, level)[1..] == Kept(t, level[1..]);
      }
    }
  }

  lemma {:induction false} ProRataRemaining(split: Splitting, t: Terms, q: seq<Resting>, qty: nat)
    requires WellFormed(t.side, q) && !ProRataPlan(split, t, q, qty).rejected
    ensures ProRataPlan(split, t, q, qty).remaining == qty - Min(qty, Available(t, q))
    decreases |q|
  {
    if !t.Stops(q, qty) {
      FrontBehind(t.side, q);
      AvailableLevel(t, Front(q), Behind(q));
      ProRataRemaining(split, t, Behind(q), qty - Min(qty, Total(Kept(t, Front(q)))));
    }
  }

  /** Under CANCEL_NEWEST with nothing own in reach, the scan reaches its answer before any own order. */
  lemma {:induction false} CanFillUnreached(t: Terms, q: seq<Resting>, qty: nat)
    requires WellFormed(t.side, q) && t.smp == CancelNewest && !QueueReach(t, q, qty) && qty > 0
    ensures CanFill(t, q, qty) <==> qty <= Available(t, q)
  {
    if q != [] && Crosses(t.side, q[0].price, t.limit) {
      QueueReachStep(t, q, qty);
      if qty > q[0].qty {
        Tail(t.side, q);
        CanFillUnreached(t, q[1..], qty - q[0].qty);
      }
    }
  }

  lemma {:induction false} TotalTake(s: Side, q: seq<Resting>, i: nat)
    requires WellFormed(s, q) && i < |q|
    ensures BetterTotal(s, q, q[i].price) <= Total(q[..i])
  {
    if i == 0 {
      forall j | 0 <= j < |q| ensures !IsPriceBetter(s, q[j].price, q[0].price) {
        if j > 0 {
          SortedAt(s, q, j);
        }
      }
      NothingBetter(s, q, q[0].price);
    } else {
      Tail(s, q);
      TotalTake(s, q[1..], i - 1);
      assert q[..i][1..] == q[1..][..i - 1];
    }
  }

  /** Whole-level reach covers queue reach. */
  lemma QueueReachIsLevelReach(t: Terms, q: seq<Resting>, qty: nat)
    requires WellFormed(t.side, q) && QueueReach(t, q, qty)
    ensures LevelReach(t, q, qty)
  {
    var i: nat :| ReachesInQueue(t, q, qty, i);
    TotalTake(t.side, q, i);
    assert ReachesOnLevel(t, q, qty, i);
  }

  ghost predicate InReach(e: Engine, t: Terms, q: seq<Resting>, qty: nat) {
    if e.Fifo? then QueueReach(t, q, qty) else LevelReach(t, q, qty)
  }

  /**
   The CANCEL_NEWEST scan is exact for both engines: the backstop is unreachable once it passes,
   and whatever it refuses would have met an own order.
   */
  lemma BackstopExact(e: Engine, t: Terms, q: seq<Resting>, qty: nat)
    requires e.Valid() && WellFormed(t.side, q) && t.smp == CancelNewest
    ensures Plan(e, t, q, qty).rejected <==> InReach(e, t, q, qty)
  {
    match e
    case Fifo => FifoBackstop(t, q, qty);
    case ProRataEngine(cfg) => ProRataBackstop(ProRata.Splitter(cfg), t, q, qty);
  }

  lemma ProRataShorter(q: seq<Resting>)
    requires q != []
    ensures |Behind(q)| < |q|
  {
  }

  lemma {:induction false} NeverRejected(split: Splitting, t: Terms, q: seq<Resting>, qty: nat)
    requires t.smp != CancelNewest
    ensures !FifoPlan(t, q, qty).rejected && !ProRataPlan(split, t, q, qty).rejected
    decreases |q|
  {
    hide Front, Behind, Kept, Total, LevelActions;
    if !t.Stops(q, qty) {
      ProRataShorter(q);
      NeverRejected(split, t, q[1..], if t.Blocks(q[0]) then qty else qty - Min(qty, q[0].qty));
      NeverRejected(split, t, Behind(q), qty - Min(qty, Total(Kept(t, Front(q)))));
    }
  }

  lemma PlanRemaining(e: Engine, t: Terms, q: seq<Resting>, qty: nat)
    requires e.Valid() && WellFormed(t.side, q) && !Plan(e, t, q, qty).rejected
    ensures Plan(e, t, q, qty).remaining == qty - Min(qty, Available(t, q))
  {
    match e
    case Fifo => FifoRemaining(t, q, qty);
    case ProRataEngine(cfg) => ProRataRemaining(ProRata.Splitter(cfg), t, q, qty);
  }

  /**
   The fill-or-kill scan is exact for both engines and every SMP mode: for any positive quantity it
   says yes exactly when the loop fills everything, given that CANCEL_NEWEST has let the order pass.
   */
  lemma FillOrKillExact(e: Engine, t: Terms, q: seq<Resting>, qty: nat)
    requires e.Valid() && WellFormed(t.side, q) && qty > 0
    requires t.smp == CancelNewest ==> !InReach(e, t, q, qty)
    ensures CanFill(t, q, qty) <==> Plan(e, t, q, qty).remaining == 0
    ensures !Plan(e, t, q, qty).rejected
  {
    if t.smp == CancelNewest {
      BackstopExact(e, t, q, qty);
      if QueueReach(t, q, qty) {
        QueueReachIsLevelReach(t, q, qty);
      }
      CanFillUnreached(t, q, qty);
    } else {
      CanFillAvailable(t, q, qty);
      NeverRejected(if e.Fifo? then (s: seq<nat>, n: nat) => s else ProRata.Splitter(e.cfg), t, q, qty);
    }
    PlanRemaining(e, t, q, qty);
  }

  /** At zero quantity the scan still says no in one case: an own order leads the crossing queue. */
  lemma {:induction false} FillOrKillAtZero(t: Terms, q: seq<Resting>)
    ensures CanFill(t, q, 0) <==>
            !(t.smp == CancelNewest && q != [] && Crosses(t.side, q[0].price, t.limit) && q[0].id in t.self)
  {
    if t.smp == CancelResting && q != [] {
      FillOrKillAtZero(t, q[1..]);
    }
  }

  // ----- the loops

  /** The CANCEL_NEWEST scan with FIFO's reach. */
  method WouldSelfMatchInQueue(t: Terms, q: seq<Resting>, qty: nat) returns (hit: bool)
    requires WellFormed(t.side, q)
    ensures hit <==> QueueReach(t, q, qty)
  {
    hide View, QueueReach;
    var remaining: nat := qty;
    var i := 0;
    while i < |q|
      invariant 0 <= i <= |q| && WellFormed(t.side, q[i..])
      invariant QueueReach(t, q, qty) <==> QueueReach(t, q[i..], remaining)
    {
      ghost var q0 := q[i..];
      if remaining == 0 || !Crosses(t.side, q[i].price, t.limit) {
        NoReachBehind(t, q0, remaining);
        return false;
      }
      QueueReachStep(t, q0, remaining);
      if q[i].id in t.self {
        return true;
      }
      Tail(t.side, q0);
      remaining := remaining - Min(q[i].qty, remaining);
      assert q0[1..] == q[i + 1..];
      i := i + 1;
    }
    NoReachBehind(t, q[i..], remaining);
    hit := false;
  }

  /** The front level of a queue's tail, by position in the queue. */
  lemma FrontIs(q: seq<Resting>, start: nat)
    requires start < |q|
    ensures var n := |Front(q[start..])|;
            && start + n <= |q| && Behind(q[start..]) == q[start + n..]
            && (forall i :: 0 <= i < n ==> Front(q[start..])[i] == q[start + i] && q[start + i].price == q[start].price)
            && (start + n < |q| ==> q[start + n].price != q[start].price)
  {
  }

  /** Scans one price level for an own order, totalling it on the way. */
  method ScanLevel(s: Side, self: set<nat>, q: seq<Resting>, start: nat) returns (hit: bool, next: nat, total: nat)
    requires start < |q| && WellFormed(s, q[start..])
    ensures hit <==> exists i :: 0 <= i < |Front(q[start..])| && Front(q[start..])[i].id in self
    ensures !hit ==> next == start + |Front(q[start..])| <= |q|
    ensures !hit ==> total == Total(Front(q[start..])) && q[next..] == Behind(q[start..])
  {
    ghost var q0 := q[start..];
    FrontBehind(s, q0);
    FrontIs(q, start);
    hide WellFormed, Front, Behind;
    next, total := start, 0;
    while next < |q| && q[next].price == q[start].price
      invariant start <= next <= start + |Front(q0)| <= |q|
      invariant total == Total(q[start..next])
      invariant forall j :: start <= j < next ==> q[j].id !in self
    {
      if q[next].id in self {
        assert Front(q0)[next - start].id in self;
        return true, next, total;
      }
      TotalSnoc(q, start, next);
      total := total + q[next].qty;
      next := next + 1;
    }
    assert q[start..next] == Front(q0);
    hit := false;
  }

  /** The CANCEL_NEWEST scan with pro-rata's reach. */
  method WouldSelfMatchOnLevels(t: Terms, q: seq<Resting>, qty: nat) returns (hit: bool)
    requires WellFormed(t.side, q)
    ensures hit <==> LevelReach(t, q, qty)
  {
    hide View, WellFormed, LevelReach, Total, BetterTotal, Front, Behind;
    var remaining: nat := qty;
    var i := 0;
    while i < |q|
      invariant 0 <= i <= |q| && WellFormed(t.side, q[i..])
      invariant LevelReach(t, q, qty) <==> LevelReach(t, q[i..], remaining)
    {
      ghost var q0 := q[i..];
      if remaining == 0 || !Crosses(t.side, q[i].price, t.limit) {
        NoReachBehind(t, q0, remaining);
        return false;
      }
      LevelReachStep(t, q0, remaining);
      FrontBehind(t.side, q0);
      var own, next, total := ScanLevel(t.side, t.self, q, i);
      if own {
        return true;
      }
      remaining := remaining - Min(total, remaining);
      i := next;
    }
    NoReachBehind(t, q[i..], remaining);
    hit := false;
  }

  lemma {:induction false} TotalSnoc(q: seq<Resting>, a: nat, b: nat)
    requires a <= b < |q|
    ensures Total(q[a..b + 1]) == Total(q[a..b]) + q[b].qty
    decreases b - a
  {
    if a < b {
      TotalSnoc(q, a + 1, b);
      assert q[a..b + 1][1..] == q[a + 1..b + 1] && q[a..b][1..] == q[a + 1..b];
    } else {
      assert q[a..b + 1] == [q[b]];
    }
  }

  method CanFillCompletely(t: Terms, q: seq<Resting>, qty: nat) returns (ok: bool)
    ensures ok <==> CanFill(t, q, qty)
  {
    var remaining: nat := qty;
    var i := 0;
    while i < |q|
      invariant 0 <= i <= |q|
      invariant CanFill(t, q, qty) <==> CanFill(t, q[i..], remaining)
    {
      if !Crosses(t.side, q[i].price, t.limit) {
        return remaining == 0;
      }
      assert q[i..][1..] == q[i + 1..];
      if t.Blocks(q[i]) {
        if t.smp == CancelNewest {
          return false;
        }
      } else {
        if remaining <= q[i].qty {
          return true;
        }
        remaining := remaining - q[i].qty;
      }
      i := i + 1;
    }
    ok := remaining == 0;
  }
}
