/**
 The compressed l2 channel: the publisher sends the difference between two states of a book side,
 and a subscriber folds it into the side it already holds.
 */
module L2Diff {
  import opened Types

  datatype Level = Level(price: Price, qty: nat)

  /** Each price is strictly better than every price behind it. */
  ghost predicate BestFirst(s: Side, ps: seq<Price>) {
    ps == [] || ((forall p :: p in ps[1..] ==> IsPriceBetter(s, ps[0], p)) && BestFirst(s, ps[1..]))
  }

  function Prices(ls: seq<Level>): (ps: seq<Price>)
    ensures |ps| == |ls|
  {
    if ls == [] then [] else [ls[0].price] + Prices(ls[1..])
  }

  /** The quantity of each price; of two entries for one price the first counts. */
  function ByPrice(ls: seq<Level>): map<Price, nat> {
    if ls == [] then map[] else ByPrice(ls[1..])[ls[0].price := ls[0].qty]
  }

  // ----- the publisher

  datatype SideDiff = SideDiff(changed: seq<Level>, removed: seq<nat>)

  function Changed(prev: map<Price, nat>, curr: seq<Level>): seq<Level> {
    if curr == [] then []
    else
      var rest := Changed(prev, curr[1..]);
      if curr[0].price !in prev || prev[curr[0].price] != curr[0].qty then [curr[0]] + rest else rest
  }

  /** Positions below `n` of the prices that are gone, lowest position first. */
  function Ascending(ps: seq<Price>, kept: set<Price>, n: nat): seq<nat>
    requires n <= |ps|
  {
    if n == 0 then []
    else if ps[n - 1] in kept then Ascending(ps, kept, n - 1)
    else Ascending(ps, kept, n - 1) + [n - 1]
  }

  /** The same, highest position first. */
  function Descending(ps: seq<Price>, kept: set<Price>, n: nat): seq<nat>
    requires n <= |ps|
  {
    if n == 0 then []
    else if ps[n - 1] in kept then Descending(ps, kept, n - 1)
    else [n - 1] + Descending(ps, kept, n - 1)
  }

  function PriceSet(ls: seq<Level>): set<Price> {
    set l | l in ls :: l.price
  }

  function DiffSide(prev: seq<Level>, curr: seq<Level>, descending: bool): SideDiff {
    var ps, kept := Prices(prev), PriceSet(curr);
    SideDiff(Changed(ByPrice(prev), curr),
             if descending then Descending(ps, kept, |ps|) else Ascending(ps, kept, |ps|))
  }

  // ----- the subscriber

  /** The price array that removals index, and the quantity mirrored at each price. */
  datatype Held = Held(ref: seq<Price>, qty: map<Price, nat>)

  function QtyAt(h: Held, p: Price): nat {
    if p in h.qty then h.qty[p] else 0
  }

  function SetQty(qty: map<Price, nat>, p: Price, n: nat): map<Price, nat> {
    if n == 0 then qty - {p} else qty[p := n]
  }

  /** Every index is resolved against the array as it stood before the event. */
  function Resolve(ref: seq<Price>, indices: seq<nat>): seq<Price> {
    if indices == [] then []
    else (if indices[0] < |ref| then [ref[indices[0]]] else []) + Resolve(ref, indices[1..])
  }

  function Erase(ref: seq<Price>, p: Price): seq<Price> {
    if ref == [] then [] else if ref[0] == p then ref[1..] else [ref[0]] + Erase(ref[1..], p)
  }

  function Remove(h: Held, gone: seq<Price>): Held
    decreases |gone|
  {
    if gone == [] then h
    else Remove(Held(Erase(h.ref, gone[0]), SetQty(h.qty, gone[0], 0)), gone[1..])
  }

  /** Inserts `p` before the first price it is not behind, unless that price is `p` itself. */
  function Place(s: Side, ref: seq<Price>, p: Price): seq<Price> {
    if ref != [] && IsPriceBetter(s, ref[0], p) then [ref[0]] + Place(s, ref[1..], p)
    else if ref != [] && ref[0] == p then ref
    else [p] + ref
  }

  function Change(s: Side, h: Held, ls: seq<Level>): Held
    decreases |ls|
  {
    if ls == [] then h
    else Change(s, Held(Place(s, h.ref, ls[0].price), SetQty(h.qty, ls[0].price, ls[0].qty)), ls[1..])
  }

  function Apply(s: Side, h: Held, d: SideDiff): Held {
    Change(s, Remove(h, Resolve(h.ref, d.removed)), d.changed)
  }

  /** The subscriber holds exactly this side: same prices, same order, same quantities. */
  ghost predicate Holds(h: Held, ls: seq<Level>) {
    && h.ref == Prices(ls)
    && forall p :: QtyAt(h, p) == if p in ByPrice(ls) then ByPrice(ls)[p] else 0
  }

  // ----- sorted sides are determined by their prices

  lemma HeadAndTail(ps: seq<Price>)
    requires ps != []
    ensures forall p :: p in ps <==> p == ps[0] || p in ps[1..]
  {
    assert ps == [ps[0]] + ps[1..];
  }

  lemma {:induction false} SameSet(s: Side, a: seq<Price>, b: seq<Price>)
    requires BestFirst(s, a) && BestFirst(s, b)
    requires forall p :: p in a <==> p in b
    ensures a == b
  {
    assert a != [] ==> a[0] in a;
    assert b != [] ==> b[0] in b;
    if a != [] {
      HeadAndTail(a);
      HeadAndTail(b);
      assert a[0] == b[0];
      SameSet(s, a[1..], b[1..]);
      assert a == [a[0]] + a[1..] && b == [b[0]] + b[1..];
    }
  }

  lemma {:induction false} PricesMember(ls: seq<Level>)
    ensures forall p :: p in Prices(ls) <==> exists l :: l in ls && l.price == p
  {
    if ls != [] {
      PricesMember(ls[1..]);
      assert ls == [ls[0]] + ls[1..];
    }
  }

  lemma {:induction false} ByPriceOf(s: Side, ls: seq<Level>)
    requires BestFirst(s, Prices(ls))
    ensures forall p :: p in ByPrice(ls) <==> p in Prices(ls)
    ensures forall l :: l in ls ==> l.price in ByPrice(ls) && ByPrice(ls)[l.price] == l.qty
  {
    if ls != [] {
      var rest := ls[1..];
      assert Prices(ls)[1..] == Prices(rest);
      ByPriceOf(s, rest);
      assert ls == [ls[0]] + rest;
    }
  }

  lemma {:induction false} ByPriceSnoc(ls: seq<Level>, l: Level)
    ensures ByPrice(ls + [l]) == if l.price in ByPrice(ls) then ByPrice(ls) else ByPrice(ls)[l.price := l.qty]
  {
    if ls == [] {
      assert ls + [l] == [l];
    } else {
      ByPriceSnoc(ls[1..], l);
      assert (ls + [l])[1..] == ls[1..] + [l];
    }
  }

  lemma PriceSetOf(ls: seq<Level>)
    ensures forall p :: p in PriceSet(ls) <==> p in Prices(ls)
  {
    PricesMember(ls);
  }

  // ----- the three steps of the decoder

  lemma {:induction false} EraseKeeps(s: Side, ref: seq<Price>, p: Price)
    requires BestFirst(s, ref)
    ensures BestFirst(s, Erase(ref, p))
    ensures forall q :: q in Erase(ref, p) <==> q in ref && q != p
  {
    if ref != [] {
      HeadAndTail(ref);
      if ref[0] != p {
        EraseKeeps(s, ref[1..], p);
        assert Erase(ref, p)[1..] == Erase(ref[1..], p);
      }
    }
  }

  lemma {:induction false} RemoveKeeps(s: Side, h: Held, gone: seq<Price>)
    requires BestFirst(s, h.ref)
    ensures BestFirst(s, Remove(h, gone).ref)
    ensures forall q :: q in Remove(h, gone).ref <==> q in h.ref && q !in gone
    ensures forall q :: QtyAt(Remove(h, gone), q) == if q in gone then 0 else QtyAt(h, q)
    decreases |gone|
  {
    if gone != [] {
      EraseKeeps(s, h.ref, gone[0]);
      RemoveKeeps(s, Held(Erase(h.ref, gone[0]), SetQty(h.qty, gone[0], 0)), gone[1..]);
      assert gone == [gone[0]] + gone[1..];
    }
  }

  lemma {:induction false} PlaceKeeps(s: Side, ref: seq<Price>, p: Price)
    requires BestFirst(s, ref)
    ensures BestFirst(s, Place(s, ref, p))
    ensures forall q :: q in Place(s, ref, p) <==> q in ref || q == p
  {
    if ref != [] {
      HeadAndTail(ref);
      if IsPriceBetter(s, ref[0], p) {
        PlaceKeeps(s, ref[1..], p);
        assert Place(s, ref, p)[1..] == Place(s, ref[1..], p);
      } else {
        assert ([p] + ref)[1..] == ref;
      }
    }
  }

  lemma {:induction false} ChangeKeeps(s: Side, h: Held, ls: seq<Level>)
    requires BestFirst(s, h.ref) && BestFirst(s, Prices(ls))
    ensures BestFirst(s, Change(s, h, ls).ref)
    ensures forall q :: q in Change(s, h, ls).ref <==> q in h.ref || q in Prices(ls)
    ensures forall q :: QtyAt(Change(s, h, ls), q) == if q in ByPrice(ls) then ByPrice(ls)[q] else QtyAt(h, q)
    decreases |ls|
  {
    if ls != [] {
      var rest := ls[1..];
      assert Prices(ls)[1..] == Prices(rest);
      HeadAndTail(Prices(ls));
      PlaceKeeps(s, h.ref, ls[0].price);
      ChangeKeeps(s, Held(Place(s, h.ref, ls[0].price), SetQty(h.qty, ls[0].price, ls[0].qty)), rest);
      ByPriceOf(s, rest);
    }
  }

  // ----- what the encoder sends

  lemma {:induction false} ChangedIs(s: Side, prev: map<Price, nat>, curr: seq<Level>)
    requires BestFirst(s, Prices(curr))
    ensures BestFirst(s, Prices(Changed(prev, curr)))
    ensures forall l :: l in Changed(prev, curr) <==> l in curr && (l.price !in prev || prev[l.price] != l.qty)
  {
    if curr != [] {
      var rest := curr[1..];
      assert Prices(curr)[1..] == Prices(rest);
      ChangedIs(s, prev, rest);
      assert curr == [curr[0]] + rest;
      PricesMember(rest);
      var c := Changed(prev, rest);
      PricesMember(c);
      assert ([curr[0]] + c)[1..] == c;
    }
  }

  ghost predicate PositionsGone(ps: seq<Price>, kept: set<Price>, n: nat, r: seq<nat>)
    requires n <= |ps|
  {
    forall i: nat :: i in r <==> i < n && ps[i] !in kept
  }

  lemma {:induction false} RemovedAre(ps: seq<Price>, kept: set<Price>, n: nat)
    requires n <= |ps|
    ensures PositionsGone(ps, kept, n, Ascending(ps, kept, n))
    ensures PositionsGone(ps, kept, n, Descending(ps, kept, n))
  {
    if n > 0 {
      RemovedAre(ps, kept, n - 1);
    }
  }

  lemma {:induction false} ResolveIs(ref: seq<Price>, indices: seq<nat>)
    ensures forall p :: p in Resolve(ref, indices) <==> exists i :: i in indices && i < |ref| && ref[i] == p
  {
    if indices != [] {
      ResolveIs(ref, indices[1..]);
      assert indices == [indices[0]] + indices[1..];
    }
  }

  lemma GoneAre(prev: seq<Level>, curr: seq<Level>, descending: bool)
    ensures forall p :: p in Resolve(Prices(prev), DiffSide(prev, curr, descending).removed)
                        <==> p in Prices(prev) && p !in Prices(curr)
  {
    var ps, kept := Prices(prev), PriceSet(curr);
    var r := DiffSide(prev, curr, descending).removed;
    RemovedAre(ps, kept, |ps|);
    ResolveIs(ps, r);
    PriceSetOf(curr);
    forall p ensures p in Resolve(ps, r) <==> p in ps && p !in Prices(curr) {
      if p in ps && p !in Prices(curr) {
        var i :| 0 <= i < |ps| && ps[i] == p;
        assert i in r;
      }
    }
  }

  /**
   The round trip: a subscriber that holds `prev` and applies the difference holds exactly `curr`,
   whichever order the removals are listed in.
   */
  lemma DiffRoundTrip(s: Side, h: Held, prev: seq<Level>, curr: seq<Level>, descending: bool)
    requires BestFirst(s, Prices(prev)) && BestFirst(s, Prices(curr))
    requires Holds(h, prev)
    ensures Holds(Apply(s, h, DiffSide(prev, curr, descending)), curr)
  {
    var d := DiffSide(prev, curr, descending);
    var gone := Resolve(h.ref, d.removed);
    var mid := Remove(h, gone);
    var end := Change(s, mid, d.changed);
    GoneAre(prev, curr, descending);
    RemoveKeeps(s, h, gone);
    ChangedIs(s, ByPrice(prev), curr);
    ChangeKeeps(s, mid, d.changed);
    ByPriceOf(s, prev);
    ByPriceOf(s, curr);
    ByPriceOf(s, d.changed);
    PricesMember(curr);
    PricesMember(d.changed);
    forall p ensures p in end.ref <==> p in Prices(curr)
      ensures QtyAt(end, p) == if p in ByPrice(curr) then ByPrice(curr)[p] else 0
    {
      if p in Prices(curr) {
        var l :| l in curr && l.price == p;
        if p in Prices(d.changed) {
          var c :| c in d.changed && c.price == p;
          assert ByPrice(curr)[p] == c.qty;
        } else {
          assert l !in d.changed;
        }
      }
    }
    SameSet(s, end.ref, Prices(curr));
  }

  // ----- clients that splice by index instead

  function RemoveAt(ref: seq<Price>, i: nat): seq<Price> {
    if i < |ref| then ref[..i] + ref[i + 1..] else ref
  }

  /** Splices each index out of the array as the earlier ones left it. */
  function OneAtATime(ref: seq<Price>, indices: seq<nat>): seq<Price> {
    if indices == [] then ref else OneAtATime(RemoveAt(ref, indices[0]), indices[1..])
  }

  function AllAtOnce(ref: seq<Price>, kept: set<Price>): seq<Price> {
    if ref == [] then [] else if ref[0] in kept then [ref[0]] + AllAtOnce(ref[1..], kept) else AllAtOnce(ref[1..], kept)
  }

  lemma {:induction false} AllAtOnceSnoc(a: seq<Price>, x: Price, kept: set<Price>)
    ensures AllAtOnce(a + [x], kept) == AllAtOnce(a, kept) + if x in kept then [x] else []
  {
    if a == [] {
      assert a + [x] == [x];
    } else {
      AllAtOnceSnoc(a[1..], x, kept);
      assert (a + [x])[1..] == a[1..] + [x];
    }
  }

  lemma {:induction false} AllAtOnceIs(ref: seq<Price>, kept: set<Price>)
    ensures forall p :: p in AllAtOnce(ref, kept) <==> p in ref && p in kept
  {
    if ref != [] {
      AllAtOnceIs(ref[1..], kept);
      assert ref == [ref[0]] + ref[1..];
    }
  }

  lemma SpliceFirst(ref: seq<Price>, i: nat, r: seq<nat>)
    ensures OneAtATime(ref, [i] + r) == OneAtATime(RemoveAt(ref, i), r)
  {
    assert ([i] + r)[1..] == r;
  }

  lemma {:induction false} DescendingPrefix(a: seq<Price>, b: seq<Price>, kept: set<Price>, n: nat)
    requires n <= |a| && n <= |b| && a[..n] == b[..n]
    ensures Descending(a, kept, n) == Descending(b, kept, n)
  {
    if n > 0 {
      assert a[..n - 1] == a[..n][..n - 1] && b[..n - 1] == b[..n][..n - 1];
      assert a[n - 1] == a[..n][n - 1] && b[n - 1] == b[..n][n - 1];
      DescendingPrefix(a, b, kept, n - 1);
    }
  }

  lemma PartsOf(ref: seq<Price>, n: nat)
    requires n < |ref|
    ensures ref[..n + 1] == ref[..n] + [ref[n]]
    ensures ref[n..] == [ref[n]] + ref[n + 1..]
    ensures RemoveAt(ref, n)[..n] == ref[..n] && RemoveAt(ref, n)[n..] == ref[n + 1..]
    ensures |RemoveAt(ref, n)| == |ref| - 1
  {
  }

  lemma {:induction false} DescendingSplices(ref: seq<Price>, kept: set<Price>, n: nat)
    requires n <= |ref|
    ensures OneAtATime(ref, Descending(ref, kept, n)) == AllAtOnce(ref[..n], kept) + ref[n..]
    decreases n
  {
    if n > 0 {
      var m, x := n - 1, ref[n - 1];
      AllAtOnceSnoc(ref[..m], x, kept);
      var r := Descending(ref, kept, m);
      assert Descending(ref, kept, n) == if x in kept then r else [m] + r;
      hide OneAtATime, AllAtOnce, RemoveAt, Descending;
      PartsOf(ref, m);
      if x in kept {
        DescendingSplices(ref, kept, m);
      } else {
        var cut := RemoveAt(ref, m);
        SpliceFirst(ref, m, r);
        DescendingPrefix(ref, cut, kept, m);
        DescendingSplices(cut, kept, m);
      }
    }
  }

  /** Bid removals come highest index first, so splicing them one by one removes exactly the right levels. */
  lemma BidRemovalsSplice(prev: seq<Level>, curr: seq<Level>)
    ensures OneAtATime(Prices(prev), DiffSide(prev, curr, true).removed) == AllAtOnce(Prices(prev), PriceSet(curr))
  {
    var ps := Prices(prev);
    DescendingSplices(ps, PriceSet(curr), |ps|);
    assert ps[..|ps|] == ps && ps[|ps|..] == [];
  }

  lemma {:induction false} SplicesBehind(ref: seq<Price>, r: seq<nat>, k: nat)
    requires k < |ref|
    requires forall i :: i in r ==> i > k
    ensures ref[k] in OneAtATime(ref, r)
  {
    if r != [] {
      assert r[0] in r && forall i :: i in r[1..] ==> i in r;
      SplicesBehind(RemoveAt(ref, r[0]), r[1..], k);
    }
  }

  lemma {:induction false} AscendingOrder(ps: seq<Price>, kept: set<Price>, n: nat)
    requires n <= |ps|
    ensures forall i, j :: 0 <= i < j < |Ascending(ps, kept, n)| ==> Ascending(ps, kept, n)[i] < Ascending(ps, kept, n)[j]
  {
    RemovedAre(ps, kept, n);
    if n > 0 {
      AscendingOrder(ps, kept, n - 1);
      RemovedAre(ps, kept, n - 1);
      var r := Ascending(ps, kept, n - 1);
      assert forall i :: 0 <= i < |r| ==> r[i] in r;
    }
  }

  lemma SpliceShifts(ref: seq<Price>, i: nat, k: nat)
    requires i < k < |ref|
    ensures |RemoveAt(ref, i)| == |ref| - 1 && RemoveAt(ref, i)[k - 1] == ref[k]
  {
  }

  /** After the first of several ascending removals, the second names the wrong level. */
  lemma SecondSurvives(ref: seq<Price>, r: seq<nat>)
    requires |r| > 1 && r[1] < |ref|
    requires forall i, j :: 0 <= i < j < |r| ==> r[i] < r[j]
    ensures ref[r[1]] in OneAtATime(ref, r)
  {
    hide RemoveAt;
    SpliceShifts(ref, r[0], r[1]);
    forall i | i in r[1..] ensures i > r[1] - 1 {
    }
    SplicesBehind(RemoveAt(ref, r[0]), r[1..], r[1] - 1);
  }

  lemma {:induction false} BothOrders(ps: seq<Price>, kept: set<Price>, n: nat)
    requires n <= |ps|
    ensures |Ascending(ps, kept, n)| == |Descending(ps, kept, n)|
    ensures |Ascending(ps, kept, n)| <= 1 ==> Ascending(ps, kept, n) == Descending(ps, kept, n)
  {
    if n > 0 {
      BothOrders(ps, kept, n - 1);
    }
  }

  /**
   Ask removals come lowest index first. A client that splices them in the order received, as the
   channel's description allows, is right exactly when at most one ask level is removed.
   */
  lemma AskRemovalsSpliceIff(prev: seq<Level>, curr: seq<Level>)
    ensures OneAtATime(Prices(prev), DiffSide(prev, curr, false).removed) == AllAtOnce(Prices(prev), PriceSet(curr))
            <==> |DiffSide(prev, curr, false).removed| <= 1
  {
    if |DiffSide(prev, curr, false).removed| <= 1 {
      BothOrders(Prices(prev), PriceSet(curr), |prev|);
      BidRemovalsSplice(prev, curr);
    } else {
      var ps, kept := Prices(prev), PriceSet(curr);
      var r := Ascending(ps, kept, |ps|);
      RemovedAre(ps, kept, |ps|);
      assert r[1] in r;
      AscendingOrder(ps, kept, |ps|);
      SecondSurvives(ps, r);
      AllAtOnceIs(ps, kept);
    }
  }

  /** Two asks removed together: splicing them in the order sent leaves the second in the book. */
  lemma AskSplicesLeaveALevel()
    ensures var prev := [Level(10, 1), Level(11, 1)];
            && DiffSide(prev, [], false).removed == [0, 1]
            && OneAtATime(Prices(prev), [0, 1]) == [11] && AllAtOnce(Prices(prev), PriceSet([])) == []
  {
    var prev := [Level(10, 1), Level(11, 1)];
    assert prev[1..] == [Level(11, 1)] && prev[1..][1..] == [];
    assert Prices(prev) == [10, 11];
    var ps := Prices(prev);
    assert Ascending(ps, {}, 1) == [0] && Ascending(ps, {}, 2) == [0, 1];
    SpliceFirst(ps, 0, [1]);
    SpliceFirst([11], 1, []);
    assert RemoveAt(ps, 0) == [11];
    AllAtOnceIs(ps, {});
    assert forall p :: p !in AllAtOnce(ps, {});
  }

  // ----- publisher and subscriber over a run

  const L2_PUBLISH_DEPTH: nat := 20

  datatype Sides = Sides(bids: seq<Level>, asks: seq<Level>)

  /** A frame lists every bid, best first, and then every ask. */
  datatype Listing = Listing(levels: seq<Level>, numBid: nat, numAsk: nat)

  type Frame = f: Listing | |f.levels| == f.numBid + f.numAsk witness Listing([], 0, 0)

  ghost predicate FrameOk(f: Frame) {
    && BestFirst(Buy, Prices(f.levels[..f.numBid]))
    && BestFirst(Sell, Prices(f.levels[f.numBid..]))
    && forall l :: l in f.levels ==> l.qty > 0
  }

  function Split(f: Frame): Sides {
    Sides(f.levels[..Min(f.numBid, L2_PUBLISH_DEPTH)],
          f.levels[f.numBid..f.numBid + Min(f.numAsk, L2_PUBLISH_DEPTH)])
  }

  datatype BookHeld = BookHeld(bids: Held, asks: Held)

  /** A snapshot rebuilds the array and the quantities from the levels it lists; empty ones are skipped. */
  function Snapshot(ls: seq<Level>): Held {
    if ls == [] then Held([], map[])
    else
      var h, l := Snapshot(ls[..|ls| - 1]), ls[|ls| - 1];
      if l.qty == 0 then h else Held(h.ref + [l.price], h.qty[l.price := QtyAt(h, l.price) + l.qty])
  }

  datatype Message = Subscribed(coin: string, frame: Frame) | Book(coin: string, frame: Frame)

  /** The publisher's baseline and the subscriber's book, per coin. */
  datatype Channel = Channel(baseline: map<string, Sides>, held: map<string, BookHeld>)

  const EMPTY_SIDES := Sides([], [])

  function Baseline(c: Channel, coin: string): Sides {
    if coin in c.baseline then c.baseline[coin] else EMPTY_SIDES
  }

  function HeldFor(c: Channel, coin: string): BookHeld {
    if coin in c.held then c.held[coin] else BookHeld(Held([], map[]), Held([], map[]))
  }

  function Deliver(c: Channel, m: Message): Channel {
    var curr, prev, h := Split(m.frame), Baseline(c, m.coin), HeldFor(c, m.coin);
    match m
    case Subscribed(_, _) =>
      Channel(c.baseline[m.coin := curr], c.held[m.coin := BookHeld(Snapshot(curr.bids), Snapshot(curr.asks))])
    case Book(_, _) =>
      Channel(c.baseline[m.coin := curr],
              c.held[m.coin := BookHeld(Apply(Buy, h.bids, DiffSide(prev.bids, curr.bids, true)),
                                        Apply(Sell, h.asks, DiffSide(prev.asks, curr.asks, false)))])
  }

  function Run(ms: seq<Message>): Channel {
    if ms == [] then Channel(map[], map[]) else Deliver(Run(ms[..|ms| - 1]), ms[|ms| - 1])
  }

  ghost predicate HoldsBook(h: BookHeld, b: Sides) {
    && Holds(h.bids, b.bids) && Holds(h.asks, b.asks)
    && BestFirst(Buy, Prices(b.bids)) && BestFirst(Sell, Prices(b.asks))
  }

  lemma {:induction false} PricesSnoc(ls: seq<Level>, l: Level)
    ensures Prices(ls + [l]) == Prices(ls) + [l.price]
  {
    if ls == [] {
      assert ls + [l] == [l];
    } else {
      PricesSnoc(ls[1..], l);
      assert (ls + [l])[1..] == ls[1..] + [l];
    }
  }

  lemma {:induction false} BestFirstPrefix(s: Side, a: seq<Price>, b: seq<Price>)
    requires BestFirst(s, a + b)
    ensures BestFirst(s, a)
    ensures forall p :: p in b ==> p !in a
  {
    if a != [] {
      assert (a + b)[1..] == a[1..] + b;
      BestFirstPrefix(s, a[1..], b);
      HeadAndTail(a);
      assert forall p :: p in a[1..] || p in b ==> p in (a + b)[1..];
    }
  }

  lemma {:induction false} SnapshotIs(s: Side, ls: seq<Level>)
    requires BestFirst(s, Prices(ls)) && forall l :: l in ls ==> l.qty > 0
    ensures Snapshot(ls) == Held(Prices(ls), ByPrice(ls))
  {
    if ls != [] {
      var n := |ls| - 1;
      var init, l := ls[..n], ls[n];
      assert l in ls && ls == init + [l];
      PricesSnoc(init, l);
      BestFirstPrefix(s, Prices(init), [l.price]);
      hide BestFirst, Prices, ByPrice;
      SnapshotIs(s, init);
      ByPriceSnoc(init, l);
      ByPriceOf(s, init);
    }
  }

  lemma {:induction false} PricesPrefix(ls: seq<Level>, n: nat)
    requires n <= |ls|
    ensures Prices(ls) == Prices(ls[..n]) + Prices(ls[n..])
  {
    if n > 0 {
      PricesPrefix(ls[1..], n - 1);
      assert ls[..n][1..] == ls[1..][..n - 1] && ls[n..] == ls[1..][n - 1..];
    } else {
      assert ls[0..] == ls;
    }
  }

  lemma TruncatedOk(s: Side, ls: seq<Level>, n: nat)
    requires n <= |ls| && BestFirst(s, Prices(ls)) && forall l :: l in ls ==> l.qty > 0
    ensures BestFirst(s, Prices(ls[..n]))
    ensures forall l :: l in ls[..n] ==> l.qty > 0
  {
    PricesPrefix(ls, n);
    BestFirstPrefix(s, Prices(ls[..n]), Prices(ls[n..]));
  }

  lemma SplitOk(f: Frame)
    requires FrameOk(f)
    ensures BestFirst(Buy, Prices(Split(f).bids)) && BestFirst(Sell, Prices(Split(f).asks))
    ensures forall l :: l in Split(f).bids ==> l.qty > 0
    ensures forall l :: l in Split(f).asks ==> l.qty > 0
  {
    hide BestFirst, Prices;
    var b, a := f.levels[..f.numBid], f.levels[f.numBid..];
    assert b[..Min(f.numBid, L2_PUBLISH_DEPTH)] == Split(f).bids;
    assert a[..Min(f.numAsk, L2_PUBLISH_DEPTH)] == Split(f).asks;
    TruncatedOk(Buy, b, Min(f.numBid, L2_PUBLISH_DEPTH));
    TruncatedOk(Sell, a, Min(f.numAsk, L2_PUBLISH_DEPTH));
  }

  lemma DeliverKeeps(c: Channel, m: Message)
    requires FrameOk(m.frame)
    requires HoldsBook(HeldFor(c, m.coin), Baseline(c, m.coin))
    ensures HoldsBook(HeldFor(Deliver(c, m), m.coin), Split(m.frame))
    ensures Baseline(Deliver(c, m), m.coin) == Split(m.frame)
  {
    var curr, prev, h := Split(m.frame), Baseline(c, m.coin), HeldFor(c, m.coin);
    SplitOk(m.frame);
    if m.Subscribed? {
      SnapshotIs(Buy, curr.bids);
      SnapshotIs(Sell, curr.asks);
    } else {
      DiffRoundTrip(Buy, h.bids, prev.bids, curr.bids, true);
      DiffRoundTrip(Sell, h.asks, prev.asks, curr.asks, false);
    }
  }

  lemma RunHolds(ms: seq<Message>, coin: string)
    requires forall m :: m in ms ==> FrameOk(m.frame)
    ensures HoldsBook(HeldFor(Run(ms), coin), Baseline(Run(ms), coin))
  {
    if ms != [] {
      var init, m := ms[..|ms| - 1], ms[|ms| - 1];
      assert m in ms && forall x :: x in init ==> x in ms;
      RunHolds(init, coin);
      if m.coin == coin {
        DeliverKeeps(Run(init), m);
      }
    }
  }

  /**
   After any run of subscriptions and book frames over any coins, the subscriber holds exactly the
   published depth of the last frame of each coin.
   */
  lemma SubscriberHoldsTheBook(ms: seq<Message>, m: Message)
    requires forall x :: x in ms + [m] ==> FrameOk(x.frame)
    ensures HoldsBook(HeldFor(Run(ms + [m]), m.coin), Split(m.frame))
  {
    assert m in ms + [m] && forall x :: x in ms ==> x in ms + [m];
    RunHolds(ms, m.coin);
    DeliverKeeps(Run(ms), m);
    assert (ms + [m])[..|ms|] == ms;
  }
}
