/** What the l2 channel sends and what a subscriber ends up with, level by level. */
module L2Messages {
  import opened Types
  import opened L2Diff
  import opened L2Channel

  // ----- what is published

  /** Each side is the first twenty levels of the frame, or all of them if there are fewer; asks start after the last bid. */
  lemma TwentyOfEach(f: Frame)
    ensures var b := Split(f);
            && |b.bids| == (if f.numBid < 20 then f.numBid else 20)
            && |b.asks| == (if f.numAsk < 20 then f.numAsk else 20)
            && (forall i :: 0 <= i < |b.bids| ==> b.bids[i] == f.levels[i])
            && (forall i :: 0 <= i < |b.asks| ==> b.asks[i] == f.levels[f.numBid + i])
  {
  }

  /**
   A difference lists no more than it must: the levels that are new or have a new quantity, best first,
   and the positions of the prices that are gone, highest first for bids and lowest first for asks.
   */
  lemma OnlyWhatChanged(s: Side, prev: seq<Level>, curr: seq<Level>, descending: bool)
    requires BestFirst(s, Prices(prev)) && BestFirst(s, Prices(curr))
    ensures var d := DiffSide(prev, curr, descending);
            && (forall l :: l in d.changed <==> l in curr && l !in prev)
            && (forall i, j :: 0 <= i < j < |d.changed| ==> IsPriceBetter(s, d.changed[i].price, d.changed[j].price))
            && (forall i: nat :: i in d.removed <==> i < |prev| && forall l :: l in curr ==> l.price != prev[i].price)
            && (forall i, j :: 0 <= i < j < |d.removed| ==>
                  if descending then d.removed[i] > d.removed[j] else d.removed[i] < d.removed[j])
  {
    var d := DiffSide(prev, curr, descending);
    ChangedAre(s, prev, curr);
    BestFirstLevels(s, d.changed);
    RemovedAt(prev, curr, descending);
    AscendingOrder(Prices(prev), PriceSet(curr), |prev|);
    DescendingOrder(Prices(prev), PriceSet(curr), |prev|);
  }

  lemma ChangedAre(s: Side, prev: seq<Level>, curr: seq<Level>)
    requires BestFirst(s, Prices(prev)) && BestFirst(s, Prices(curr))
    ensures forall l :: l in Changed(ByPrice(prev), curr) <==> l in curr && l !in prev
    ensures BestFirst(s, Prices(Changed(ByPrice(prev), curr)))
  {
    ChangedIs(s, ByPrice(prev), curr);
    ByPriceOf(s, prev);
    PricesMember(prev);
    forall l | l in curr ensures l in prev <==> l.price in ByPrice(prev) && ByPrice(prev)[l.price] == l.qty {
      if l.price in ByPrice(prev) && ByPrice(prev)[l.price] == l.qty {
        var k :| k in prev && k.price == l.price;
        assert k == l;
      }
    }
  }

  lemma BestFirstLevels(s: Side, ls: seq<Level>)
    requires BestFirst(s, Prices(ls))
    ensures forall i, j :: 0 <= i < j < |ls| ==> IsPriceBetter(s, ls[i].price, ls[j].price)
  {
    forall i, j | 0 <= i < j < |ls| ensures IsPriceBetter(s, ls[i].price, ls[j].price) {
      BestFirstAt(s, Prices(ls), i, j);
      PricesAt(ls, i);
      PricesAt(ls, j);
    }
  }

  lemma RemovedAt(prev: seq<Level>, curr: seq<Level>, descending: bool)
    ensures forall i: nat :: i in DiffSide(prev, curr, descending).removed
                             <==> i < |prev| && forall l :: l in curr ==> l.price != prev[i].price
  {
    RemovedAre(Prices(prev), PriceSet(curr), |prev|);
    forall i: nat | i < |prev| ensures Prices(prev)[i] == prev[i].price {
      PricesAt(prev, i);
    }
  }

  lemma {:induction false} DescendingOrder(ps: seq<Price>, kept: set<Price>, n: nat)
    requires n <= |ps|
    ensures forall i, j :: 0 <= i < j < |Descending(ps, kept, n)| ==> Descending(ps, kept, n)[i] > Descending(ps, kept, n)[j]
  {
    if n > 0 {
      DescendingOrder(ps, kept, n - 1);
      RemovedAre(ps, kept, n - 1);
      var r := Descending(ps, kept, n - 1);
      assert forall i :: 0 <= i < |r| ==> r[i] in r;
    }
  }

  // ----- what a subscriber sees

  /** The mirror lists `n` levels from position `from` of the frame, in order, and knows no other quantity. */
  ghost predicate Shows(h: Held, f: Frame, from: nat, n: nat)
    requires from + n <= |f.levels|
  {
    && |h.ref| == n
    && (forall i :: 0 <= i < n ==>
          && h.ref[i] == f.levels[from + i].price
          && h.ref[i] in h.qty && h.qty[h.ref[i]] == f.levels[from + i].qty)
    && forall p :: p in h.qty && h.qty[p] > 0 ==> p in h.ref
  }

  /** Both sides of the mirror: the best twenty levels of each, or all of them if there are fewer. */
  ghost predicate ShowsBook(h: BookHeld, f: Frame) {
    && Shows(h.bids, f, 0, if f.numBid < 20 then f.numBid else 20)
    && Shows(h.asks, f, f.numBid, if f.numAsk < 20 then f.numAsk else 20)
  }

  /** After any run of subscriptions and book frames, the subscriber of a coin shows that coin's last frame. */
  lemma ShowsTheLastFrame(ms: seq<Message>, m: Message)
    requires forall x :: x in ms + [m] ==> FrameOk(x.frame)
    ensures ShowsBook(HeldFor(Run(ms + [m]), m.coin), m.frame)
  {
    hide Run, HeldFor, FrameOk, HoldsBook, Split, ShowsBook;
    assert m in ms + [m];
    SubscriberHoldsTheBook(ms, m);
    HeldIsShown(HeldFor(Run(ms + [m]), m.coin), m.frame);
  }

  /** No message touches what a subscriber shows of another coin. */
  lemma OtherCoins(ms: seq<Message>, m: Message, other: string)
    requires other != m.coin
    ensures HeldFor(Run(ms + [m]), other) == HeldFor(Run(ms), other)
  {
    assert (ms + [m])[..|ms|] == ms;
    hide Split, DiffSide, Apply, Snapshot;
  }

  lemma HeldIsShown(h: BookHeld, f: Frame)
    requires FrameOk(f) && HoldsBook(h, Split(f))
    ensures ShowsBook(h, f)
  {
    SplitOk(f);
    TwentyOfEach(f);
    hide BestFirst, Prices, FrameOk, Split, Shows, Holds;
    LevelByLevel(Buy, h.bids, Split(f).bids, f, 0);
    LevelByLevel(Sell, h.asks, Split(f).asks, f, f.numBid);
  }

  lemma LevelByLevel(s: Side, h: Held, ls: seq<Level>, f: Frame, from: nat)
    requires Holds(h, ls) && BestFirst(s, Prices(ls)) && forall l :: l in ls ==> l.qty > 0
    requires from + |ls| <= |f.levels| && forall i :: 0 <= i < |ls| ==> ls[i] == f.levels[from + i]
    ensures Shows(h, f, from, |ls|)
  {
    hide BestFirst, Holds, Prices;
    SeenLevelByLevel(s, h, ls);
  }

  lemma SeenLevelByLevel(s: Side, h: Held, ls: seq<Level>)
    requires Holds(h, ls) && BestFirst(s, Prices(ls)) && forall l :: l in ls ==> l.qty > 0
    ensures |h.ref| == |ls|
    ensures forall i :: 0 <= i < |ls| ==> h.ref[i] == ls[i].price && h.ref[i] in h.qty && h.qty[h.ref[i]] == ls[i].qty
    ensures forall p :: p in h.qty && h.qty[p] > 0 ==> p in h.ref
  {
    ByPriceOf(s, ls);
    hide ByPrice, Prices, BestFirst;
    forall i | 0 <= i < |ls| ensures h.ref[i] == ls[i].price && h.ref[i] in h.qty && h.qty[h.ref[i]] == ls[i].qty {
      PricesAt(ls, i);
      assert ls[i] in ls && QtyAt(h, ls[i].price) == ls[i].qty;
    }
    forall p | p in h.qty && h.qty[p] > 0 ensures p in h.ref {
      assert QtyAt(h, p) > 0;
    }
  }
}
