/** The whole l2 channel on the exchange's own book: snapshots, differences, and any run of them. */
module L2Follower {
  import opened Types
  import opened Queue
  import opened BookState
  import opened BookInvariant
  import opened MatchPlan
  import opened FeedMatching
  import opened L2Diff
  import opened L2Book
  import Rebuild

  // ----- a snapshot

  ghost function RestAll(e: Engine, s: State, side: Side, ls: seq<Level>, first: nat, priority: nat): State
    requires e.Valid()
    decreases |ls|
  {
    if ls == [] then s
    else RestAll(e, MatchThenRest(e, s, side, Resting(first, ls[0].price, ls[0].qty, priority), 0).state, side, ls[1..], first + 1, priority)
  }

  lemma {:induction false} RestAllMirrors(e: Engine, s: State, side: Side, ls: seq<Level>, first: nat, priority: nat,
                                          qty: map<Price, nat>)
    requires e.Valid() && Inv(s, {}) && UnusedFrom(s, first) && Clears(s, side, ls) && Mirrors(s, side, qty)
    requires BestFirst(side, Prices(ls)) && forall p :: p in Prices(ls) ==> At(qty, p) == 0
    ensures var t := RestAll(e, s, side, ls, first, priority);
            OnlyPhantoms(s, t, side) && Mirrors(t, side, SetAll(qty, ls)) && UnusedFrom(t, first + |ls|)
    decreases |ls|
  {
    hide Inv, MatchThenRest, UnusedFrom, Sets, FitsBeside, View, PhantomAt;
    if ls != [] {
      var l, rest := ls[0], ls[1..];
      assert l in ls && forall x :: x in rest ==> x in ls;
      assert Prices(ls)[0] == l.price && Prices(ls)[1..] == Prices(rest);
      HeadAndTail(Prices(ls));
      assert l.price in Prices(ls) && At(qty, l.price) == 0;
      assert PhantomAt(s.On(side), l.price, s.orders) == 0;
      RestSets(e, s, side, l, first, priority);
      var t := MatchThenRest(e, s, side, Resting(first, l.price, l.qty, priority), 0).state;
      SetQtyMirrors(s, t, side, l, qty);
      forall x | x in rest ensures x.qty > 0 ==> FitsBeside(t, side, x.price) {
        StillFits(s, t, side, x.price);
      }
      RestAllMirrors(e, t, side, rest, first + 1, priority, SetQty(qty, l.price, l.qty));
      hide SameOwners, Mirrors, OwnUntouched;
      OnlyPhantomsTrans(s, t, RestAll(e, t, side, rest, first + 1, priority), side);
    }
  }

  /** The decoder on a snapshot: the book is cleared of phantoms and every listed level rested anew. */
  ghost function ProcessSnapshot(e: Engine, s: State, own: seq<nat>, b: Sides, first: nat, priority: nat): State
    requires e.Valid()
  {
    var s1 := RestAll(e, Rebuild.ClearMdOrders(s, own), Buy, b.bids, first, priority);
    RestAll(e, s1, Sell, b.asks, first + |b.bids|, priority)
  }

  lemma {:induction false} OwnAreNotPhantom(q: seq<Resting>, p: Price, own: set<nat>)
    requires Distinct(q) && forall id :: id in View(q) ==> id in own && View(q)[id].id == id
    ensures PhantomAt(q, p, own) == 0
  {
    if q != [] {
      assert q[0].id in View(q);
      forall id | id in View(q[1..]) ensures id in own && View(q[1..])[id].id == id {
        assert id in View(q) && View(q)[id] == View(q[1..])[id];
      }
      OwnAreNotPhantom(q[1..], p, own);
    }
  }

  lemma ClearedMirrors(s: State, own: seq<nat>, first: nat)
    requires Inv(s, {}) && Rebuild.Lists(own, s.orders) && UnusedFrom(s, first)
    ensures var t := Rebuild.ClearMdOrders(s, own);
            && Inv(t, {}) && SameOwners(s, t) && UnusedFrom(t, first)
            && Mirrors(t, Buy, map[]) && Mirrors(t, Sell, map[])
  {
    hide View, Inv, Rebuild.ClearMdOrders, Rebuild.Lists, PhantomAt, WellFormed;
    Rebuild.ClearMdOrdersKeeps(s, own);
    var t := Rebuild.ClearMdOrders(s, own);
    forall id | id >= first ensures Unused(t, id) {
      assert Unused(s, id);
    }
    SideHasNoPhantom(t, Buy);
    SideHasNoPhantom(t, Sell);
  }

  lemma SideHasNoPhantom(t: State, side: Side)
    requires Inv(t, {}) && forall id :: id in View(t.On(side)) ==> id in t.orders
    ensures Mirrors(t, side, map[])
  {
    hide Sorted, PhantomAt, IndexOk, LookupsOk, Uncrossed, RestsAsRecorded;
    forall p: Price ensures PhantomAt(t.On(side), p, t.orders) == 0 {
      OwnAreNotPhantom(t.On(side), p, t.orders);
    }
  }

  /** The quantities listed, starting from none. */
  lemma {:induction false} SetAllIs(side: Side, qty: map<Price, nat>, ls: seq<Level>, p: Price)
    requires BestFirst(side, Prices(ls))
    ensures At(SetAll(qty, ls), p) == if p in Prices(ls) then At(ByPrice(ls), p) else At(qty, p)
    ensures p in ByPrice(ls) <==> p in Prices(ls)
    decreases |ls|
  {
    if ls != [] {
      assert Prices(ls)[0] == ls[0].price && Prices(ls)[1..] == Prices(ls[1..]);
      HeadAndTail(Prices(ls));
      SetAllIs(side, SetQty(qty, ls[0].price, ls[0].qty), ls[1..], p);
    }
  }

  lemma ListedMirrors(t: State, side: Side, ls: seq<Level>)
    requires BestFirst(side, Prices(ls)) && Mirrors(t, side, SetAll(map[], ls))
    ensures Mirrors(t, side, ByPrice(ls))
  {
    hide PhantomAt;
    forall p: Price ensures At(SetAll(map[], ls), p) == At(ByPrice(ls), p) {
      SetAllIs(side, map[], ls, p);
    }
    SameMirror(t, t, side, SetAll(map[], ls), ByPrice(ls));
  }

  lemma BidsFit(s: State, curr: Sides)
    requires Inv(s, {}) && Published(curr) && OwnClear(s, curr) && Mirrors(s, Sell, map[])
    ensures Clears(s, Buy, curr.bids)
  {
    PricesMember(curr.bids);
    LevelsFit(s, Buy, curr, map[], curr.bids);
  }

  lemma AsksFit(s: State, curr: Sides)
    requires Inv(s, {}) && Published(curr) && OwnClear(s, curr) && Mirrors(s, Buy, ByPrice(curr.bids))
    ensures Clears(s, Sell, curr.asks)
  {
    PricesMember(curr.asks);
    ByPriceOf(Buy, curr.bids);
    LevelsFit(s, Sell, curr, ByPrice(curr.bids), curr.asks);
  }

  /** After a snapshot the book is the published one, whatever phantom quantity it held before. */
  lemma SnapshotMirrors(e: Engine, s: State, own: seq<nat>, curr: Sides, first: nat, priority: nat)
    requires e.Valid() && Inv(s, {}) && Rebuild.Lists(own, s.orders) && UnusedFrom(s, first)
    requires Published(curr) && OwnClear(s, curr)
    ensures var t := ProcessSnapshot(e, s, own, curr, first, priority);
            && Inv(t, {}) && SameOwners(s, t) && BookMirrors(t, curr)
            && UnusedFrom(t, first + |curr.bids| + |curr.asks|)
  {
    hide View, Inv, UnusedFrom, Mirrors, Clears, SetAll, RestAll, Rebuild.ClearMdOrders, Rebuild.Lists, ByPrice, Prices, BestFirst, PhantomAt, OwnUntouched;
    ClearedMirrors(s, own, first);
    var s0 := Rebuild.ClearMdOrders(s, own);
    BidsFit(s0, curr);
    RestAllMirrors(e, s0, Buy, curr.bids, first, priority, map[]);
    var s1 := RestAll(e, s0, Buy, curr.bids, first, priority);
    ListedMirrors(s1, Buy, curr.bids);
    SameMirror(s0, s1, Sell, map[], map[]);
    AsksFit(s1, curr);
    RestAllMirrors(e, s1, Sell, curr.asks, first + |curr.bids|, priority, map[]);
    var t := RestAll(e, s1, Sell, curr.asks, first + |curr.bids|, priority);
    ListedMirrors(t, Sell, curr.asks);
    SameMirror(s1, t, Buy, ByPrice(curr.bids), ByPrice(curr.bids));
  }

  // ----- the whole channel

  /** The exchange's book of one coin, and the next id it will draw. */
  datatype Follower = Follower(book: State, next: nat)

  ghost function Follow(e: Engine, f: Follower, own: seq<nat>, h: BookHeld, prev: Sides, m: Message, priority: nat): Follower
    requires e.Valid()
  {
    var curr := L2Diff.Split(m.frame);
    if m.Subscribed? then
      Follower(ProcessSnapshot(e, f.book, own, curr, f.next, priority), f.next + |curr.bids| + |curr.asks|)
    else
      var bids, asks := DiffSide(prev.bids, curr.bids, true), DiffSide(prev.asks, curr.asks, false);
      Follower(ProcessDiff(e, f.book, h, bids, asks, f.next, priority),
               f.next + IdsDrawn(h, prev, curr))
  }

  ghost function FollowAll(e: Engine, f: Follower, own: seq<nat>, ms: seq<Message>, coin: string, priority: nat): Follower
    requires e.Valid()
  {
    if ms == [] then f
    else
      var init, m := ms[..|ms| - 1], ms[|ms| - 1];
      var g := FollowAll(e, f, own, init, coin, priority);
      if m.coin != coin then g
      else Follow(e, g, own, HeldFor(L2Diff.Run(init), coin), Baseline(L2Diff.Run(init), coin), m, priority)
  }

  /** What a book of the channel promises of every frame: sound, uncrossed at real prices, and clear of our own orders. */
  ghost predicate Fair(s: State, m: Message, coin: string) {
    FrameOk(m.frame) && (m.coin == coin ==> Published(L2Diff.Split(m.frame)) && OwnClear(s, L2Diff.Split(m.frame)))
  }

  ghost predicate InStep(s: State, f: Follower, b: Sides) {
    && Inv(f.book, {}) && SameOwners(s, f.book) && UnusedFrom(f.book, f.next) && BookMirrors(f.book, b)
    && NULL_PRICE !in Prices(b.bids) && NULL_PRICE !in Prices(b.asks)
  }

  lemma StillClear(s: State, t: State, curr: Sides)
    requires SameOwners(s, t) && OwnClear(s, curr)
    ensures OwnClear(t, curr)
  {
  }

  lemma FollowStep(e: Engine, s: State, f: Follower, own: seq<nat>, h: BookHeld, prev: Sides, m: Message, coin: string, priority: nat)
    requires e.Valid() && Rebuild.Lists(own, s.orders) && m.coin == coin && Fair(s, m, coin)
    requires InStep(s, f, prev) && HoldsBook(h, prev)
    ensures InStep(s, Follow(e, f, own, h, prev, m, priority), L2Diff.Split(m.frame))
  {
    hide View, Inv, UnusedFrom, BookMirrors, OwnClear, Rebuild.Lists, ProcessSnapshot, ProcessDiff, HoldsBook, DiffSide, IdsDrawn, Prices, BestFirst, FrameOk, OwnUntouched;
    var curr := L2Diff.Split(m.frame);
    StillClear(s, f.book, curr);
    if m.Subscribed? {
      SnapshotMirrors(e, f.book, own, curr, f.next, priority);
    } else {
      BookFollowsTheChannel(e, f.book, h, prev, curr, f.next, priority);
    }
  }

  lemma NoneMirrored(s: State)
    requires Mirrors(s, Buy, map[]) && Mirrors(s, Sell, map[])
    ensures BookMirrors(s, EMPTY_SIDES)
  {
    assert ByPrice([]) == map[];
  }

  lemma {:induction false} FollowAllKeeps(e: Engine, s: State, first: nat, own: seq<nat>, ms: seq<Message>, coin: string, priority: nat)
    requires e.Valid() && Inv(s, {}) && UnusedFrom(s, first) && Rebuild.Lists(own, s.orders)
    requires Mirrors(s, Buy, map[]) && Mirrors(s, Sell, map[])
    requires forall m :: m in ms ==> Fair(s, m, coin)
    ensures InStep(s, FollowAll(e, Follower(s, first), own, ms, coin, priority), Baseline(L2Diff.Run(ms), coin))
  {
    hide View, Inv, UnusedFrom, Rebuild.Lists, Mirrors, Follow, InStep, Fair, HoldsBook, L2Diff.Split;
    if ms == [] {
      StartFollowing(s, first);
    } else {
      var init, m := ms[..|ms| - 1], ms[|ms| - 1];
      assert m in ms && forall x :: x in init ==> x in ms;
      FollowAllKeeps(e, s, first, own, init, coin, priority);
      FairFrames(s, init, coin);
      RunHolds(init, coin);
      if m.coin == coin {
        FollowStep(e, s, FollowAll(e, Follower(s, first), own, init, coin, priority), own,
                   HeldFor(L2Diff.Run(init), coin), Baseline(L2Diff.Run(init), coin), m, coin, priority);
      }
    }
  }

  lemma FairFrames(s: State, ms: seq<Message>, coin: string)
    requires forall m :: m in ms ==> Fair(s, m, coin)
    ensures forall m :: m in ms ==> FrameOk(m.frame)
  {
    hide FrameOk, Published, OwnClear;
  }

  lemma StartFollowing(s: State, first: nat)
    requires Inv(s, {}) && UnusedFrom(s, first) && Mirrors(s, Buy, map[]) && Mirrors(s, Sell, map[])
    ensures InStep(s, Follower(s, first), EMPTY_SIDES)
  {
    NoneMirrored(s);
    hide Inv, UnusedFrom, BookMirrors;
  }

  /**
   Over any run of subscriptions and book frames over any coins, from a book without phantom orders: after
   each message the exchange's book of that coin holds exactly the published depth of the message's frame,
   at every price of both sides, and its own orders are as they were, as long as no frame crosses one.
   */
  lemma BookFollowsEveryMessage(e: Engine, s: State, first: nat, own: seq<nat>, ms: seq<Message>, m: Message, priority: nat)
    requires e.Valid() && Inv(s, {}) && UnusedFrom(s, first) && Rebuild.Lists(own, s.orders)
    requires Mirrors(s, Buy, map[]) && Mirrors(s, Sell, map[])
    requires forall x :: x in ms + [m] ==> Fair(s, x, m.coin)
    ensures var t := FollowAll(e, Follower(s, first), own, ms + [m], m.coin, priority).book;
            Inv(t, {}) && SameOwners(s, t) && BookMirrors(t, L2Diff.Split(m.frame))
  {
    hide View, Inv, UnusedFrom, Rebuild.Lists, Mirrors, Follow, FollowAll, Fair, BookMirrors, L2Diff.Split, Prices;
    FollowAllKeeps(e, s, first, own, ms + [m], m.coin, priority);
    assert (ms + [m])[..|ms|] == ms;
    assert Baseline(L2Diff.Run(ms + [m]), m.coin) == L2Diff.Split(m.frame);
  }
}
