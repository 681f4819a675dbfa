/** The publisher and the subscriber of the compressed l2 channel as they run, loop by loop. */
module L2Channel {
  import opened Types
  import opened L2Diff

  // ----- the publisher

  lemma PriceSetSnoc(ls: seq<Level>, l: Level)
    ensures PriceSet(ls + [l]) == PriceSet(ls) + {l.price}
  {
  }

  lemma ChangedStep(prev: map<Price, nat>, curr: seq<Level>, i: nat)
    requires i < |curr|
    ensures Changed(prev, curr[i..]) ==
            (if curr[i].price !in prev || prev[curr[i].price] != curr[i].qty then [curr[i]] else [])
            + Changed(prev, curr[i + 1..])
  {
    assert curr[i..][1..] == curr[i + 1..];
  }

  method IndexByPrice(ls: seq<Level>) returns (byPrice: map<Price, nat>, prices: set<Price>)
    ensures byPrice == ByPrice(ls) && prices == PriceSet(ls)
  {
    byPrice, prices := map[], {};
    for i := 0 to |ls|
      invariant byPrice == ByPrice(ls[..i]) && prices == PriceSet(ls[..i])
    {
      ByPriceSnoc(ls[..i], ls[i]);
      PriceSetSnoc(ls[..i], ls[i]);
      assert ls[..i + 1] == ls[..i] + [ls[i]];
      if ls[i].price !in byPrice {
        byPrice := byPrice[ls[i].price := ls[i].qty];
      }
      prices := prices + {ls[i].price};
    }
    assert ls[..|ls|] == ls;
  }

  method ChangedLevels(before: map<Price, nat>, curr: seq<Level>) returns (changed: seq<Level>)
    ensures changed == Changed(before, curr)
  {
    changed := [];
    assert curr[0..] == curr;
    for i := 0 to |curr|
      invariant changed + Changed(before, curr[i..]) == Changed(before, curr)
    {
      ChangedStep(before, curr, i);
      if curr[i].price !in before || before[curr[i].price] != curr[i].qty {
        changed := changed + [curr[i]];
      }
    }
  }

  lemma {:induction false} PricesAt(ls: seq<Level>, i: nat)
    requires i < |ls|
    ensures Prices(ls)[i] == ls[i].price
  {
    if i > 0 {
      PricesAt(ls[1..], i - 1);
    }
  }

  method RemovedIndices(prev: seq<Level>, kept: set<Price>, descending: bool) returns (removed: seq<nat>)
    ensures removed ==
            if descending then Descending(Prices(prev), kept, |prev|) else Ascending(Prices(prev), kept, |prev|)
  {
    hide Prices;
    removed := [];
    if descending {
      for i := |prev| downto 0
        invariant removed + Descending(Prices(prev), kept, i) == Descending(Prices(prev), kept, |prev|)
      {
        PricesAt(prev, i);
        if prev[i].price !in kept {
          removed := removed + [i];
        }
      }
    } else {
      for i := 0 to |prev|
        invariant removed == Ascending(Prices(prev), kept, i)
      {
        PricesAt(prev, i);
        if prev[i].price !in kept {
          removed := removed + [i];
        }
      }
    }
  }

  method ComputeSide(prev: seq<Level>, curr: seq<Level>, descending: bool) returns (d: SideDiff)
    ensures d == DiffSide(prev, curr, descending)
  {
    var before, _ := IndexByPrice(prev);
    var _, kept := IndexByPrice(curr);
    var changed := ChangedLevels(before, curr);
    var removed := RemovedIndices(prev, kept, descending);
    d := SideDiff(changed, removed);
  }

  method SplitFrame(f: Frame) returns (b: Sides)
    ensures b == Split(f)
  {
    var bidCount, askCount := Min(f.numBid, L2_PUBLISH_DEPTH), Min(f.numAsk, L2_PUBLISH_DEPTH);
    var bids: seq<Level>, asks: seq<Level> := [], [];
    for i := 0 to bidCount
      invariant bids == f.levels[..i]
    {
      bids := bids + [f.levels[i]];
    }
    for i := 0 to askCount
      invariant asks == f.levels[f.numBid..f.numBid + i]
    {
      asks := asks + [f.levels[f.numBid + i]];
    }
    b := Sides(bids, asks);
  }

  class Publisher {
    var baseline: map<string, Sides>

    /** The first delivery after subscribing is a full snapshot, which seeds the baseline. */
    method PublishResponse(coin: string, f: Frame) returns (snapshot: Sides)
      modifies this
      ensures snapshot == Split(f)
      ensures forall held :: baseline == Deliver(Channel(old(baseline), held), Subscribed(coin, f)).baseline
    {
      snapshot := SplitFrame(f);
      baseline := baseline[coin := snapshot];
    }

    method PublishBook(coin: string, f: Frame) returns (bids: SideDiff, asks: SideDiff)
      modifies this
      ensures forall held :: baseline == Deliver(Channel(old(baseline), held), Book(coin, f)).baseline
      ensures bids == DiffSide((if coin in old(baseline) then old(baseline)[coin] else EMPTY_SIDES).bids, Split(f).bids, true)
      ensures asks == DiffSide((if coin in old(baseline) then old(baseline)[coin] else EMPTY_SIDES).asks, Split(f).asks, false)
    {
      var curr := SplitFrame(f);
      var prev := if coin in baseline then baseline[coin] else EMPTY_SIDES;
      bids := ComputeSide(prev.bids, curr.bids, true);
      asks := ComputeSide(prev.asks, curr.asks, false);
      baseline := baseline[coin := curr];
    }
  }

  // ----- the subscriber

  lemma {:induction false} PlaceAt(s: Side, ref: seq<Price>, p: Price, k: nat)
    requires k <= |ref|
    requires forall i :: 0 <= i < k ==> IsPriceBetter(s, ref[i], p)
    requires k < |ref| ==> !IsPriceBetter(s, ref[k], p)
    ensures Place(s, ref, p) == if k < |ref| && ref[k] == p then ref else ref[..k] + [p] + ref[k..]
  {
    if k > 0 {
      PlaceAt(s, ref[1..], p, k - 1);
      assert ref == [ref[0]] + ref[1..];
      assert ref[1..][k - 1..] == ref[k..];
      assert ref[..k] == [ref[0]] + ref[1..][..k - 1];
    }
  }

  lemma {:induction false} EraseAt(ref: seq<Price>, p: Price, k: nat)
    requires k <= |ref| && p !in ref[..k]
    requires k < |ref| ==> ref[k] == p
    ensures Erase(ref, p) == if k < |ref| then ref[..k] + ref[k + 1..] else ref
  {
    if k > 0 {
      assert ref[0] in ref[..k] && ref[..k] == [ref[0]] + ref[1..][..k - 1];
      EraseAt(ref[1..], p, k - 1);
      assert ref == [ref[0]] + ref[1..];
    }
  }

  lemma {:induction false} BestFirstAt(s: Side, ps: seq<Price>, i: nat, j: nat)
    requires BestFirst(s, ps) && i < j < |ps|
    ensures IsPriceBetter(s, ps[i], ps[j])
  {
    if i == 0 {
      assert ps[1..][j - 1] in ps[1..];
    } else {
      BestFirstAt(s, ps[1..], i - 1, j - 1);
    }
  }

  /** The first position whose price is not better than `p`, by bisection. */
  method LowerBound(s: Side, ref: seq<Price>, p: Price) returns (k: nat)
    requires BestFirst(s, ref)
    ensures k <= |ref|
    ensures forall i :: 0 <= i < k ==> IsPriceBetter(s, ref[i], p)
    ensures forall i :: k <= i < |ref| ==> !IsPriceBetter(s, ref[i], p)
  {
    forall i, j | 0 <= i < j < |ref| ensures IsPriceBetter(s, ref[i], ref[j]) {
      BestFirstAt(s, ref, i, j);
    }
    k := 0;
    var hi := |ref|;
    while k < hi
      invariant k <= hi <= |ref|
      invariant forall i :: 0 <= i < k ==> IsPriceBetter(s, ref[i], p)
      invariant forall i :: hi <= i < |ref| ==> !IsPriceBetter(s, ref[i], p)
    {
      var mid := (k + hi) / 2;
      if IsPriceBetter(s, ref[mid], p) {
        k := mid + 1;
      } else {
        hi := mid;
      }
    }
  }

  class SideMirror {
    const side: Side
    var ref: seq<Price>
    var qty: map<Price, nat>

    ghost function Now(): Held
      reads this
    {
      Held(ref, qty)
    }

    constructor (s: Side)
      ensures side == s && Now() == Held([], map[])
    {
      side, ref, qty := s, [], map[];
    }

    method Rebuild(ls: seq<Level>)
      modifies this
      ensures Now() == Snapshot(ls)
    {
      ref, qty := [], map[];
      for i := 0 to |ls|
        invariant Now() == Snapshot(ls[..i])
      {
        assert ls[..i + 1][..i] == ls[..i];
        if ls[i].qty == 0 {
          continue;
        }
        var p := ls[i].price;
        qty := qty[p := (if p in qty then qty[p] else 0) + ls[i].qty];
        ref := ref + [p];
      }
      assert ls[..|ls|] == ls;
    }

    method ErasePrice(p: Price)
      modifies this`ref
      ensures ref == Erase(old(ref), p)
    {
      var k := 0;
      while k < |ref| && ref[k] != p
        invariant k <= |ref| && p !in ref[..k]
      {
        assert ref[..k + 1] == ref[..k] + [ref[k]];
        k := k + 1;
      }
      EraseAt(ref, p, k);
      if k < |ref| {
        ref := ref[..k] + ref[k + 1..];
      }
    }

    method ResolveAll(indices: seq<nat>) returns (gone: seq<Price>)
      ensures gone == Resolve(ref, indices)
    {
      gone := [];
      assert indices[0..] == indices;
      for i := 0 to |indices|
        invariant gone + Resolve(ref, indices[i..]) == Resolve(ref, indices)
      {
        assert indices[i..][1..] == indices[i + 1..];
        if indices[i] < |ref| {
          gone := gone + [ref[indices[i]]];
        }
      }
    }

    method ApplyRemovals(indices: seq<nat>)
      modifies this
      ensures Now() == Remove(old(Now()), Resolve(old(ref), indices))
    {
      var gone := ResolveAll(indices);
      assert gone[0..] == gone;
      for i := 0 to |gone|
        invariant Remove(Now(), gone[i..]) == Remove(old(Now()), gone)
      {
        assert gone[i..][1..] == gone[i + 1..];
        qty := SetQty(qty, gone[i], 0);
        ErasePrice(gone[i]);
      }
    }

    method ApplyChanges(ls: seq<Level>)
      requires BestFirst(side, ref)
      modifies this
      ensures Now() == Change(side, old(Now()), ls)
      ensures BestFirst(side, ref)
    {
      assert ls[0..] == ls;
      for i := 0 to |ls|
        invariant BestFirst(side, ref)
        invariant Change(side, Now(), ls[i..]) == Change(side, old(Now()), ls)
      {
        assert ls[i..][1..] == ls[i + 1..];
        var p := ls[i].price;
        qty := SetQty(qty, p, ls[i].qty);
        var k := LowerBound(side, ref, p);
        PlaceAt(side, ref, p, k);
        PlaceKeeps(side, ref, p);
        if k == |ref| || ref[k] != p {
          ref := ref[..k] + [p] + ref[k..];
        }
      }
    }

    method Process(d: SideDiff)
      requires BestFirst(side, ref)
      modifies this
      ensures Now() == Apply(side, old(Now()), d)
      ensures BestFirst(side, ref)
    {
      RemoveKeeps(side, Now(), Resolve(ref, d.removed));
      ApplyRemovals(d.removed);
      ApplyChanges(d.changed);
    }
  }
}
