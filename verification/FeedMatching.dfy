/** Feed liquidity as an aggressor: it matches first and rests what is left. */
module FeedMatching {
  import opened Types
  import opened Queue
  import opened BookState
  import opened BookInvariant
  import opened BookOps
  import opened MatchPlan
  import opened Matching
  import Requests

  datatype FeedMatched = FeedMatched(state: State, remaining: nat, actions: seq<Action>, declined: bool)

  ghost function FeedTerms(aggSide: Side, limit: Price): Terms {
    Terms(Opposite(aggSide), limit, SmpNone, {})
  }

  /** The book declines the first execution, and with it the whole match, if the sequence regresses. */
  ghost function MatchFeed(e: Engine, s: State, aggSide: Side, limit: Price, qty: nat, seqNum: nat): FeedMatched
    requires e.Valid()
  {
    var t := FeedTerms(aggSide, limit);
    var o := Plan(e, t, s.On(t.side), qty);
    if s.Refuses(seqNum) && o.actions != [] then FeedMatched(s, qty, [], true)
    else FeedMatched(ApplyAll(s, t.side, None, o.actions, seqNum), o.remaining, o.actions, false)
  }

  lemma NoSelfNoCancel(acts: seq<Action>)
    requires CancelsOwn(acts, {})
    ensures forall i :: 0 <= i < |acts| ==> acts[i].Fill?
  {
  }

  /** A feed match keeps the invariant, and what is left of it no longer crosses. */
  lemma MatchFeedKeeps(e: Engine, s: State, aggSide: Side, limit: Price, qty: nat, seqNum: nat)
    requires e.Valid() && Inv(s, {}) && !s.Refuses(seqNum)
    ensures var m := MatchFeed(e, s, aggSide, limit, qty, seqNum);
            && Inv(m.state, {}) && !m.declined && !m.state.Refuses(seqNum)
            && Shrinks(s, m.state, Opposite(aggSide), None)
            && Filled(m.actions) + m.remaining == qty
            && (m.remaining > 0 ==> FitsBeside(m.state, aggSide, limit))
            && ActionsOk(s.On(Opposite(aggSide)), m.actions)
            && m.state.On(Opposite(aggSide)) == ActAll(s.On(Opposite(aggSide)), m.actions)
  {
    hide View, Distinct, Sorted, AllReal, PhantomAt, LookupsOk, IndexOk, Uncrossed, RestsAsRecorded;
    hide Plan, ApplyAll, Shrinks, ActionsOk, ActAll, Filled;
    var t := FeedTerms(aggSide, limit);
    var q := s.On(t.side);
    var o := Plan(e, t, q, qty);
    Requests.NotTurnedBack(e, t, q, qty);
    PlanSound(e, t, q, qty);
    Requests.PlanCancelsOwn(e, t, q, qty, {});
    NoSelfNoCancel(o.actions);
    ApplyAllKeeps(s, t.side, None, o.actions, seqNum, s.orders);
    ApplyAllSeq(s, t.side, o.actions, seqNum);
    var r := ApplyAll(s, t.side, None, o.actions, seqNum);
    if o.remaining > 0 {
      Requests.StoppedFits(r, t, o.remaining);
    }
    assert Opposite(Opposite(aggSide)) == aggSide;
  }

  /** Liquidity that fits beside the other side trades nothing. */
  lemma NothingCrosses(e: Engine, s: State, aggSide: Side, price: Price, qty: nat, seqNum: nat)
    requires e.Valid() && Inv(s, {}) && (qty > 0 ==> FitsBeside(s, aggSide, price)) && price != NULL_PRICE
    ensures MatchFeed(e, s, aggSide, price, qty, seqNum) == FeedMatched(s, qty, [], false)
  {
    hide Inv, Distinct, Sorted;
    var q := s.On(Opposite(aggSide));
    if qty > 0 && q != [] {
      assert q[0].id in View(q) && View(q)[q[0].id] == q[0];
    }
    assert FeedTerms(aggSide, price).Stops(q, qty);
  }

  lemma {:induction false} ApplyAllSeq(s: State, side: Side, acts: seq<Action>, seqNum: nat)
    requires !s.Refuses(seqNum) && forall i :: 0 <= i < |acts| ==> acts[i].Fill?
    ensures !ApplyAll(s, side, None, acts, seqNum).Refuses(seqNum)
    ensures var t := ApplyAll(s, side, None, acts, seqNum);
            t.lastSeq == s.lastSeq || (seqNum > 0 && t.lastSeq == seqNum)
    decreases |acts|
  {
    hide View;
    if acts != [] {
      if Ready(s, side, None, acts[0]) {
        FillPassiveSeq(s, side, acts[0].id, acts[0].qty, seqNum);
      }
      hide FillPassive, Ready;
      ApplyAllSeq(Apply(s, side, None, acts[0], seqNum), side, acts[1..], seqNum);
    }
  }

  /** Match, then rest the remainder as phantom liquidity under the given id and priority. */
  ghost function MatchThenRest(e: Engine, s: State, aggSide: Side, x: Resting, seqNum: nat): FeedMatched
    requires e.Valid()
  {
    var m := MatchFeed(e, s, aggSide, x.price, x.qty, seqNum);
    if m.remaining > 0 then m.(state := L3Add(m.state, aggSide, x.(qty := m.remaining), seqNum)) else m
  }

  lemma StillUnused(s: State, t: State, side: Side, id: nat)
    requires Unused(s, id) && Shrinks(s, t, side, None)
    ensures Unused(t, id)
  {
    hide View;
    assert t.On(Opposite(side)) == s.On(Opposite(side));
    assert id !in View(s.On(side)) && id !in View(s.On(Opposite(side)));
  }

  lemma MatchThenRestKeeps(e: Engine, s: State, aggSide: Side, x: Resting, seqNum: nat)
    requires e.Valid() && Inv(s, {}) && !s.Refuses(seqNum) && Unused(s, x.id) && x.price != NULL_PRICE
    ensures var m := MatchThenRest(e, s, aggSide, x, seqNum);
            && Inv(m.state, {}) && !m.declined && !m.state.Refuses(seqNum)
            && m.state.orders <= s.orders && m.state.pool.Keys <= s.pool.Keys
  {
    hide View, Inv, MatchFeed, Unused, FitsBeside, ActionsOk, ActAll, Filled, L3Add;
    MatchFeedKeeps(e, s, aggSide, x.price, x.qty, seqNum);
    var m := MatchFeed(e, s, aggSide, x.price, x.qty, seqNum);
    StillUnused(s, m.state, Opposite(aggSide), x.id);
    if m.remaining > 0 {
      var y := x.(qty := m.remaining);
      AddPhantomKeeps(m.state, {}, aggSide, y, seqNum);
      AddSeq(m.state, aggSide, y, seqNum);
    }
  }

  lemma AddSeq(s: State, side: Side, x: Resting, seqNum: nat)
    requires !s.Refuses(seqNum) && Unused(s, x.id)
    ensures !L3Add(s, side, x, seqNum).Refuses(seqNum)
    ensures L3Add(s, side, x, seqNum).orders == s.orders && L3Add(s, side, x, seqNum).pool.Keys == s.pool.Keys
    ensures var t := L3Add(s, side, x, seqNum); t.lastSeq == s.lastSeq || (seqNum > 0 && t.lastSeq == seqNum)
  {
    hide View, Insert;
  }
}
