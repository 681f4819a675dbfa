/**
 Credits for quantity a trade print already took from a price level, kept until a level update
 stamped at or after the trade accounts for it.
 */
module TradeCredits {
  import opened Types

  type Key = (Side, Price)

  datatype Credit = Credit(qty: nat, time: nat)

  type Credits = map<Key, seq<Credit>>

  function At(m: Credits, key: Key): seq<Credit> {
    if key in m then m[key] else []
  }

  // ----- what the two operations do to one price's entries

  /** One entry per timestamp: a second trade stamped alike adds to the first. */
  function Added(cs: seq<Credit>, qty: nat, time: nat): seq<Credit> {
    if cs == [] then [Credit(qty, time)]
    else if cs[0].time == time then [Credit(cs[0].qty + qty, time)] + cs[1..]
    else [cs[0]] + Added(cs[1..], qty, time)
  }

  /** The credits an update stamped `asOf` does not reflect. */
  function Kept(cs: seq<Credit>, asOf: nat): seq<Credit> {
    if cs == [] then [] else (if asOf < cs[0].time then [cs[0]] else []) + Kept(cs[1..], asOf)
  }

  function Sum(cs: seq<Credit>): nat {
    if cs == [] then 0 else cs[0].qty + Sum(cs[1..])
  }

  function CreditTradedQty(m: Credits, key: Key, qty: int, time: nat): Credits {
    if qty <= 0 then m else m[key := Added(At(m, key), qty, time)]
  }

  function TakeTradedQty(m: Credits, key: Key, asOf: nat): (Credits, nat) {
    var kept := Kept(At(m, key), asOf);
    (if kept == [] then m - {key} else m[key := kept], Sum(kept))
  }

  // ----- the reference: a history of credits and takes

  datatype Op = Traded(key: Key, qty: int, time: nat) | Taken(key: Key, asOf: nat)

  ghost predicate Covered(h: seq<Op>, i: nat)
    requires i < |h| && h[i].Traded?
  {
    exists j :: i < j < |h| && h[j].Taken? && h[j].key == h[i].key && h[j].asOf >= h[i].time
  }

  ghost function Term(h: seq<Op>, key: Key, t: nat, i: nat): nat
    requires i < |h|
  {
    if h[i].Traded? && h[i].key == key && h[i].qty > 0 && h[i].time > t && !Covered(h, i) then h[i].qty else 0
  }

  /** Credits among the first `n` operations that are stamped after `t` and that no later take has covered. */
  ghost function Outstanding(h: seq<Op>, key: Key, t: nat, n: nat): nat
    requires n <= |h|
  {
    if n == 0 then 0 else Outstanding(h, key, t, n - 1) + Term(h, key, t, n - 1)
  }

  function Run(h: seq<Op>): Credits {
    if h == [] then map[]
    else
      var m, x := Run(h[..|h| - 1]), h[|h| - 1];
      if x.Traded? then CreditTradedQty(m, x.key, x.qty, x.time) else TakeTradedQty(m, x.key, x.asOf).0
  }

  ghost predicate OnePerTime(cs: seq<Credit>) {
    forall i, j :: 0 <= i < j < |cs| ==> cs[i].time != cs[j].time
  }

  function SumAfter(cs: seq<Credit>, t: nat): nat {
    if cs == [] then 0 else (if cs[0].time > t then cs[0].qty else 0) + SumAfter(cs[1..], t)
  }

  lemma {:induction false} AddedSum(cs: seq<Credit>, qty: nat, time: nat, t: nat)
    ensures SumAfter(Added(cs, qty, time), t) == SumAfter(cs, t) + if time > t then qty else 0
  {
    if cs != [] {
      AddedSum(cs[1..], qty, time, t);
      if cs[0].time == time {
        assert Added(cs, qty, time)[1..] == cs[1..];
      } else {
        assert Added(cs, qty, time)[1..] == Added(cs[1..], qty, time);
      }
    }
  }

  lemma {:induction false} AddedUnique(cs: seq<Credit>, qty: nat, time: nat)
    requires OnePerTime(cs)
    ensures OnePerTime(Added(cs, qty, time))
    ensures forall i :: 0 <= i < |Added(cs, qty, time)| ==>
              Added(cs, qty, time)[i].time == time || exists j :: 0 <= j < |cs| && cs[j].time == Added(cs, qty, time)[i].time
  {
    if cs != [] && cs[0].time != time {
      var rest := cs[1..];
      assert forall i :: 0 <= i < |rest| ==> rest[i] == cs[i + 1];
      AddedUnique(rest, qty, time);
      var r := Added(rest, qty, time);
      forall i | 0 <= i < |r| ensures r[i].time != cs[0].time
        && (r[i].time == time || exists j :: 0 <= j < |cs| && cs[j].time == r[i].time)
      {
        if r[i].time != time {
          var j :| 0 <= j < |rest| && rest[j].time == r[i].time;
          assert cs[j + 1].time == r[i].time;
        }
      }
    }
  }

  lemma {:induction false} KeptSum(cs: seq<Credit>, asOf: nat, t: nat)
    ensures SumAfter(Kept(cs, asOf), t) == SumAfter(cs, if asOf > t then asOf else t)
    ensures Sum(Kept(cs, asOf)) == SumAfter(cs, asOf)
  {
    if cs != [] {
      KeptSum(cs[1..], asOf, t);
      if asOf < cs[0].time {
        assert Kept(cs, asOf)[1..] == Kept(cs[1..], asOf);
      } else {
        assert Kept(cs, asOf) == Kept(cs[1..], asOf);
      }
    }
  }

  lemma {:induction false} KeptUnique(cs: seq<Credit>, asOf: nat)
    requires OnePerTime(cs)
    ensures OnePerTime(Kept(cs, asOf))
    ensures forall i :: 0 <= i < |Kept(cs, asOf)| ==> Kept(cs, asOf)[i] in cs
  {
    if cs != [] {
      KeptUnique(cs[1..], asOf);
      assert forall c :: c in cs[1..] ==> c in cs;
    }
  }

  // ----- appending to the history

  lemma {:induction false} OutstandingAppend(h: seq<Op>, x: Op, key: Key, t: nat, n: nat)
    requires n <= |h|
    ensures Outstanding(h + [x], key, t, n) ==
            Outstanding(h, key, if x.Taken? && x.key == key && x.asOf > t then x.asOf else t, n)
  {
    if n > 0 {
      var t' := if x.Taken? && x.key == key && x.asOf > t then x.asOf else t;
      OutstandingAppend(h, x, key, t, n - 1);
      var g, i := h + [x], n - 1;
      assert g[i] == h[i];
      if h[i].Traded? {
        if Covered(h, i) {
          var j :| i < j < |h| && h[j].Taken? && h[j].key == h[i].key && h[j].asOf >= h[i].time;
          assert g[j] == h[j];
        }
        if x.Taken? && x.key == h[i].key && x.asOf >= h[i].time {
          assert g[|h|] == x;
          assert Covered(g, i);
        }
        if Covered(g, i) {
          var j :| i < j < |g| && g[j].Taken? && g[j].key == g[i].key && g[j].asOf >= g[i].time;
          assert j < |h| ==> g[j] == h[j];
        }
      }
    }
  }

  ghost predicate Refines(m: Credits, h: seq<Op>) {
    && (forall key: Key, t: nat :: SumAfter(At(m, key), t) == Outstanding(h, key, t, |h|))
    && (forall key :: key in m ==> m[key] != [] && OnePerTime(m[key]))
  }

  lemma NewCreditUncovered(h: seq<Op>, x: Op)
    requires x.Traded?
    ensures !Covered(h + [x], |h|)
  {
  }

  lemma CreditRefines(m: Credits, h: seq<Op>, key: Key, qty: int, time: nat)
    requires Refines(m, h)
    ensures Refines(CreditTradedQty(m, key, qty, time), h + [Traded(key, qty, time)])
  {
    var x := Traded(key, qty, time);
    var g, m' := h + [x], CreditTradedQty(m, key, qty, time);
    forall k: Key, t: nat ensures SumAfter(At(m', k), t) == Outstanding(g, k, t, |g|) {
      OutstandingAppend(h, x, k, t, |h|);
      assert g[|h|] == x;
      NewCreditUncovered(h, x);
      assert SumAfter(At(m, k), t) == Outstanding(h, k, t, |h|);
      if qty > 0 {
        AddedSum(At(m, key), qty, time, t);
      }
    }
    if qty > 0 {
      AddedUnique(At(m, key), qty, time);
    }
  }

  lemma TakeRefines(m: Credits, h: seq<Op>, key: Key, asOf: nat)
    requires Refines(m, h)
    ensures Refines(TakeTradedQty(m, key, asOf).0, h + [Taken(key, asOf)])
    ensures TakeTradedQty(m, key, asOf).1 == Outstanding(h, key, asOf, |h|)
  {
    var x := Taken(key, asOf);
    var g, m' := h + [x], TakeTradedQty(m, key, asOf).0;
    KeptSum(At(m, key), asOf, asOf);
    assert SumAfter(At(m, key), asOf) == Outstanding(h, key, asOf, |h|);
    TakenTable(m, key, asOf);
    KeptUnique(At(m, key), asOf);
    hide TakeTradedQty, Kept, SumAfter, Outstanding, OnePerTime, At;
    forall k: Key, t: nat ensures SumAfter(At(m', k), t) == Outstanding(g, k, t, |g|) {
      OutstandingAppend(h, x, k, t, |h|);
      assert g[|h|] == x;
      KeptSum(At(m, key), asOf, t);
      var t' := if k == key && asOf > t then asOf else t;
      assert SumAfter(At(m, k), t') == Outstanding(h, k, t', |h|);
      assert Outstanding(g, k, t, |g|) == Outstanding(g, k, t, |h|) by {
        NoCreditAtATake(h, key, asOf, k, t);
      }
    }
  }

  lemma NoCreditAtATake(h: seq<Op>, key: Key, asOf: nat, k: Key, t: nat)
    ensures var g := h + [Taken(key, asOf)]; Outstanding(g, k, t, |g|) == Outstanding(g, k, t, |h|)
  {
  }

  /** A take changes the entries of its own key alone, and leaves no empty ones. */
  lemma TakenTable(m: Credits, key: Key, asOf: nat)
    ensures var m' := TakeTradedQty(m, key, asOf).0;
            && (forall k :: At(m', k) == if k == key then Kept(At(m, key), asOf) else At(m, k))
            && (forall k :: k in m' ==> m'[k] == At(m', k) && if k == key then m'[k] != [] else k in m && m'[k] == m[k])
  {
    hide Kept;
  }

  /**
   For any interleaving of credits and takes, a take answers the sum of the credits at its key
   stamped after it that no take since the credit has covered, and each price keeps at most one
   entry per timestamp.
   */
  lemma {:induction false} CreditsRefineHistory(h: seq<Op>, key: Key, asOf: nat)
    ensures TakeTradedQty(Run(h), key, asOf).1 == Outstanding(h, key, asOf, |h|)
    ensures Refines(Run(h), h)
  {
    if h != [] {
      var init, x := h[..|h| - 1], h[|h| - 1];
      assert h == init + [x];
      CreditsRefineHistory(init, key, asOf);
      if x.Traded? {
        CreditRefines(Run(init), init, x.key, x.qty, x.time);
      } else {
        TakeRefines(Run(init), init, x.key, x.asOf);
      }
    }
    TakeRefines(Run(h), h, key, asOf);
  }

  // ----- the exchange's table

  lemma AddedStep(cs: seq<Credit>, i: nat, qty: nat, time: nat)
    requires i < |cs|
    ensures cs[i].time == time ==>
              cs[..i] + Added(cs[i..], qty, time) == cs[i := Credit(cs[i].qty + qty, time)]
    ensures cs[i].time != time ==>
              cs[..i] + Added(cs[i..], qty, time) == cs[..i + 1] + Added(cs[i + 1..], qty, time)
  {
    assert cs[i..][1..] == cs[i + 1..];
  }

  method AddCredit(cs: seq<Credit>, qty: nat, time: nat) returns (r: seq<Credit>)
    ensures r == Added(cs, qty, time)
  {
    var i := 0;
    assert cs[..0] + Added(cs[0..], qty, time) == Added(cs, qty, time) by {
      assert cs[0..] == cs;
    }
    while i < |cs|
      invariant 0 <= i <= |cs|
      invariant Added(cs, qty, time) == cs[..i] + Added(cs[i..], qty, time)
    {
      AddedStep(cs, i, qty, time);
      if cs[i].time == time {
        return cs[i := Credit(cs[i].qty + qty, time)];
      }
      i := i + 1;
    }
    assert cs[..i] == cs && cs[i..] == [];
    r := cs + [Credit(qty, time)];
  }

  lemma KeptStep(cs: seq<Credit>, i: nat, asOf: nat)
    requires i < |cs|
    ensures asOf < cs[i].time ==>
              && cs[..i] + Kept(cs[i..], asOf) == cs[..i + 1] + Kept(cs[i + 1..], asOf)
              && Sum(Kept(cs[i..], asOf)) == cs[i].qty + Sum(Kept(cs[i + 1..], asOf))
    ensures asOf >= cs[i].time ==> Kept(cs[i..], asOf) == Kept(cs[i + 1..], asOf)
  {
    assert cs[i..][1..] == cs[i + 1..];
    if asOf < cs[i].time {
      assert Kept(cs[i..], asOf)[1..] == Kept(cs[i + 1..], asOf);
    }
  }

  /** Erases while iterating, as the exchange does. */
  method DropReflected(all: seq<Credit>, asOf: nat) returns (cs: seq<Credit>, unreflected: nat)
    ensures cs == Kept(all, asOf) && unreflected == Sum(cs)
  {
    cs, unreflected := all, 0;
    var i := 0;
    assert cs[0..] == all;
    while i < |cs|
      invariant 0 <= i <= |cs|
      invariant Kept(all, asOf) == cs[..i] + Kept(cs[i..], asOf)
      invariant Sum(Kept(all, asOf)) == unreflected + Sum(Kept(cs[i..], asOf))
      decreases |cs| - i
    {
      KeptStep(cs, i, asOf);
      if asOf < cs[i].time {
        unreflected := unreflected + cs[i].qty;
        i := i + 1;
      } else {
        ghost var prev := cs;
        cs := cs[..i] + cs[i + 1..];
        assert cs[..i] == prev[..i] && cs[i..] == prev[i + 1..];
      }
    }
    assert cs[..i] == cs && cs[i..] == [];
  }

  class CreditTable {
    var credits: Credits

    constructor ()
      ensures credits == Run([])
    {
      credits := map[];
    }

    method CreditQty(key: Key, qty: int, time: nat)
      modifies this
      ensures credits == CreditTradedQty(old(credits), key, qty, time)
    {
      if qty <= 0 {
        return;
      }
      var cs := AddCredit(At(credits, key), qty, time);
      credits := credits[key := cs];
    }

    method TakeQty(key: Key, asOf: nat) returns (unreflected: nat)
      modifies this
      ensures (credits, unreflected) == TakeTradedQty(old(credits), key, asOf)
    {
      if key !in credits {
        assert credits - {key} == credits;
        return 0;
      }
      var cs;
      cs, unreflected := DropReflected(credits[key], asOf);
      credits := if cs == [] then credits - {key} else credits[key := cs];
    }
  }
}
