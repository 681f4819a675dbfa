/**
 Coinbase's event sequencer. Level updates and trade prints arrive on separate channels; a priority
 queue per symbol puts them back into event-time order before they reach the book.
 */
module Sequencer {
  import opened Types

  datatype Kind = Trade | Level

  /** One element of a feed batch, with the clock reading taken when it was queued. */
  datatype Row = Row(time: nat, received: nat, price: Price, qty: nat, side: Side)

  datatype Event = Event(kind: Kind, row: Row, sequenceId: nat, seqNum: nat, endEvent: bool)

  /** The queue's comparison: `a` is dispatched after `b`. */
  predicate DispatchedAfter(a: Event, b: Event) {
    if a.row.time != b.row.time then a.row.time > b.row.time
    else if a.kind != b.kind then a.kind != Trade
    else a.sequenceId < b.sequenceId
  }

  /** The comparison is a strict order, total on events with different sequence ids. */
  lemma StrictOrder(a: Event, b: Event, c: Event)
    ensures !(DispatchedAfter(a, b) && DispatchedAfter(b, a))
    ensures DispatchedAfter(a, b) && DispatchedAfter(b, c) ==> DispatchedAfter(a, c)
    ensures a.sequenceId != b.sequenceId ==> DispatchedAfter(a, b) || DispatchedAfter(b, a)
  {
  }

  // ----- the queue, kept in the order it is popped

  function Insert(q: seq<Event>, e: Event): seq<Event> {
    if q == [] || DispatchedAfter(q[0], e) then [e] + q else [q[0]] + Insert(q[1..], e)
  }

  ghost predicate InPopOrder(q: seq<Event>) {
    forall i, j :: 0 <= i < j < |q| ==> DispatchedAfter(q[j], q[i])
  }

  datatype Symbol = Symbol(pending: seq<Event>, lastEventTime: nat, nextSequenceId: nat, out: seq<Event>)

  const START := Symbol([], 0, 0, [])

  function Push(s: Symbol, kind: Kind, row: Row, seqNum: nat, endEvent: bool): Symbol {
    Symbol(Insert(s.pending, Event(kind, row, s.nextSequenceId, seqNum, endEvent)),
           if s.lastEventTime < row.time then row.time else s.lastEventTime,
           s.nextSequenceId + 1, s.out)
  }

  /** Rows in the order they are queued; `marked` puts the end-of-event flag on the first. */
  function PushAll(s: Symbol, kind: Kind, rows: seq<Row>, seqNum: nat, marked: bool): Symbol
    decreases |rows|
  {
    if rows == [] then s else PushAll(Push(s, kind, rows[0], seqNum, marked), kind, rows[1..], seqNum, false)
  }

  function Reversed(rows: seq<Row>): (r: seq<Row>)
    ensures |r| == |rows|
    ensures forall i :: 0 <= i < |r| ==> r[i] == rows[|rows| - 1 - i]
  {
    if rows == [] then [] else Reversed(rows[1..]) + [rows[0]]
  }

  const ONE_SECOND_NS: nat := 1_000_000_000
  const WORD: nat := 0x1_0000_0000_0000_0000

  /** Both conditions are computed in unsigned 64-bit arithmetic. */
  predicate Ready(s: Symbol, e: Event, force: bool, now: nat) {
    || force
    || (s.lastEventTime > 0 && (e.row.time + ONE_SECOND_NS) % WORD <= s.lastEventTime)
    || (now - e.row.received) % WORD >= ONE_SECOND_NS
  }

  function Drain(s: Symbol, force: bool, now: nat): Symbol
    decreases |s.pending|
  {
    if s.pending == [] || !Ready(s, s.pending[0], force, now) then s
    else Drain(s.(pending := s.pending[1..], out := s.out + [s.pending[0]]), force, now)
  }

  /**
   A level batch is queued back to front. A trade batch, which lists the newest print first, is
   queued front to back; its flag belongs to this symbol only when its first print does.
   */
  datatype Op =
    | LevelBatch(rows: seq<Row>, seqNum: nat)
    | TradeBatch(rows: seq<Row>, seqNum: nat, firstIsOurs: bool)
    | Process(force: bool, now: nat)
    | Snapshot

  function Step(s: Symbol, op: Op): Symbol {
    match op
    case LevelBatch(rows, n) => PushAll(s, Level, Reversed(rows), n, true)
    case TradeBatch(rows, n, first) => PushAll(s, Trade, rows, n, first)
    case Process(force, now) => Drain(s, force, now)
    case Snapshot => s.(pending := [])
  }

  function Run(s: Symbol, ops: seq<Op>): Symbol
    decreases |ops|
  {
    if ops == [] then s else Run(Step(s, ops[0]), ops[1..])
  }

  // ----- selecting some events of a sequence

  function Select(q: seq<Event>, ids: set<nat>): seq<Event> {
    if q == [] then [] else if q[0].sequenceId in ids then [q[0]] + Select(q[1..], ids) else Select(q[1..], ids)
  }

  lemma {:induction false} SelectJoin(a: seq<Event>, b: seq<Event>, ids: set<nat>)
    ensures Select(a + b, ids) == Select(a, ids) + Select(b, ids)
  {
    if a == [] {
      assert a + b == b;
    } else {
      SelectJoin(a[1..], b, ids);
      assert (a + b)[1..] == a[1..] + b;
    }
  }

  lemma {:induction false} InsertUnselected(q: seq<Event>, e: Event, ids: set<nat>)
    requires e.sequenceId !in ids
    ensures Select(Insert(q, e), ids) == Select(q, ids)
  {
    if q == [] || DispatchedAfter(q[0], e) {
      assert ([e] + q)[1..] == q;
    } else {
      InsertUnselected(q[1..], e, ids);
      assert ([q[0]] + Insert(q[1..], e))[1..] == Insert(q[1..], e);
    }
  }

  lemma {:induction false} InsertFirst(q: seq<Event>, e: Event, ids: set<nat>)
    requires e.sequenceId in ids
    requires forall x :: x in Select(q, ids) ==> DispatchedAfter(x, e)
    ensures Select(Insert(q, e), ids) == [e] + Select(q, ids)
  {
    if q == [] || DispatchedAfter(q[0], e) {
      assert ([e] + q)[1..] == q;
    } else {
      InsertFirst(q[1..], e, ids);
      assert ([q[0]] + Insert(q[1..], e))[1..] == Insert(q[1..], e);
    }
  }

  lemma {:induction false} SelectMembers(q: seq<Event>, ids: set<nat>)
    ensures forall x :: x in Select(q, ids) <==> x in q && x.sequenceId in ids
  {
    if q != [] {
      SelectMembers(q[1..], ids);
      assert q == [q[0]] + q[1..];
    }
  }

  // ----- what is queued keeps its order

  /** What was dispatched since position `k`, then what still waits, among the selected events. */
  function Line(s: Symbol, k: nat, ids: set<nat>): seq<Event>
    requires k <= |s.out|
  {
    Select(s.out[k..], ids) + Select(s.pending, ids)
  }

  ghost predicate Issued(s: Symbol, ids: set<nat>) {
    forall id :: id in ids ==> id < s.nextSequenceId
  }

  lemma {:induction false} PushAllKeepsLine(s: Symbol, kind: Kind, rows: seq<Row>, n: nat, marked: bool, k: nat, ids: set<nat>)
    requires k <= |s.out| && Issued(s, ids)
    ensures var t := PushAll(s, kind, rows, n, marked);
            t.out == s.out && Issued(t, ids) && Line(t, k, ids) == Line(s, k, ids)
    decreases |rows|
  {
    if rows != [] {
      InsertUnselected(s.pending, Event(kind, rows[0], s.nextSequenceId, n, marked), ids);
      PushAllKeepsLine(Push(s, kind, rows[0], n, marked), kind, rows[1..], n, false, k, ids);
    }
  }

  lemma DispatchKeepsLine(s: Symbol, k: nat, ids: set<nat>)
    requires k <= |s.out| && s.pending != []
    ensures Line(s.(pending := s.pending[1..], out := s.out + [s.pending[0]]), k, ids) == Line(s, k, ids)
  {
    var e := s.pending[0];
    assert (s.out + [e])[k..] == s.out[k..] + [e];
    SelectJoin(s.out[k..], [e], ids);
    assert s.pending == [e] + s.pending[1..];
    SelectJoin([e], s.pending[1..], ids);
  }

  lemma {:induction false} DrainKeepsLine(s: Symbol, force: bool, now: nat, k: nat, ids: set<nat>)
    requires k <= |s.out|
    ensures var t := Drain(s, force, now);
            s.out <= t.out && t.nextSequenceId == s.nextSequenceId && Line(t, k, ids) == Line(s, k, ids)
    decreases |s.pending|
  {
    if s.pending != [] && Ready(s, s.pending[0], force, now) {
      DispatchKeepsLine(s, k, ids);
      DrainKeepsLine(s.(pending := s.pending[1..], out := s.out + [s.pending[0]]), force, now, k, ids);
    }
  }

  lemma StepKeepsLine(s: Symbol, op: Op, k: nat, ids: set<nat>)
    requires k <= |s.out| && Issued(s, ids)
    ensures var t := Step(s, op);
            s.out <= t.out && Issued(t, ids) && Line(t, k, ids) <= Line(s, k, ids)
  {
    match op
    case LevelBatch(rows, n) => PushAllKeepsLine(s, Level, Reversed(rows), n, true, k, ids);
    case TradeBatch(rows, n, first) => PushAllKeepsLine(s, Trade, rows, n, first, k, ids);
    case Process(force, now) => DrainKeepsLine(s, force, now, k, ids);
    case Snapshot =>
  }

  lemma {:induction false} RunKeepsLine(s: Symbol, ops: seq<Op>, k: nat, ids: set<nat>)
    requires k <= |s.out| && Issued(s, ids)
    ensures var t := Run(s, ops);
            s.out <= t.out && Line(t, k, ids) <= Line(s, k, ids)
    decreases |ops|
  {
    if ops != [] {
      StepKeepsLine(s, ops[0], k, ids);
      RunKeepsLine(Step(s, ops[0]), ops[1..], k, ids);
    }
  }

  lemma PrefixOfPrefix(a: seq<Event>, b: seq<Event>, c: seq<Event>)
    requires a + b <= c
    ensures a <= c
  {
    assert a == (a + b)[..|a|];
  }

  /**
   Whatever happens next - more batches, dispatching at any pace, a snapshot that discards the
   queue - events already queued are dispatched, as far as they are, in the order they hold now.
   */
  lemma QueuedOrderIsFinal(s: Symbol, ops: seq<Op>, ids: set<nat>)
    requires Issued(s, ids)
    ensures s.out <= Run(s, ops).out
    ensures Select(Run(s, ops).out[|s.out|..], ids) <= Select(s.pending, ids)
  {
    RunKeepsLine(s, ops, |s.out|, ids);
    assert s.out[|s.out|..] == [];
    assert Line(s, |s.out|, ids) == Select(s.pending, ids);
    PrefixOfPrefix(Select(Run(s, ops).out[|s.out|..], ids), Select(Run(s, ops).pending, ids), Select(s.pending, ids));
  }

  // ----- reachable queues

  ghost predicate Inv(s: Symbol) {
    && InPopOrder(s.pending)
    && (forall a, b :: a in s.pending && b in s.pending && a.sequenceId == b.sequenceId ==> a == b)
    && forall e :: e in s.pending ==> e.sequenceId < s.nextSequenceId
  }

  lemma {:induction false} InsertKeeps(q: seq<Event>, e: Event)
    requires InPopOrder(q) && forall x :: x in q ==> x.sequenceId != e.sequenceId
    ensures InPopOrder(Insert(q, e))
    ensures forall x :: x in Insert(q, e) <==> x in q || x == e
  {
    if q != [] {
      assert q == [q[0]] + q[1..];
      if DispatchedAfter(q[0], e) {
        forall j | 0 <= j < |q| ensures DispatchedAfter(q[j], e) {
          StrictOrder(q[j], q[0], e);
        }
      } else {
        StrictOrder(e, q[0], e);
        assert q[0] in q;
        InsertKeeps(q[1..], e);
        var r := Insert(q[1..], e);
        forall j | 0 <= j < |r| ensures DispatchedAfter(r[j], q[0]) {
          assert r[j] in r;
          if r[j] != e {
            var i :| 0 <= i < |q[1..]| && q[1..][i] == r[j];
            assert q[i + 1] == r[j];
          }
        }
      }
    }
  }

  lemma {:induction false} PushAllInv(s: Symbol, kind: Kind, rows: seq<Row>, n: nat, marked: bool)
    requires Inv(s)
    ensures Inv(PushAll(s, kind, rows, n, marked))
    decreases |rows|
  {
    if rows != [] {
      InsertKeeps(s.pending, Event(kind, rows[0], s.nextSequenceId, n, marked));
      PushAllInv(Push(s, kind, rows[0], n, marked), kind, rows[1..], n, false);
    }
  }

  lemma {:induction false} DrainInv(s: Symbol, force: bool, now: nat)
    requires Inv(s)
    ensures Inv(Drain(s, force, now))
    decreases |s.pending|
  {
    if s.pending != [] && Ready(s, s.pending[0], force, now) {
      assert forall e :: e in s.pending[1..] ==> e in s.pending;
      DrainInv(s.(pending := s.pending[1..], out := s.out + [s.pending[0]]), force, now);
    }
  }

  lemma {:induction false} RunInv(s: Symbol, ops: seq<Op>)
    requires Inv(s)
    ensures Inv(Run(s, ops))
    decreases |ops|
  {
    if ops != [] {
      match ops[0] {
        case LevelBatch(rows, n) => PushAllInv(s, Level, Reversed(rows), n, true);
        case TradeBatch(rows, n, first) => PushAllInv(s, Trade, rows, n, first);
        case Process(force, now) => DrainInv(s, force, now);
        case Snapshot =>
      }
      RunInv(Step(s, ops[0]), ops[1..]);
    }
  }

  lemma {:induction false} SelectInPopOrder(q: seq<Event>, ids: set<nat>)
    requires InPopOrder(q)
    ensures InPopOrder(Select(q, ids))
  {
    if q != [] {
      SelectInPopOrder(q[1..], ids);
      SelectMembers(q[1..], ids);
      var r := Select(q[1..], ids);
      forall j | 0 <= j < |r| ensures DispatchedAfter(r[j], q[0]) {
        assert r[j] in r;
        var i :| 0 <= i < |q[1..]| && q[1..][i] == r[j];
        assert q[i + 1] == r[j];
      }
    }
  }

  lemma SelectPair(q: seq<Event>, a: Event, b: Event)
    requires InPopOrder(q) && a in q && b in q && DispatchedAfter(b, a)
    requires forall x :: x in q && x.sequenceId == a.sequenceId ==> x == a
    requires forall x :: x in q && x.sequenceId == b.sequenceId ==> x == b
    ensures Select(q, {a.sequenceId, b.sequenceId}) == [a, b]
  {
    var ids := {a.sequenceId, b.sequenceId};
    var r := Select(q, ids);
    SelectMembers(q, ids);
    SelectInPopOrder(q, ids);
    StrictOrder(a, b, a);
    assert a in r && b in r;
    assert forall i :: 0 <= i < |r| ==> r[i] in r && (r[i] == a || r[i] == b);
    hide Select;
    OnlyTwo(r, a, b);
  }

  /** In strict order, a sequence made of two events holds each of them once. */
  lemma OnlyTwo(r: seq<Event>, a: Event, b: Event)
    requires InPopOrder(r) && a in r && b in r && DispatchedAfter(b, a)
    requires forall i :: 0 <= i < |r| ==> r[i] == a || r[i] == b
    ensures r == [a, b]
  {
    StrictOrder(a, b, a);
    StrictOrder(b, b, b);
    StrictOrder(a, a, a);
    hide DispatchedAfter;
    var i :| 0 <= i < |r| && r[i] == a;
    var j :| 0 <= j < |r| && r[j] == b;
    NoRepeats(r, i);
    NoRepeats(r, j);
    assert i < j;
    var first, second, last := r[0], r[1], r[|r| - 1];
    assert i == 0;
    assert j == 1;
    assert |r| == 2;
  }

  lemma NoRepeats(r: seq<Event>, i: nat)
    requires InPopOrder(r) && i < |r|
    ensures forall k :: 0 <= k < |r| && r[k] == r[i] ==> k == i
  {
    forall k | 0 <= k < |r| && k != i ensures r[k] != r[i] {
      StrictOrder(r[k], r[i], r[k]);
    }
  }

  /**
   Of two events queued together, the one the comparison puts first is dispatched first, on any
   path: the later one never appears among the dispatched unless the earlier one stands before it.
   */
  lemma QueuedTogether(ops: seq<Op>, more: seq<Op>, a: Event, b: Event)
    requires a in Run(START, ops).pending && b in Run(START, ops).pending
    requires DispatchedAfter(b, a)
    ensures var s := Run(START, ops);
            s.out <= Run(s, more).out
            && Select(Run(s, more).out[|s.out|..], {a.sequenceId, b.sequenceId}) <= [a, b]
  {
    var s := Run(START, ops);
    RunInv(START, ops);
    SelectPair(s.pending, a, b);
    QueuedOrderIsFinal(s, more, {a.sequenceId, b.sequenceId});
  }

  /** In particular a trade precedes the level update that shares its timestamp. */
  lemma TradeBeforeItsLevel(ops: seq<Op>, more: seq<Op>, a: Event, b: Event)
    requires a in Run(START, ops).pending && b in Run(START, ops).pending
    requires a.kind == Trade && b.kind == Level && a.row.time == b.row.time
    ensures var s := Run(START, ops);
            s.out <= Run(s, more).out
            && Select(Run(s, more).out[|s.out|..], {a.sequenceId, b.sequenceId}) <= [a, b]
  {
    QueuedTogether(ops, more, a, b);
  }

  // ----- batches

  function Ids(from: nat, n: nat): (ids: set<nat>)
    ensures forall i :: i in ids <==> from <= i < from + n
  {
    if n == 0 then {} else Ids(from, n - 1) + {from + n - 1}
  }

  /** The events of rows queued in this order, listed in the opposite order. */
  function LastFirst(kind: Kind, rows: seq<Row>, seqNum: nat, marked: bool, from: nat): seq<Event> {
    if rows == [] then []
    else
      var k := |rows| - 1;
      [Event(kind, rows[k], from + k, seqNum, marked && k == 0)] + LastFirst(kind, rows[..k], seqNum, marked, from)
  }

  lemma {:induction false} LastFirstAt(kind: Kind, rows: seq<Row>, seqNum: nat, marked: bool, from: nat)
    ensures var es := LastFirst(kind, rows, seqNum, marked, from);
            && |es| == |rows|
            && forall i :: 0 <= i < |rows| ==>
                 es[i] == Event(kind, rows[|rows| - 1 - i], from + |rows| - 1 - i, seqNum, marked && i == |rows| - 1)
  {
    if rows != [] {
      LastFirstAt(kind, rows[..|rows| - 1], seqNum, marked, from);
    }
  }

  ghost predicate TimesFall(rows: seq<Row>) {
    forall i, j :: 0 <= i < j < |rows| ==> rows[i].time >= rows[j].time
  }

  lemma {:induction false} PushAllSnoc(s: Symbol, kind: Kind, rows: seq<Row>, row: Row, n: nat, marked: bool)
    ensures PushAll(s, kind, rows + [row], n, marked)
            == Push(PushAll(s, kind, rows, n, marked), kind, row, n, marked && rows == [])
    ensures PushAll(s, kind, rows, n, marked).nextSequenceId == s.nextSequenceId + |rows|
    decreases |rows|
  {
    if rows == [] {
      assert rows + [row] == [row];
    } else {
      PushAllSnoc(Push(s, kind, rows[0], n, marked), kind, rows[1..], row, n, false);
      assert (rows + [row])[1..] == rows[1..] + [row];
    }
  }

  lemma {:induction false} SelectNone(q: seq<Event>, ids: set<nat>)
    requires forall e :: e in q ==> e.sequenceId !in ids
    ensures Select(q, ids) == []
  {
    if q != [] {
      assert q[0] in q && forall e :: e in q[1..] ==> e in q;
      SelectNone(q[1..], ids);
    }
  }

  lemma NewestFirst(kind: Kind, rows: seq<Row>, n: nat, marked: bool, from: nat)
    requires rows != [] && TimesFall(rows)
    ensures var e, rest := LastFirst(kind, rows, n, marked, from)[0], LastFirst(kind, rows[..|rows| - 1], n, marked, from);
            forall x :: x in rest ==> DispatchedAfter(x, e)
  {
    LastFirstAt(kind, rows[..|rows| - 1], n, marked, from);
  }

  /** Rows queued with falling times stand in the queue in reverse, whatever else it holds. */
  lemma {:induction false} QueuedInReverse(s: Symbol, kind: Kind, rows: seq<Row>, n: nat, marked: bool, ids: set<nat>)
    requires TimesFall(rows) && Select(s.pending, ids) == []
    requires forall i :: s.nextSequenceId <= i < s.nextSequenceId + |rows| ==> i in ids
    ensures Select(PushAll(s, kind, rows, n, marked).pending, ids) == LastFirst(kind, rows, n, marked, s.nextSequenceId)
    decreases |rows|
  {
    if rows != [] {
      var init, row := rows[..|rows| - 1], rows[|rows| - 1];
      assert rows == init + [row];
      NewestFirst(kind, rows, n, marked, s.nextSequenceId);
      hide Select, Insert, InPopOrder, DispatchedAfter, PushAll;
      QueuedInReverse(s, kind, init, n, marked, ids);
      PushAllSnoc(s, kind, init, row, n, marked);
      InsertFirst(PushAll(s, kind, init, n, marked).pending, LastFirst(kind, rows, n, marked, s.nextSequenceId)[0], ids);
    }
  }

  lemma BatchQueued(s: Symbol, kind: Kind, rows: seq<Row>, n: nat, marked: bool)
    requires Inv(s) && TimesFall(rows)
    ensures Select(PushAll(s, kind, rows, n, marked).pending, Ids(s.nextSequenceId, |rows|))
            == LastFirst(kind, rows, n, marked, s.nextSequenceId)
  {
    SelectNone(s.pending, Ids(s.nextSequenceId, |rows|));
    QueuedInReverse(s, kind, rows, n, marked, Ids(s.nextSequenceId, |rows|));
  }

  lemma Selected(s: Symbol, kind: Kind, rows: seq<Row>, n: nat, marked: bool, more: seq<Op>)
    requires Inv(s) && TimesFall(rows)
    ensures var t := PushAll(s, kind, rows, n, marked);
            && t.out == s.out && s.out <= Run(t, more).out
            && Select(Run(t, more).out[|s.out|..], Ids(s.nextSequenceId, |rows|))
               <= LastFirst(kind, rows, n, marked, s.nextSequenceId)
  {
    var t := PushAll(s, kind, rows, n, marked);
    PushAllKeepsLine(s, kind, rows, n, marked, 0, {});
    if rows != [] {
      PushAllSnoc(s, kind, rows, rows[0], n, marked);
    }
    BatchQueued(s, kind, rows, n, marked);
    QueuedOrderIsFinal(t, more, Ids(s.nextSequenceId, |rows|));
  }

  ghost predicate TimesRise(rows: seq<Row>) {
    forall i, j :: 0 <= i < j < |rows| ==> rows[i].time <= rows[j].time
  }

  /** A batch's events in its own order, the last one marked. */
  function InOrder(rows: seq<Row>, seqNum: nat, from: nat): seq<Event> {
    LastFirst(Level, Reversed(rows), seqNum, true, from)
  }

  lemma InOrderAt(rows: seq<Row>, seqNum: nat, from: nat)
    ensures var es := InOrder(rows, seqNum, from);
            && |es| == |rows|
            && forall i :: 0 <= i < |rows| ==> es[i] == Event(Level, rows[i], from + |rows| - 1 - i, seqNum, i == |rows| - 1)
  {
    LastFirstAt(Level, Reversed(rows), seqNum, true, from);
  }

  /**
   A level batch whose times do not fall is dispatched in its own order, with the end-of-event flag
   on its last element and on no other, from every reachable state and on every continuation.
   */
  lemma LevelBatchInOrder(ops: seq<Op>, rows: seq<Row>, n: nat, more: seq<Op>)
    requires TimesRise(rows)
    ensures var s := Run(START, ops);
            && s.out <= Run(s, [LevelBatch(rows, n)] + more).out
            && Select(Run(s, [LevelBatch(rows, n)] + more).out[|s.out|..], Ids(s.nextSequenceId, |rows|))
               <= InOrder(rows, n, s.nextSequenceId)
  {
    var s := Run(START, ops);
    RunInv(START, ops);
    Selected(s, Level, Reversed(rows), n, true, more);
    assert ([LevelBatch(rows, n)] + more)[1..] == more;
  }

  /** A trade batch listed newest first is dispatched oldest first, its flag last. */
  lemma TradeBatchInOrder(ops: seq<Op>, rows: seq<Row>, n: nat, first: bool, more: seq<Op>)
    requires TimesFall(rows)
    ensures var s := Run(START, ops);
            && s.out <= Run(s, [TradeBatch(rows, n, first)] + more).out
            && Select(Run(s, [TradeBatch(rows, n, first)] + more).out[|s.out|..], Ids(s.nextSequenceId, |rows|))
               <= LastFirst(Trade, rows, n, first, s.nextSequenceId)
  {
    var s := Run(START, ops);
    RunInv(START, ops);
    Selected(s, Trade, rows, n, first, more);
    assert ([TradeBatch(rows, n, first)] + more)[1..] == more;
  }

  lemma {:induction false} ForcedDrain(s: Symbol, now: nat)
    ensures Drain(s, true, now).out == s.out + s.pending
    decreases |s.pending|
  {
    if s.pending != [] {
      ForcedDrain(s.(pending := s.pending[1..], out := s.out + [s.pending[0]]), now);
      assert s.pending == [s.pending[0]] + s.pending[1..];
    }
  }

  lemma PopOrderRises(rows: seq<Row>, n: nat, from: nat)
    requires InPopOrder(InOrder(rows, n, from))
    ensures TimesRise(rows)
  {
    InOrderAt(rows, n, from);
    hide InOrder;
    var es := InOrder(rows, n, from);
    forall i, j | 0 <= i < j < |rows| ensures rows[i].time <= rows[j].time {
      assert DispatchedAfter(es[j], es[i]);
    }
  }

  lemma LevelBatchQueuedIff(s: Symbol, rows: seq<Row>, n: nat)
    requires Inv(s)
    ensures Select(Step(s, LevelBatch(rows, n)).pending, Ids(s.nextSequenceId, |rows|)) == InOrder(rows, n, s.nextSequenceId)
            <==> TimesRise(rows)
  {
    hide PushAll, Select, Ids, InPopOrder, LastFirst;
    var t := Step(s, LevelBatch(rows, n));
    if TimesRise(rows) {
      BatchQueued(s, Level, Reversed(rows), n, true);
    } else {
      PushAllInv(s, Level, Reversed(rows), n, true);
      SelectInPopOrder(t.pending, Ids(s.nextSequenceId, |rows|));
      if InPopOrder(InOrder(rows, n, s.nextSequenceId)) {
        PopOrderRises(rows, n, s.nextSequenceId);
      }
    }
  }

  /**
   Non-falling times are exactly what it takes. Dispatching everything at once appends the queue to
   what was dispatched, and the batch stands there in its own order only if its times do not fall.
   */
  lemma LevelBatchInOrderIff(s: Symbol, rows: seq<Row>, n: nat, now: nat)
    requires Inv(s)
    ensures var t := Step(s, LevelBatch(rows, n));
            && Step(t, Process(true, now)).out == s.out + t.pending
            && (Select(t.pending, Ids(s.nextSequenceId, |rows|)) == InOrder(rows, n, s.nextSequenceId) <==> TimesRise(rows))
  {
    var t := Step(s, LevelBatch(rows, n));
    PushAllKeepsLine(s, Level, Reversed(rows), n, true, 0, {});
    ForcedDrain(t, now);
    LevelBatchQueuedIff(s, rows, n);
  }

  const FALLING: seq<Row> := [Row(2, 0, 100, 1, Buy), Row(1, 0, 101, 1, Buy)]

  /** A batch whose second row is older is replayed backwards, its end-of-event flag first. */
  lemma FallingBatchIsReversed()
    ensures Run(START, [LevelBatch(FALLING, 7), Process(true, 0)]).out ==
            [Event(Level, FALLING[1], 0, 7, true), Event(Level, FALLING[0], 1, 7, false)]
    ensures Run(START, [LevelBatch(FALLING, 7), Process(true, 0)]).out != InOrder(FALLING, 7, 0)
  {
    var s := Step(START, LevelBatch(FALLING, 7));
    var first, second := Event(Level, FALLING[1], 0, 7, true), Event(Level, FALLING[0], 1, 7, false);
    assert Reversed(FALLING) == [FALLING[1], FALLING[0]];
    var one := Push(START, Level, FALLING[1], 7, true);
    assert one.pending == [first];
    var two := Push(one, Level, FALLING[0], 7, false);
    assert two.pending == [first, second] by {
      assert [first][1..] == [];
    }
    assert [FALLING[1], FALLING[0]][1..] == [FALLING[0]] && [FALLING[0]][1..] == [];
    assert s == two;
    ForcedDrain(s, 0);
    assert [LevelBatch(FALLING, 7), Process(true, 0)][1..] == [Process(true, 0)];
    assert [Process(true, 0)][1..] == [];
    InOrderAt(FALLING, 7, 0);
  }

  // ----- the symbol's state as it is updated

  class SymbolEventState {
    var pending: seq<Event>
    var lastEventTime: nat
    var nextSequenceId: nat
    var dispatched: seq<Event>

    ghost function Now(): Symbol
      reads this
    {
      Symbol(pending, lastEventTime, nextSequenceId, dispatched)
    }

    constructor ()
      ensures Now() == START
    {
      pending, lastEventTime, nextSequenceId, dispatched := [], 0, 0, [];
    }

    method Enqueue(kind: Kind, row: Row, seqNum: nat, endEvent: bool)
      modifies this
      ensures Now() == Push(old(Now()), kind, row, seqNum, endEvent)
    {
      var e := Event(kind, row, nextSequenceId, seqNum, endEvent);
      nextSequenceId := nextSequenceId + 1;
      if lastEventTime < row.time {
        lastEventTime := row.time;
      }
      pending := Insert(pending, e);
    }

    method OnLevel2Updates(rows: seq<Row>, seqNum: nat)
      modifies this
      ensures Now() == Step(old(Now()), LevelBatch(rows, seqNum))
    {
      ghost var queued := Reversed(rows);
      ghost var n := |rows|;
      var i := |rows|;
      assert queued[0..] == queued;
      while i > 0
        invariant 0 <= i <= n
        invariant PushAll(Now(), Level, queued[n - i..], seqNum, i == n) == PushAll(old(Now()), Level, queued, seqNum, true)
      {
        assert queued[n - i..][1..] == queued[n - i + 1..];
        i := i - 1;
        Enqueue(Level, rows[i], seqNum, i == |rows| - 1);
      }
    }

    method OnMarketTrades(rows: seq<Row>, seqNum: nat, firstIsOurs: bool)
      modifies this
      ensures Now() == Step(old(Now()), TradeBatch(rows, seqNum, firstIsOurs))
    {
      assert rows[0..] == rows;
      for i := 0 to |rows|
        invariant PushAll(Now(), Trade, rows[i..], seqNum, firstIsOurs && i == 0)
               == PushAll(old(Now()), Trade, rows, seqNum, firstIsOurs)
      {
        assert rows[i..][1..] == rows[i + 1..];
        Enqueue(Trade, rows[i], seqNum, firstIsOurs && i == 0);
      }
    }

    method ProcessSequencedEvents(force: bool, now: nat)
      modifies this
      ensures Now() == Step(old(Now()), Process(force, now))
    {
      while pending != []
        invariant Drain(Now(), force, now) == Drain(old(Now()), force, now)
        decreases |pending|
      {
        var top := pending[0];
        var ready := force;
        if !force {
          var safeByTimeGap := lastEventTime > 0 && (top.row.time + ONE_SECOND_NS) % WORD <= lastEventTime;
          var safeByTimeout := (now - top.row.received) % WORD >= ONE_SECOND_NS;
          ready := safeByTimeGap || safeByTimeout;
        }
        if !ready {
          break;
        }
        pending := pending[1..];
        dispatched := dispatched + [top];
      }
    }

    method OnLevel2Snapshot()
      modifies this
      ensures Now() == Step(old(Now()), Snapshot)
    {
      pending := [];
    }
  }
}
