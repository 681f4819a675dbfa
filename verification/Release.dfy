/** When the sequencer lets an event go, in plain arithmetic, and what that buys a feed whose channels keep pace. */
module Release {
  import opened Types
  import opened Sequencer

  // ----- what one pass dispatches

  const CLOCK_LIMIT: nat := 0x8000_0000_0000_0000

  /** Clock readings and event times fit a signed 64-bit count of nanoseconds. */
  ghost predicate Timely(q: seq<Event>) {
    forall i :: 0 <= i < |q| ==> q[i].row.time < CLOCK_LIMIT && q[i].row.received < CLOCK_LIMIT
  }

  /** At least a second older than the newest event queued, or in the queue for at least a second. */
  predicate Due(newest: nat, e: Event, now: nat) {
    newest - e.row.time >= 1_000_000_000 || now - e.row.received >= 1_000_000_000
  }

  /**
   An unforced pass dispatches the front of the queue as long as it is due and stops at the first
   event that is not. A clock that went back behind the reading of an event releases that event too.
   */
  lemma {:induction false} UnforcedPass(s: Symbol, now: nat)
    requires Timely(s.pending) && now < CLOCK_LIMIT
    ensures var t := Step(s, Process(false, now));
            var k := |s.pending| - |t.pending|;
            && 0 <= k && t.out == s.out + s.pending[..k] && t.pending == s.pending[k..]
            && (forall i :: 0 <= i < k ==> Due(s.lastEventTime, s.pending[i], now) || now < s.pending[i].row.received)
            && (k < |s.pending| ==> !Due(s.lastEventTime, s.pending[k], now) && s.pending[k].row.received <= now)
            && t.lastEventTime == s.lastEventTime && t.nextSequenceId == s.nextSequenceId
    decreases |s.pending|
  {
    if s.pending != [] {
      FrontReady(s, now);
      if Ready(s, s.pending[0], false, now) {
        var u := s.(pending := s.pending[1..], out := s.out + [s.pending[0]]);
        UnforcedPass(u, now);
        var k := |u.pending| - |Step(u, Process(false, now)).pending|;
        assert s.pending[..k + 1] == [s.pending[0]] + u.pending[..k];
        assert forall i :: 0 <= i < k ==> s.pending[i + 1] == u.pending[i];
      }
    }
  }

  lemma FrontReady(s: Symbol, now: nat)
    requires s.pending != [] && Timely(s.pending) && now < CLOCK_LIMIT
    ensures Ready(s, s.pending[0], false, now)
            <==> Due(s.lastEventTime, s.pending[0], now) || now < s.pending[0].row.received
  {
    var e := s.pending[0];
    assert (e.row.time + ONE_SECOND_NS) % WORD == e.row.time + ONE_SECOND_NS;
    if e.row.received <= now {
      assert (now - e.row.received) % WORD == now - e.row.received;
    } else {
      assert (now - e.row.received) % WORD == now - e.row.received + WORD by {
        WrapOnce(now - e.row.received);
      }
    }
  }

  lemma WrapOnce(x: int)
    requires x < 0 <= x + WORD
    ensures x % WORD == x + WORD
  {
  }

  // ----- what a batch leaves behind

  ghost predicate Brings(op: Op, kind: Kind, row: Row) {
    (op.LevelBatch? && kind == Level && row in op.rows) || (op.TradeBatch? && kind == Trade && row in op.rows)
  }

  /** A batch puts exactly its own rows into the queue, and the newest time is that of the newest row so far. */
  lemma BatchQueues(s: Symbol, op: Op)
    requires op.LevelBatch? || op.TradeBatch?
    ensures var t := Step(s, op);
            && t.out == s.out
            && (forall e :: e in t.pending ==> e in s.pending || Brings(op, e.kind, e.row))
            && (forall e :: e in s.pending ==> e in t.pending)
            && (forall kind, row :: Brings(op, kind, row) ==>
                  row.time <= t.lastEventTime && exists e :: e in t.pending && e.kind == kind && e.row == row)
            && s.lastEventTime <= t.lastEventTime
            && (t.lastEventTime == s.lastEventTime || exists kind, row :: Brings(op, kind, row) && row.time == t.lastEventTime)
  {
    hide PushAll;
    var kind := if op.LevelBatch? then Level else Trade;
    if op.LevelBatch? {
      ReversedMembers(op.rows);
      PushAllQueues(s, Level, Reversed(op.rows), op.seqNum, true);
    } else {
      PushAllQueues(s, Trade, op.rows, op.seqNum, op.firstIsOurs);
    }
    var t := Step(s, op);
    if t.lastEventTime != s.lastEventTime {
      var row :| row in op.rows && row.time == t.lastEventTime;
      assert Brings(op, kind, row);
    }
  }

  lemma ReversedMembers(rows: seq<Row>)
    ensures forall row :: row in Reversed(rows) <==> row in rows
  {
    forall row | row in rows ensures row in Reversed(rows) {
      var i :| 0 <= i < |rows| && rows[i] == row;
      assert Reversed(rows)[|rows| - 1 - i] == row;
    }
  }

  lemma {:induction false} InsertMembers(q: seq<Event>, e: Event)
    ensures forall x :: x in Insert(q, e) <==> x in q || x == e
  {
    if q != [] && !DispatchedAfter(q[0], e) {
      InsertMembers(q[1..], e);
      assert q == [q[0]] + q[1..];
    }
  }

  lemma {:induction false} PushAllQueues(s: Symbol, kind: Kind, rows: seq<Row>, n: nat, marked: bool)
    ensures var t := PushAll(s, kind, rows, n, marked);
            && t.out == s.out && s.lastEventTime <= t.lastEventTime
            && (forall e :: e in t.pending ==> e in s.pending || (e.kind == kind && e.row in rows))
            && (forall e :: e in s.pending ==> e in t.pending)
            && (forall row :: row in rows ==> row.time <= t.lastEventTime && exists e :: e in t.pending && e.kind == kind && e.row == row)
            && (t.lastEventTime == s.lastEventTime || exists row :: row in rows && row.time == t.lastEventTime)
    decreases |rows|
  {
    if rows != [] {
      var e := Event(kind, rows[0], s.nextSequenceId, n, marked);
      var u := Push(s, kind, rows[0], n, marked);
      InsertMembers(s.pending, e);
      assert rows == [rows[0]] + rows[1..];
      hide Insert, DispatchedAfter;
      PushAllQueues(u, kind, rows[1..], n, false);
      assert e in u.pending;
    }
  }

  /** What was queued when a snapshot arrives is never dispatched after it. */
  lemma SnapshotDiscards(s: Symbol, ops: seq<Op>, ids: set<nat>)
    requires Issued(s, ids)
    ensures s.out <= Run(Step(s, Snapshot), ops).out
    ensures Select(Run(Step(s, Snapshot), ops).out[|s.out|..], ids) == []
  {
    QueuedOrderIsFinal(Step(s, Snapshot), ops, ids);
  }

  // ----- dispatch in event-time order

  /** By event time, a trade before the level updates of its instant. */
  ghost predicate ComesFirst(kind: Kind, row: Row, other: Kind, than: Row) {
    row.time < than.time || (row.time == than.time && kind == Trade && other == Level)
  }

  /** `t` is a clock reading taken by the operation. */
  ghost predicate Reads(op: Op, t: nat) {
    (op.Process? && t == op.now) || exists kind, row :: Brings(op, kind, row) && t == row.received
  }

  /**
   The channels keep pace: `late` happens after `early`, nothing it brings is a second or more behind
   what `early` brought, and what should have come first follows within less than a second.
   */
  ghost predicate KeepsPace(early: Op, late: Op) {
    && (forall kind, row, other, than :: Brings(late, kind, row) && Brings(early, other, than) ==>
          && than.time - row.time < 1_000_000_000
          && (ComesFirst(kind, row, other, than) ==> row.received - than.received < 1_000_000_000))
    && (forall t, u :: Reads(early, t) && Reads(late, u) ==> t <= u)
  }

  ghost predicate InTime(op: Op) {
    && (op.Process? ==> !op.force && op.now < CLOCK_LIMIT)
    && (forall kind, row :: Brings(op, kind, row) ==> row.time < CLOCK_LIMIT && row.received < CLOCK_LIMIT)
  }

  ghost predicate Paced(ops: seq<Op>) {
    && (forall i :: 0 <= i < |ops| ==> InTime(ops[i]))
    && (forall i, j :: 0 <= i < j < |ops| ==> KeepsPace(ops[i], ops[j]))
  }

  ghost predicate InEventOrder(out: seq<Event>) {
    forall i, j :: 0 <= i < j < |out| ==> !ComesFirst(out[j].kind, out[j].row, out[i].kind, out[i].row)
  }

  /** Nothing a later operation brings belongs before what is out, and what waits is not yet a second old to it. */
  ghost predicate Expects(s: Symbol, op: Op) {
    && (forall kind, row :: Brings(op, kind, row) ==>
          && s.lastEventTime - row.time < 1_000_000_000
          && (forall e :: e in s.out ==> !ComesFirst(kind, row, e.kind, e.row))
          && (forall e :: e in s.pending && ComesFirst(kind, row, e.kind, e.row) ==> row.received - e.row.received < 1_000_000_000))
    && (forall u, e :: Reads(op, u) && e in s.pending ==> e.row.received <= u)
  }

  /** What is out is in order, and nothing that waits belongs before any of it. */
  ghost predicate Ordered(s: Symbol) {
    InEventOrder(s.out) && forall e, p :: e in s.out && p in s.pending ==> !ComesFirst(p.kind, p.row, e.kind, e.row)
  }

  ghost predicate Sequenced(s: Symbol) {
    Sequencer.Inv(s) && Timely(s.pending) && Ordered(s)
  }

  lemma BatchSequenced(s: Symbol, op: Op)
    requires Sequenced(s) && Expects(s, op) && InTime(op) && (op.LevelBatch? || op.TradeBatch?)
    ensures Sequenced(Step(s, op))
  {
    hide PushAll, InPopOrder, ComesFirst;
    BatchQueues(s, op);
    RunInv(s, [op]);
    assert Run(s, [op]) == Step(s, op) by {
      assert [op][1..] == [];
    }
    var t := Step(s, op);
    hide Step, Run, Brings;
    forall i | 0 <= i < |t.pending| ensures t.pending[i].row.time < CLOCK_LIMIT && t.pending[i].row.received < CLOCK_LIMIT {
      assert t.pending[i] in t.pending;
    }
  }

  lemma BatchExpects(s: Symbol, op: Op, late: Op)
    requires Expects(s, late) && KeepsPace(op, late) && (op.LevelBatch? || op.TradeBatch?)
    ensures Expects(Step(s, op), late)
  {
    BatchQueues(s, op);
    hide Step, ComesFirst;
    var t := Step(s, op);
    forall u, e | Reads(late, u) && e in t.pending ensures e.row.received <= u {
      if e !in s.pending {
        assert Reads(op, e.row.received);
      }
    }
  }

  lemma DispatchSequenced(s: Symbol)
    requires Sequenced(s) && s.pending != []
    ensures Sequenced(s.(pending := s.pending[1..], out := s.out + [s.pending[0]]))
  {
    DispatchKeepsOrder(s);
  }

  lemma DispatchExpects(s: Symbol, now: nat, late: Op)
    requires s.pending != [] && Expects(s, late) && Due(s.lastEventTime, s.pending[0], now)
    requires forall u :: Reads(late, u) ==> now <= u
    ensures Expects(s.(pending := s.pending[1..], out := s.out + [s.pending[0]]), late)
  {
    var e := s.pending[0];
    assert e in s.pending && forall p :: p in s.pending[1..] ==> p in s.pending;
    forall kind, row | Brings(late, kind, row) ensures !ComesFirst(kind, row, e.kind, e.row) {
      assert Reads(late, row.received);
    }
  }

  lemma {:induction false} PassSequenced(s: Symbol, now: nat, later: seq<Op>)
    requires Sequenced(s) && now < CLOCK_LIMIT && Expects(s, Process(false, now))
    requires forall i :: 0 <= i < |later| ==> Expects(s, later[i]) && KeepsPace(Process(false, now), later[i])
    ensures Sequenced(Step(s, Process(false, now)))
    ensures forall i :: 0 <= i < |later| ==> Expects(Step(s, Process(false, now)), later[i])
    decreases |s.pending|
  {
    hide Sequenced, Expects, KeepsPace;
    if s.pending != [] && Ready(s, s.pending[0], false, now) {
      FrontGoes(s, now);
      hide Ready;
      var u := s.(pending := s.pending[1..], out := s.out + [s.pending[0]]);
      DispatchSequenced(s);
      DispatchExpectsSelf(s, now);
      forall i | 0 <= i < |later| ensures Expects(u, later[i]) {
        LaterReads(now, later[i]);
        DispatchExpects(s, now, later[i]);
      }
      PassSequenced(u, now, later);
    }
  }

  lemma FrontGoes(s: Symbol, now: nat)
    requires Sequenced(s) && now < CLOCK_LIMIT && s.pending != [] && Expects(s, Process(false, now))
    requires Ready(s, s.pending[0], false, now)
    ensures Due(s.lastEventTime, s.pending[0], now)
  {
    FrontReady(s, now);
    assert Reads(Process(false, now), now) && s.pending[0] in s.pending;
  }

  lemma LaterReads(now: nat, late: Op)
    requires KeepsPace(Process(false, now), late)
    ensures forall u :: Reads(late, u) ==> now <= u
  {
    assert Reads(Process(false, now), now);
  }

  lemma DispatchExpectsSelf(s: Symbol, now: nat)
    requires s.pending != [] && Expects(s, Process(false, now))
    ensures Expects(s.(pending := s.pending[1..], out := s.out + [s.pending[0]]), Process(false, now))
  {
    assert forall p :: p in s.pending[1..] ==> p in s.pending;
  }

  lemma StepSequenced(s: Symbol, op: Op, later: seq<Op>)
    requires Sequenced(s) && InTime(op) && Expects(s, op)
    requires forall i :: 0 <= i < |later| ==> Expects(s, later[i]) && KeepsPace(op, later[i])
    ensures Sequenced(Step(s, op))
    ensures forall i :: 0 <= i < |later| ==> Expects(Step(s, op), later[i])
  {
    hide PushAll, Drain;
    match op
    case Process(force, now) =>
      PassSequenced(s, now, later);
    case Snapshot =>
    case _ =>
      BatchSequenced(s, op);
      hide Sequenced, Expects, KeepsPace, Step;
      forall i | 0 <= i < |later| ensures Expects(Step(s, op), later[i]) {
        BatchExpects(s, op, later[i]);
      }
  }

  lemma {:induction false} RunSequenced(s: Symbol, ops: seq<Op>)
    requires Sequenced(s) && Paced(ops) && forall i :: 0 <= i < |ops| ==> Expects(s, ops[i])
    ensures Sequenced(Run(s, ops))
    decreases |ops|
  {
    hide Sequenced, Expects, KeepsPace, InTime, Step;
    if ops != [] {
      var later := ops[1..];
      assert forall i :: 0 <= i < |later| ==> later[i] == ops[i + 1];
      StepSequenced(s, ops[0], later);
      RunSequenced(Step(s, ops[0]), later);
    }
  }

  /**
   What the one-second hold is for. As long as the channels keep within a second of each other, every
   run dispatches its events in event-time order across all batches, trades before the level updates
   of their instant.
   */
  lemma DispatchedInEventOrder(ops: seq<Op>)
    requires Paced(ops)
    ensures InEventOrder(Run(START, ops).out)
  {
    hide KeepsPace, Run;
    forall i | 0 <= i < |ops| ensures Expects(START, ops[i]) {
    }
    RunSequenced(START, ops);
  }

  // ----- exactly when order is lost

  /** A batch costs the order exactly when it brings a row that belongs before something already dispatched. */
  lemma BatchKeepsOrderIff(s: Symbol, op: Op)
    requires Ordered(s) && (op.LevelBatch? || op.TradeBatch?)
    ensures Ordered(Step(s, op)) <==>
            forall kind, row, e :: Brings(op, kind, row) && e in s.out ==> !ComesFirst(kind, row, e.kind, e.row)
  {
    BatchQueues(s, op);
    hide Step, ComesFirst, Brings;
    var t := Step(s, op);
    if Ordered(t) {
      forall kind, row, e | Brings(op, kind, row) && e in s.out ensures !ComesFirst(kind, row, e.kind, e.row) {
        var p :| p in t.pending && p.kind == kind && p.row == row;
      }
    }
  }

  lemma DispatchKeepsOrder(s: Symbol)
    requires Sequencer.Inv(s) && Ordered(s) && s.pending != []
    ensures var t := s.(pending := s.pending[1..], out := s.out + [s.pending[0]]); Sequencer.Inv(t) && Ordered(t)
  {
    var e, rest := s.pending[0], s.pending[1..];
    forall p | p in rest ensures p in s.pending && !ComesFirst(p.kind, p.row, e.kind, e.row) {
      var i :| 0 <= i < |rest| && rest[i] == p;
      assert s.pending[i + 1] == p && DispatchedAfter(s.pending[i + 1], s.pending[0]);
    }
    hide ComesFirst, DispatchedAfter;
    var out := s.out + [e];
    forall i, j | 0 <= i < j < |out| ensures !ComesFirst(out[j].kind, out[j].row, out[i].kind, out[i].row) {
      if j == |s.out| {
        assert out[i] in s.out && e in s.pending;
      }
    }
  }

  /** A pass never costs the order, at whatever pace it dispatches. */
  lemma {:induction false} PassKeepsOrder(s: Symbol, force: bool, now: nat)
    requires Sequencer.Inv(s) && Ordered(s)
    ensures Ordered(Step(s, Process(force, now)))
    decreases |s.pending|
  {
    if s.pending != [] && Ready(s, s.pending[0], force, now) {
      hide Ready, Ordered, Sequencer.Inv;
      DispatchKeepsOrder(s);
      PassKeepsOrder(s.(pending := s.pending[1..], out := s.out + [s.pending[0]]), force, now);
    }
  }

  /** And an order that is lost shows: once everything is dispatched, it is in event order only if it was kept. */
  lemma OrderShowsIff(s: Symbol, now: nat)
    requires Sequencer.Inv(s)
    ensures InEventOrder(Step(s, Process(true, now)).out) <==> Ordered(s)
  {
    ForcedDrain(s, now);
    hide Drain, ComesFirst;
    var all := s.out + s.pending;
    if Ordered(s) {
      PassKeepsOrder(s, true, now);
    }
    if InEventOrder(all) {
      forall i, j | 0 <= i < j < |s.out| ensures !ComesFirst(s.out[j].kind, s.out[j].row, s.out[i].kind, s.out[i].row) {
        assert all[i] == s.out[i] && all[j] == s.out[j];
      }
      forall e, p | e in s.out && p in s.pending ensures !ComesFirst(p.kind, p.row, e.kind, e.row) {
        var i :| 0 <= i < |s.out| && s.out[i] == e;
        var j :| 0 <= j < |s.pending| && s.pending[j] == p;
        assert all[i] == e && all[|s.out| + j] == p;
      }
    }
  }

  // ----- a second is too much

  const FIRST := Row(1_000_000_000, 0, 100, 1, Buy)
  const NEXT := Row(2_000_000_000, 0, 101, 1, Buy)

  const LATE: seq<Op> :=
    [LevelBatch([FIRST], 1), LevelBatch([NEXT], 2), Process(false, 0), TradeBatch([FIRST], 3, true), Process(false, 0)]

  const LEVEL := Event(Level, FIRST, 0, 1, true)
  const NEWER := Event(Level, NEXT, 1, 2, true)
  const TRADE := Event(Trade, FIRST, 2, 3, true)

  lemma QueuesOne(s: Symbol, op: Op, row: Row)
    requires (op.LevelBatch? || op.TradeBatch?) && op.rows == [row]
    ensures Step(s, op) == if op.LevelBatch? then Push(s, Level, row, op.seqNum, true) else Push(s, Trade, row, op.seqNum, op.firstIsOurs)
  {
    var kind, marked := if op.LevelBatch? then Level else Trade, if op.LevelBatch? then true else op.firstIsOurs;
    assert Reversed([row]) == [row] && [row][1..] == [];
    var t := Push(s, kind, row, op.seqNum, marked);
    assert PushAll(t, kind, [], op.seqNum, false) == t;
    assert PushAll(s, kind, [row], op.seqNum, marked) == PushAll(t, kind, [row][1..], op.seqNum, false);
  }

  /** A pass over a queue whose first event is due and whose second is not. */
  lemma DispatchesOne(s: Symbol, a: Event, b: Event)
    requires s.pending == [a, b] && Timely(s.pending)
    requires Due(s.lastEventTime, a, 0) && !Due(s.lastEventTime, b, 0) && b.row.received == 0
    ensures Step(s, Process(false, 0)) == s.(pending := [b], out := s.out + [a])
  {
    var u := s.(pending := [b], out := s.out + [a]);
    assert s.pending[1..] == [b];
    FrontReady(s, 0);
    FrontReady(u, 0);
    assert Drain(u, false, 0) == u;
    assert Drain(s, false, 0) == Drain(u, false, 0);
  }

  lemma RunOne(s: Symbol, op: Op, rest: seq<Op>)
    ensures Run(s, [op] + rest) == Run(Step(s, op), rest)
    ensures Run(s, []) == s
  {
    assert ([op] + rest)[1..] == rest;
  }

  lemma LateQueue()
    ensures Run(START, LATE[..2]) == Symbol([LEVEL, NEWER], 2_000_000_000, 2, [])
  {
    var one := Symbol([LEVEL], 1_000_000_000, 1, []);
    QueuesOne(START, LATE[0], FIRST);
    QueuesOne(one, LATE[1], NEXT);
    assert [LEVEL][1..] == [];
    assert Step(START, LATE[0]) == one;
    RunOne(START, LATE[0], [LATE[1]]);
    RunOne(one, LATE[1], []);
    assert LATE[..2] == [LATE[0]] + [LATE[1]] && [LATE[1]] + [] == [LATE[1]];
  }

  lemma LateTrade()
    ensures var s := Symbol([LEVEL, NEWER], 2_000_000_000, 2, []);
            Run(s, LATE[2..]) == Symbol([NEWER], 2_000_000_000, 3, [LEVEL, TRADE])
  {
    var s, t := Symbol([LEVEL, NEWER], 2_000_000_000, 2, []), Symbol([NEWER], 2_000_000_000, 2, [LEVEL]);
    DispatchesOne(s, LEVEL, NEWER);
    assert [] + [LEVEL] == [LEVEL];
    QueuesOne(t, LATE[3], FIRST);
    var u := Symbol([TRADE, NEWER], 2_000_000_000, 3, [LEVEL]);
    assert Push(t, Trade, FIRST, 3, true) == u;
    DispatchesOne(u, TRADE, NEWER);
    assert [LEVEL] + [TRADE] == [LEVEL, TRADE];
    hide Step;
    RunOne(s, LATE[2], [LATE[3], LATE[4]]);
    RunOne(t, LATE[3], [LATE[4]]);
    RunOne(u, LATE[4], []);
    assert LATE[2..] == [LATE[2]] + [LATE[3], LATE[4]] && [LATE[3], LATE[4]] == [LATE[3]] + [LATE[4]] && [LATE[4]] + [] == [LATE[4]];
  }

  lemma {:induction false} RunJoin(s: Symbol, a: seq<Op>, b: seq<Op>)
    ensures Run(s, a + b) == Run(Run(s, a), b)
    decreases |a|
  {
    if a == [] {
      assert a + b == b;
    } else {
      RunJoin(Step(s, a[0]), a[1..], b);
      assert (a + b)[1..] == a[1..] + b;
    }
  }

  /** A trade that comes exactly one second behind the newest event is dispatched after the level update of its instant. */
  lemma ASecondIsTooLate()
    ensures Run(START, LATE).out == [LEVEL, TRADE] && !InEventOrder(Run(START, LATE).out) && !Paced(LATE)
  {
    LateQueue();
    LateTrade();
    RunJoin(START, LATE[..2], LATE[2..]);
    assert LATE[..2] + LATE[2..] == LATE;
    hide Run, Paced;
    var out := Run(START, LATE).out;
    assert ComesFirst(out[1].kind, out[1].row, out[0].kind, out[0].row);
    if Paced(LATE) {
      DispatchedInEventOrder(LATE);
    }
  }
}
