/**
 One session's client order ids: which working order holds each, and how many requests in flight
 have claimed it.
 */
module ClOrdIds {
  type Id = string

  datatype Entry = Entry(order: nat, claims: nat, held: bool)

  type Ids = map<Id, Entry>

  // ----- the index

  function Find(m: Ids, id: Id): nat {
    if id !in m || !m[id].held then 0 else m[id].order
  }

  /** A new order (`order` 0) needs a free id; a replace may share an id its own order or its own requests have. */
  predicate Claimable(m: Ids, id: Id, order: nat) {
    id in m ==> order != 0 && m[id].order == order
  }

  function Claim(m: Ids, id: Id, order: nat): Ids {
    if !Claimable(m, id, order) then m
    else if id in m then m[id := m[id].(claims := m[id].claims + 1)]
    else m[id := Entry(order, 1, false)]
  }

  function DropUnused(m: Ids, id: Id): Ids {
    if id in m && m[id].claims == 0 && !m[id].held then m - {id} else m
  }

  function Release(m: Ids, id: Id): Ids {
    if id !in m || m[id].claims == 0 then m else DropUnused(m[id := m[id].(claims := m[id].claims - 1)], id)
  }

  /** What `assign` asserts of its caller. */
  predicate Assignable(m: Ids, id: Id, order: nat) {
    order != 0 && (id in m && m[id].held ==> m[id].order == order)
  }

  function Assign(m: Ids, id: Id, order: nat): Ids {
    m[id := Entry(order, if id in m then m[id].claims else 0, true)]
  }

  function Forget(m: Ids, id: Id, order: nat): Ids {
    if id !in m || m[id].order != order then m else DropUnused(m[id := m[id].(held := false)], id)
  }

  function Rename(m: Ids, from: Id, to: Id, order: nat): Ids {
    Assign(Forget(m, from, order), to, order)
  }

  class ClOrdIdIndex {
    var ids: Ids

    constructor ()
      ensures ids == map[]
    {
      ids := map[];
    }

    method FindOrder(id: Id) returns (order: nat)
      ensures order == Find(ids, id)
    {
      order := if id !in ids || !ids[id].held then 0 else ids[id].order;
    }

    method ClaimId(id: Id, order: nat) returns (ok: bool)
      modifies this
      ensures ok == Claimable(old(ids), id, order)
      ensures ids == Claim(old(ids), id, order)
    {
      var inserted := id !in ids;
      if inserted {
        ids := ids[id := Entry(order, 0, false)];
      }
      if !inserted && (order == 0 || ids[id].order != order) {
        return false;
      }
      ids := ids[id := ids[id].(claims := ids[id].claims + 1)];
      return true;
    }

    method EraseIfUnused(id: Id)
      requires id in ids
      modifies this
      ensures ids == DropUnused(old(ids), id)
    {
      if ids[id].claims == 0 && !ids[id].held {
        ids := ids - {id};
      }
    }

    method ReleaseId(id: Id)
      modifies this
      ensures ids == Release(old(ids), id)
    {
      if id in ids && ids[id].claims > 0 {
        ids := ids[id := ids[id].(claims := ids[id].claims - 1)];
        EraseIfUnused(id);
      }
    }

    method AssignId(id: Id, order: nat)
      requires Assignable(ids, id, order)
      modifies this
      ensures ids == Assign(old(ids), id, order)
    {
      if id !in ids {
        ids := ids[id := Entry(0, 0, false)];
      }
      ids := ids[id := ids[id].(order := order)];
      ids := ids[id := ids[id].(held := true)];
    }

    method ForgetId(id: Id, order: nat)
      modifies this
      ensures ids == Forget(old(ids), id, order)
    {
      if id in ids && ids[id].order == order {
        ids := ids[id := ids[id].(held := false)];
        EraseIfUnused(id);
      }
    }

    method RenameId(from: Id, to: Id, order: nat)
      requires Assignable(Forget(ids, from, order), to, order)
      modifies this
      ensures ids == Rename(old(ids), from, to, order)
    {
      ForgetId(from, order);
      AssignId(to, order);
    }
  }

  // ----- a session: requests in flight and working orders

  /** `order` is 0 for a new order and the order to replace otherwise. */
  datatype Request = Request(id: Id, order: nat)

  datatype Session = Session(ids: Ids, working: map<nat, Id>, inflight: map<nat, Request>)

  datatype Event =
    | Send(request: nat, id: Id, order: nat)
    | AcceptNew(request: nat, order: nat)
    | AcceptReplace(request: nat)
    | Reject(request: nat)
    | Done(order: nat)

  /** The exchange answers requests in flight, numbers new orders afresh and replaces only working orders. */
  predicate Admissible(s: Session, e: Event) {
    match e
    case Send(r, _, _) => r !in s.inflight
    case AcceptNew(r, o) => r in s.inflight && s.inflight[r].order == 0 && o != 0 && o !in s.working
    case AcceptReplace(r) => r in s.inflight && s.inflight[r].order in s.working
    case Reject(r) => r in s.inflight
    case Done(o) => o in s.working
  }

  function Step(s: Session, e: Event): Session
    requires Admissible(s, e)
  {
    match e
    case Send(r, id, o) =>
      Session(Claim(s.ids, id, o), s.working,
              if Claimable(s.ids, id, o) then s.inflight[r := Request(id, o)] else s.inflight)
    case AcceptNew(r, o) =>
      var id := s.inflight[r].id;
      Session(Release(Assign(s.ids, id, o), id), s.working[o := id], s.inflight - {r})
    case AcceptReplace(r) =>
      var q := s.inflight[r];
      Session(Release(Rename(s.ids, s.working[q.order], q.id, q.order), q.id), s.working[q.order := q.id], s.inflight - {r})
    case Reject(r) =>
      Session(Release(s.ids, s.inflight[r].id), s.working, s.inflight - {r})
    case Done(o) =>
      Session(Forget(s.ids, s.working[o], o), s.working - {o}, s.inflight)
  }

  /** The assertion inside `assign` at the point where the step reaches it. */
  predicate AssignHolds(s: Session, e: Event)
    requires Admissible(s, e)
  {
    match e
    case AcceptNew(r, o) => Assignable(s.ids, s.inflight[r].id, o)
    case AcceptReplace(r) =>
      var q := s.inflight[r];
      Assignable(Forget(s.ids, s.working[q.order], q.order), q.id, q.order)
    case _ => true
  }

  // ----- what the index promises

  ghost function Naming(f: map<nat, Request>, id: Id): set<nat> {
    set r | r in f && f[r].id == id
  }

  ghost predicate HeldBy(w: map<nat, Id>, id: Id, o: nat) {
    o in w && w[o] == id
  }

  ghost predicate IsHeld(w: map<nat, Id>, id: Id) {
    exists o :: HeldBy(w, id, o)
  }

  /** An id's entry says who holds it and counts the requests naming it; without either there is no entry. */
  ghost predicate EntryOk(s: Session, id: Id) {
    if id in s.ids then
      && s.ids[id].claims == |Naming(s.inflight, id)|
      && (s.ids[id].held <==> IsHeld(s.working, id))
      && (s.ids[id].held || s.ids[id].claims > 0)
    else
      !IsHeld(s.working, id) && Naming(s.inflight, id) == {}
  }

  ghost predicate RequestOk(s: Session, r: nat)
    requires r in s.inflight
  {
    var q := s.inflight[r];
    && q.id in s.ids && s.ids[q.id].order == q.order
    && (q.order == 0 ==> Naming(s.inflight, q.id) == {r})
  }

  ghost predicate Inv(s: Session) {
    && 0 !in s.working
    && (forall id :: EntryOk(s, id))
    && (forall o :: o in s.working ==> s.working[o] in s.ids && s.ids[s.working[o]].order == o)
    && (forall r :: r in s.inflight ==> RequestOk(s, r))
  }

  /** At most one working order holds an id, and `find` answers exactly that order. */
  lemma FindIsTheHolder(s: Session, id: Id)
    requires Inv(s)
    ensures forall o, p :: HeldBy(s.working, id, o) && HeldBy(s.working, id, p) ==> o == p
    ensures forall o :: o != 0 ==> (Find(s.ids, id) == o <==> HeldBy(s.working, id, o))
    ensures Find(s.ids, id) == 0 <==> !IsHeld(s.working, id)
  {
    assert EntryOk(s, id);
  }

  /** A claim is refused exactly when another order, or a request for one, has the id. */
  lemma ClaimExact(s: Session, id: Id, order: nat)
    requires Inv(s)
    ensures Claimable(s.ids, id, order) <==>
            && (forall o :: HeldBy(s.working, id, o) ==> o == order)
            && (forall r :: r in s.inflight && s.inflight[r].id == id ==> order != 0 && s.inflight[r].order == order)
  {
    assert EntryOk(s, id);
    forall r | r in s.inflight && s.inflight[r].id == id ensures RequestOk(s, r) {
    }
    if id in s.ids {
      if s.ids[id].held {
        var o :| HeldBy(s.working, id, o);
      } else {
        var r :| r in Naming(s.inflight, id);
        assert s.inflight[r].id == id;
      }
    }
  }

  /**
   What each event means for lookups. An accepted new order is found under its id, a replaced one under its
   new id and no longer under its old one, a finished one not at all; a request sent or turned back moves no
   lookup. No event touches any other id.
   */
  lemma EventMeans(s: Session, e: Event, i: Id)
    requires Inv(s) && Admissible(s, e)
    ensures Find(Step(s, e).ids, i) ==
            match e
            case AcceptNew(r, o) => if i == s.inflight[r].id then o else Find(s.ids, i)
            case AcceptReplace(r) =>
              var q := s.inflight[r];
              if i == q.id then q.order else if i == s.working[q.order] then 0 else Find(s.ids, i)
            case Done(o) => if i == s.working[o] then 0 else Find(s.ids, i)
            case _ => Find(s.ids, i)
  {
    assert EntryOk(s, i);
    match e {
      case AcceptNew(r, o) => assert RequestOk(s, r);
      case AcceptReplace(r) => assert RequestOk(s, r);
      case Reject(r) => assert RequestOk(s, r);
      case _ =>
    }
  }

  // ----- how the requests naming an id change

  lemma NamingAdd(f: map<nat, Request>, r: nat, q: Request, id: Id)
    requires r !in f
    ensures Naming(f[r := q], id) == Naming(f, id) + if q.id == id then {r} else {}
    ensures r !in Naming(f, id)
  {
  }

  lemma NamingDrop(f: map<nat, Request>, r: nat, id: Id)
    requires r in f
    ensures Naming(f - {r}, id) == Naming(f, id) - if f[r].id == id then {r} else {}
    ensures f[r].id == id ==> r in Naming(f, id)
  {
  }

  ghost predicate OneHolder(w: map<nat, Id>) {
    forall o, p :: o in w && p in w && w[o] == w[p] ==> o == p
  }

  lemma HeldAfterDrop(w: map<nat, Id>, o: nat, id: Id)
    requires OneHolder(w) && o in w
    ensures IsHeld(w - {o}, id) <==> id != w[o] && IsHeld(w, id)
  {
    if id != w[o] && IsHeld(w, id) {
      var p :| HeldBy(w, id, p);
      assert HeldBy(w - {o}, id, p);
    }
    if IsHeld(w - {o}, id) {
      var p :| HeldBy(w - {o}, id, p);
      assert HeldBy(w, id, p);
    }
  }

  lemma HeldAfterSet(w: map<nat, Id>, o: nat, to: Id, id: Id)
    requires OneHolder(w)
    ensures IsHeld(w[o := to], id) <==> id == to || (IsHeld(w, id) && (o in w ==> id != w[o]))
  {
    var v := w[o := to];
    assert HeldBy(v, to, o);
    if IsHeld(w, id) && (o in w ==> id != w[o]) {
      var p :| HeldBy(w, id, p);
      assert HeldBy(v, id, p);
    }
    if id != to && IsHeld(v, id) {
      var p :| HeldBy(v, id, p);
      assert HeldBy(w, id, p);
    }
  }

  lemma ClaimedIsPresent(s: Session, r: nat)
    requires r in s.inflight && EntryOk(s, s.inflight[r].id)
    ensures s.inflight[r].id in s.ids
  {
    assert r in Naming(s.inflight, s.inflight[r].id);
  }

  lemma SendEntry(s: Session, r: nat, id: Id, order: nat, i: Id)
    requires r !in s.inflight && Claimable(s.ids, id, order) && EntryOk(s, i)
    ensures EntryOk(Step(s, Send(r, id, order)), i)
  {
    hide IsHeld, Naming;
    NamingAdd(s.inflight, r, Request(id, order), i);
  }

  lemma SendRequest(s: Session, r: nat, id: Id, order: nat, x: nat)
    requires r !in s.inflight && Claimable(s.ids, id, order) && EntryOk(s, id)
    requires x == r || (x in s.inflight && RequestOk(s, x))
    ensures RequestOk(Step(s, Send(r, id, order)), x)
  {
    hide IsHeld, Naming;
    var t := Step(s, Send(r, id, order));
    NamingAdd(s.inflight, r, Request(id, order), t.inflight[x].id);
  }

  lemma SendKeeps(s: Session, r: nat, id: Id, order: nat)
    requires Inv(s) && r !in s.inflight
    ensures Inv(Step(s, Send(r, id, order)))
  {
    hide RequestOk, EntryOk;
    var t := Step(s, Send(r, id, order));
    if Claimable(s.ids, id, order) {
      forall i ensures EntryOk(t, i) {
        SendEntry(s, r, id, order, i);
      }
      forall x | x in t.inflight ensures RequestOk(t, x) {
        SendRequest(s, r, id, order, x);
      }
    }
  }

  lemma RejectEntry(s: Session, r: nat, i: Id)
    requires r in s.inflight && EntryOk(s, s.inflight[r].id) && EntryOk(s, i)
    ensures EntryOk(Step(s, Reject(r)), i)
  {
    hide IsHeld, Naming;
    NamingDrop(s.inflight, r, i);
  }

  lemma RejectRequest(s: Session, r: nat, x: nat)
    requires r in s.inflight && x in s.inflight && x != r
    requires EntryOk(s, s.inflight[r].id) && EntryOk(s, s.inflight[x].id) && RequestOk(s, x)
    ensures RequestOk(Step(s, Reject(r)), x)
  {
    hide IsHeld, Naming;
    NamingDrop(s.inflight, r, s.inflight[x].id);
    RejectEntry(s, r, s.inflight[x].id);
    ClaimedIsPresent(Step(s, Reject(r)), x);
  }

  lemma RejectKeeps(s: Session, r: nat)
    requires Inv(s) && r in s.inflight
    ensures Inv(Step(s, Reject(r)))
  {
    var t := Step(s, Reject(r));
    forall o | o in t.working ensures t.working[o] in t.ids && t.ids[t.working[o]].order == o {
      assert EntryOk(s, t.working[o]);
      assert HeldBy(s.working, t.working[o], o);
    }
    hide EntryOk, RequestOk, Release;
    forall i ensures EntryOk(t, i) {
      RejectEntry(s, r, i);
    }
    forall x | x in t.inflight ensures RequestOk(t, x) {
      RejectRequest(s, r, x);
    }
  }

  lemma DoneKeeps(s: Session, o: nat)
    requires Inv(s) && o in s.working
    ensures Inv(Step(s, Done(o)))
  {
    var t := Step(s, Done(o));
    assert OneHolder(s.working);
    forall i ensures EntryOk(t, i) {
      assert EntryOk(s, i);
      HeldAfterDrop(s.working, o, i);
    }
    forall x | x in t.inflight ensures RequestOk(t, x) {
      assert RequestOk(s, x);
      ClaimedIsPresent(t, x);
    }
    forall p | p in t.working ensures t.working[p] in t.ids && t.ids[t.working[p]].order == p {
      assert HeldBy(t.working, t.working[p], p);
      assert EntryOk(t, t.working[p]);
    }
  }

  lemma AcceptNewKeeps(s: Session, r: nat, o: nat)
    requires Inv(s) && Admissible(s, AcceptNew(r, o))
    ensures Inv(Step(s, AcceptNew(r, o))) && AssignHolds(s, AcceptNew(r, o))
  {
    var t := Step(s, AcceptNew(r, o));
    var id := s.inflight[r].id;
    assert RequestOk(s, r) && EntryOk(s, id);
    assert OneHolder(s.working);
    FindIsTheHolder(s, id);
    forall i ensures EntryOk(t, i) {
      assert EntryOk(s, i);
      NamingDrop(s.inflight, r, i);
      HeldAfterSet(s.working, o, id, i);
    }
    forall x | x in t.inflight ensures RequestOk(t, x) {
      assert RequestOk(s, x);
      NamingDrop(s.inflight, r, t.inflight[x].id);
      assert x in Naming(s.inflight, t.inflight[x].id);
    }
    forall p | p in t.working ensures t.working[p] in t.ids && t.ids[t.working[p]].order == p {
      if p != o {
        assert HeldBy(s.working, s.working[p], p);
      }
    }
  }

  /** The accepted replace takes its claim off `id`, moves the hold there and changes nothing else. */
  lemma ReplaceWrites(m: Ids, from: Id, id: Id, o: nat)
    requires o != 0 && id in m && m[id].order == o && m[id].claims > 0
    requires from in m && m[from].order == o
    ensures Assignable(Forget(m, from, o), id, o)
    ensures var n := Release(Rename(m, from, id, o), id);
            && id in n && n[id] == Entry(o, m[id].claims - 1, true)
            && (from != id ==>
                  if m[from].claims == 0 then from !in n
                  else from in n && n[from] == Entry(o, m[from].claims, false))
            && (forall i :: i != id && i != from ==> (i in n <==> i in m) && (i in m ==> n[i] == m[i]))
  {
  }

  /** What the step needs of the request being accepted. */
  ghost predicate Replaceable(s: Session, r: nat) {
    && r in s.inflight && s.inflight[r].order in s.working && OneHolder(s.working)
    && var q := s.inflight[r];
    && q.order != 0 && q.id in s.ids && s.ids[q.id].order == q.order && s.ids[q.id].claims > 0
    && s.working[q.order] in s.ids && s.ids[s.working[q.order]].order == q.order
  }

  lemma ReplaceEntry(s: Session, r: nat, i: Id)
    requires Replaceable(s, r) && EntryOk(s, i)
    ensures EntryOk(Step(s, AcceptReplace(r)), i)
  {
    hide Release, Rename, IsHeld, Naming, OneHolder;
    var q := s.inflight[r];
    ReplaceWrites(s.ids, s.working[q.order], q.id, q.order);
    NamingDrop(s.inflight, r, i);
    HeldAfterSet(s.working, q.order, q.id, i);
  }

  lemma ReplaceRequest(s: Session, r: nat, x: nat)
    requires Replaceable(s, r) && x in s.inflight && x != r && RequestOk(s, x)
    requires EntryOk(s, s.inflight[x].id)
    ensures RequestOk(Step(s, AcceptReplace(r)), x)
  {
    hide Release, Rename, IsHeld, Naming, EntryOk, OneHolder;
    var q := s.inflight[r];
    ReplaceWrites(s.ids, s.working[q.order], q.id, q.order);
    NamingDrop(s.inflight, r, s.inflight[x].id);
    ReplaceEntry(s, r, s.inflight[x].id);
    ClaimedIsPresent(Step(s, AcceptReplace(r)), x);
  }

  lemma AcceptReplaceKeeps(s: Session, r: nat)
    requires Inv(s) && Admissible(s, AcceptReplace(r))
    ensures Inv(Step(s, AcceptReplace(r))) && AssignHolds(s, AcceptReplace(r))
  {
    var t := Step(s, AcceptReplace(r));
    var q := s.inflight[r];
    assert Replaceable(s, r) by {
      assert RequestOk(s, r) && EntryOk(s, q.id);
      NamingDrop(s.inflight, r, q.id);
    }
    hide Release, Rename, EntryOk, RequestOk, OneHolder;
    ReplaceWrites(s.ids, s.working[q.order], q.id, q.order);
    forall i ensures EntryOk(t, i) {
      ReplaceEntry(s, r, i);
    }
    forall x | x in t.inflight ensures RequestOk(t, x) {
      ReplaceRequest(s, r, x);
    }
  }

  lemma StepKeeps(s: Session, e: Event)
    requires Inv(s) && Admissible(s, e)
    ensures Inv(Step(s, e)) && AssignHolds(s, e)
  {
    match e
    case Send(r, id, o) => SendKeeps(s, r, id, o);
    case AcceptNew(r, o) => AcceptNewKeeps(s, r, o);
    case AcceptReplace(r) => AcceptReplaceKeeps(s, r);
    case Reject(r) => RejectKeeps(s, r);
    case Done(o) => DoneKeeps(s, o);
  }

  // ----- runs

  const START := Session(map[], map[], map[])

  ghost predicate IsRun(s: Session, es: seq<Event>, t: Session)
    decreases |es|
  {
    if es == [] then s == t else Admissible(s, es[0]) && IsRun(Step(s, es[0]), es[1..], t)
  }

  lemma {:induction false} RunKeeps(s: Session, es: seq<Event>, t: Session)
    requires Inv(s) && IsRun(s, es, t)
    ensures Inv(t)
    decreases |es|
  {
    if es != [] {
      StepKeeps(s, es[0]);
      RunKeeps(Step(s, es[0]), es[1..], t);
    }
  }

  /**
   In every session, however its replaces overlap: each entry counts the requests naming its id, an
   entry exists only while its id is held or claimed, `find` answers the one holder, and no step
   trips the assertion in `assign`.
   */
  lemma SessionSafety(es: seq<Event>, t: Session, e: Event)
    requires IsRun(START, es, t) && Admissible(t, e)
    ensures forall id :: EntryOk(t, id)
    ensures forall o, p :: o in t.working && p in t.working && t.working[o] == t.working[p] ==> o == p
    ensures forall o :: o in t.working ==> Find(t.ids, t.working[o]) == o
    ensures AssignHolds(t, e)
  {
    RunKeeps(START, es, t);
    StepKeeps(t, e);
    forall o | o in t.working ensures Find(t.ids, t.working[o]) == o {
      FindIsTheHolder(t, t.working[o]);
      assert HeldBy(t.working, t.working[o], o);
    }
  }
}
