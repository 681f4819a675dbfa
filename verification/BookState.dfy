/**
 The order book as one value: both sides of the L3 book, the pool of live order records, the three
 lookup maps, the per-price index of phantom quantity, and the reports sent to clients.
 An order pointer is modelled by the order's unique internal id, and the pool maps it to the record.
 */
module BookState {
  import opened Types
  import opened Queue
  import opened Orders

  datatype Report =
    | Acked(id: nat)
    | Executed(id: nat, price: Price, qty: nat, leaves: nat, cum: nat, aggressor: bool)
    | Replaced(id: nat, price: Price, qty: nat, leaves: nat)
    | Cancelled(id: nat)

  datatype State = State(
    bids: seq<Resting>,
    asks: seq<Resting>,
    lastSeq: nat,
    pool: map<nat, Order>,
    orders: set<nat>,
    byClient: map<string, nat>,
    byOrderId: map<string, nat>,
    md: map<Price, int>,
    reports: seq<Report>)
  {
    function On(s: Side): seq<Resting> {
      if s == Buy then bids else asks
    }

    function WithSide(s: Side, q: seq<Resting>): State {
      if s == Buy then this.(bids := q) else this.(asks := q)
    }

    /** Phantom quantity recorded for a price; zero when the index has no entry. */
    function MdLevelQty(p: Price): int {
      if p in md then md[p] else 0
    }

    function Say(r: Report): State {
      this.(reports := reports + [r])
    }

    /** The book refuses a non-zero sequence below its last one. */
    predicate Refuses(seqNum: nat) {
      seqNum > 0 && seqNum < lastSeq
    }

    function Stamped(seqNum: nat): State {
      if seqNum > 0 then this.(lastSeq := seqNum) else this
    }
  }

  // ----- what the book tells its observer, and how the observer keeps the index

  function Bump(md: map<Price, int>, p: Price, qty: nat, delta: int): map<Price, int> {
    if p in md then md[p := md[p] + delta] else if qty > 0 then md[p := qty] else md
  }

  function OnOrderUpdate(s: State, id: nat, price: Price, oldPrice: Price, qty: nat, oldQty: nat): State {
    if id !in s.orders then
      if price != oldPrice then
        var md := if oldPrice in s.md then s.md[oldPrice := s.md[oldPrice] - oldQty] else s.md;
        s.(md := Bump(md, price, qty, qty))
      else s.(md := Bump(s.md, price, qty, qty - oldQty))
    else if qty == 0 && id in s.pool && s.pool[id].quantity != 0 then
      s.(pool := s.pool[id := s.pool[id].(leaves := 0)])
    else s
  }

  // ----- the L3 library's operations, with their notifications

  function L3Add(s: State, side: Side, x: Resting, seqNum: nat): State {
    if s.Refuses(seqNum) then s
    else OnOrderUpdate(s.WithSide(side, Insert(side, s.On(side), x)).Stamped(seqNum), x.id, x.price, 0, x.qty, 0)
  }

  /** Sets what rests of an order in place; zero removes it. */
  ghost function L3Resize(s: State, side: Side, id: nat, n: nat, seqNum: nat): State
    requires id in View(s.On(side))
  {
    if s.Refuses(seqNum) then s
    else
      var x := View(s.On(side))[id];
      OnOrderUpdate(s.WithSide(side, Resize(s.On(side), id, n)).Stamped(seqNum), id, x.price, x.price, n, x.qty)
  }

  /** Moves an order to a new price or priority, behind what is already there. */
  ghost function L3Move(s: State, side: Side, x: Resting): State
    requires x.id in View(s.On(side))
  {
    var was := View(s.On(side))[x.id];
    OnOrderUpdate(s.WithSide(side, Insert(side, Resize(s.On(side), x.id, 0), x)), x.id, x.price, was.price, x.qty, was.qty)
  }

  // ----- lookup maps

  function Register(s: State, id: nat): State
    requires id in s.pool
  {
    var o := s.pool[id];
    s.(orders := s.orders + {id},
       byClient := if o.clientOrderId != "" then s.byClient[o.clientOrderId := id] else s.byClient,
       byOrderId := if o.orderId != "" then s.byOrderId[o.orderId := id] else s.byOrderId)
  }

  function Unregister(s: State, id: nat): State
    requires id in s.pool
  {
    var o := s.pool[id];
    s.(orders := s.orders - {id},
       byClient := if o.clientOrderId != "" then s.byClient - {o.clientOrderId} else s.byClient,
       byOrderId := if o.orderId != "" then s.byOrderId - {o.orderId} else s.byOrderId)
  }

  function FreeOrder(s: State, id: nat): State {
    s.(pool := s.pool - {id})
  }

  // ----- the invariant

  ghost predicate QueuesOk(s: State) {
    && WellFormed(Buy, s.bids) && WellFormed(Sell, s.asks)
    && View(s.bids).Keys !! View(s.asks).Keys
  }

  /** Best bid below best ask; by the sorting, every bid below every ask. */
  ghost predicate Uncrossed(s: State) {
    forall i, j :: i in View(s.bids) && j in View(s.asks) ==> View(s.bids)[i].price < View(s.asks)[j].price
  }

  /** The index is exact: each price holds the resting quantity of orders that are not ours. */
  ghost predicate IndexOk(s: State) {
    forall p: Price :: s.MdLevelQty(p) == PhantomAt(s.bids, p, s.orders) + PhantomAt(s.asks, p, s.orders)
  }

  /** An own order rests on its side, at its price and priority, with its leaves, and its accounts balance. */
  ghost predicate RestsAsRecorded(s: State, id: nat) {
    && id in s.pool
    && var o := s.pool[id];
       && id in View(s.On(o.side))
       && View(s.On(o.side))[id] == Resting(id, o.price, o.leaves, o.priority)
       && o.cum + o.leaves == o.quantity
       && o.RestsRemainder()
  }

  ghost predicate LookupsOk(s: State) {
    && s.orders <= s.pool.Keys
    && (forall id :: id in s.orders && s.pool[id].clientOrderId != "" ==>
          s.pool[id].clientOrderId in s.byClient && s.byClient[s.pool[id].clientOrderId] == id)
    && (forall c :: c in s.byClient ==>
          c != "" && s.byClient[c] in s.orders && s.pool[s.byClient[c]].clientOrderId == c)
    && (forall id :: id in s.orders && s.pool[id].orderId != "" ==>
          s.pool[id].orderId in s.byOrderId && s.byOrderId[s.pool[id].orderId] == id)
    && (forall c :: c in s.byOrderId ==>
          c != "" && s.byOrderId[c] in s.orders && s.pool[s.byOrderId[c]].orderId == c)
  }

  /**
   The invariant while the orders in `ex` are being worked on: they are live in the pool but need
   not rest as recorded. With `ex` empty it is the invariant between requests.
   */
  ghost predicate Inv(s: State, ex: set<nat>) {
    && QueuesOk(s)
    && Uncrossed(s)
    && IndexOk(s)
    && LookupsOk(s)
    && s.pool.Keys == s.orders + ex
    && (forall id :: id in s.orders && id !in ex ==> RestsAsRecorded(s, id))
  }

  /** An id no order of either kind is using. */
  ghost predicate Unused(s: State, id: nat) {
    id !in s.pool && id !in View(s.bids) && id !in View(s.asks)
  }

  const EMPTY: State := State([], [], 0, map[], {}, map[], map[], map[], [])

  lemma EmptyInv()
    ensures Inv(EMPTY, {})
  {
  }
}
