/** The simulator's own order record and its fill accounting. */
module Orders {
  import opened Types

  datatype TimeInForce = Day | GoodTillCancel | GoodTillDate | ImmediateOrCancel | FillOrKill | AtTheOpening | GoodTillCrossing

  datatype Status = PendingNew | PendingReplace | PendingCancel

  datatype Order = Order(
    side: Side,
    price: Price,
    quantity: nat,
    leaves: nat,
    cum: nat,
    cumValue: nat,
    avg: Price,
    clientId: int,
    clientOrderId: string,
    orderId: string,
    tif: TimeInForce,
    status: Status,
    priority: nat)
  {
    /** Does what matching leaves of it rest? A market order has no price to rest at. */
    predicate RestsRemainder() {
      price != NULL_PRICE && (tif == Day || tif == GoodTillCancel || tif == GoodTillDate)
    }
  }

  /** Two orders of one identified client. */
  predicate IsSelfMatch(incoming: Order, book: Order) {
    incoming.clientId != -1 && book.clientId != -1 && incoming.clientId == book.clientId
  }

  /** Books one fill. */
  function ExecuteOrder(o: Order, price: Price, qty: nat): Order
    requires 0 < qty <= o.leaves
  {
    var cum, value := o.cum + qty, o.cumValue + price * qty;
    o.(leaves := o.leaves - qty, cum := cum, cumValue := value, avg := value / cum)
  }

  /** Writes an accepted amendment onto the order. */
  function ApplyReplace(o: Order, price: Price, qty: nat): Order {
    o.(quantity := qty, price := price, leaves := if o.cum >= qty then 0 else qty - o.cum)
  }

  /** The leaves an amendment will have, computed before anything is written. */
  function PreviewLeaves(o: Order, qty: nat): nat {
    if o.status == PendingReplace then
      var effective := o.leaves + qty - o.quantity;
      if effective < 0 then 0 else effective
    else o.leaves
  }
}
