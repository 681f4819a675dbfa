/** Sides, prices and the records that the matching core moves around. */
module Types {
  datatype Option<+T> = None | Some(value: T)

  datatype Side = Buy | Sell

  function Opposite(s: Side): Side {
    if s == Buy then Sell else Buy
  }

  /** Fixed-point prices and quantities; both are non-negative wherever they are accumulated. */
  type Price = nat

  /** The largest 64-bit price stands for "no price": a market order. */
  const NULL_PRICE: Price := 0x7FFF_FFFF_FFFF_FFFF

  function Min(a: int, b: int): int {
    if a <= b then a else b
  }

  predicate IsPriceBetter(s: Side, a: Price, b: Price) {
    if s == Buy then a > b else a < b
  }

  predicate IsPriceBetterOrEqual(s: Side, a: Price, b: Price) {
    if s == Buy then a >= b else a <= b
  }

  /** May an aggressor limited at `limit` trade with an order resting on side `s` at `level`? */
  predicate Crosses(s: Side, level: Price, limit: Price) {
    limit == NULL_PRICE || IsPriceBetterOrEqual(s, level, limit)
  }

  /** One order as the L3 book holds it. */
  datatype Resting = Resting(id: nat, price: Price, qty: nat, priority: nat)

  datatype SmpMode = SmpNone | CancelResting | CancelNewest

  lemma Regroup<T>(a: seq<T>, b: seq<T>, c: seq<T>)
    ensures (a + b) + c == a + (b + c)
  {
  }
}
