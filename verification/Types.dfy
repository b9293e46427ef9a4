// Orders, trades and the fixed-width integers of the repository.
module Types {

  type u32 = x: int | 0 <= x < 0x1_0000_0000
  type u64 = x: int | 0 <= x < 0x1_0000_0000_0000_0000

  datatype Option<+T> = None | Some(value: T)

  datatype Direction = Bid | Ask

  datatype OrderType = Limit | CounterBest | ClientBest | BestFive | FAK | FOK

  datatype Order = Order(dir: Direction, typ: OrderType, price: u32, volume: u32)

  // Order::operator==: the price only counts for limit orders.
  predicate SameOrder(a: Order, b: Order) {
    && a.dir == b.dir
    && a.typ == b.typ
    && (a.typ == Limit ==> a.price == b.price)
    && a.volume == b.volume
  }

  datatype Trade = Trade(bidId: nat, askId: nat, price: nat, volume: nat)

  function Opposite(dir: Direction): Direction {
    if dir == Bid then Ask else Bid
  }

  function Min(a: int, b: int): int {
    if a <= b then a else b
  }
}
