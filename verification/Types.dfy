/** Values shared by every order book, engine and validator of the repository. */
module Types {

  datatype Option<+T> = None | Some(value: T)

  datatype Result<+T, +E> = Ok(value: T) | Err(error: E)

  datatype Side = Buy | Sell

  datatype OrderType = Limit | Market

  datatype NewOrder = NewOrder(
    clientOrderId: string,
    symbol: string,
    side: Side,
    price: int,
    qty: int,
    tsNs: nat,
    orderType: OrderType)

  /** An order as a book holds it. Only `qty` changes while the order rests. */
  datatype Order = Order(
    orderId: string,
    side: Side,
    price: int,
    qty: int,
    tsNs: nat,
    insertSeq: nat)

  datatype Fill = Fill(buyOrderId: string, sellOrderId: string, price: int, qty: int)

  datatype OrderBookError = MissingOrderId | NonPositiveQuantity | NonPositiveLimitPrice

  function Min(a: int, b: int): (m: int)
    ensures m <= a && m <= b && (m == a || m == b)
  {
    if a < b then a else b
  }

  function Opposite(side: Side): Side {
    if side.Buy? then Sell else Buy
  }
}
