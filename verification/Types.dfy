/** Scalar widths, enumerations and the plain records every component shares. */
module Types {
  import opened Bits

  type U8 = x: int | 0 <= x < 0x100
  type U32 = x: int | 0 <= x < 0x1_0000_0000
  type U64 = x: int | 0 <= x < 0x1_0000_0000_0000_0000
  type I64 = x: int | -0x8000_0000_0000_0000 <= x < 0x8000_0000_0000_0000

  type Price = I64
  type OrderId = U64
  type TraderId = U64
  type SymbolId = U32
  type Quantity = U64
  type SequenceNumber = U64
  type Timestamp = U64

  const INVALID_ORDER_ID: OrderId := 0

  /** Two of these wrap to 0. */
  const HALF: U64 := 0x8000_0000_0000_0000

  /** The value an unsigned 64-bit register holds after arithmetic whose exact result is `x`. */
  function Wrap64(x: int): U64 {
    x % 0x1_0000_0000_0000_0000
  }

  datatype Option<+T> = None | Some(value: T) {
    predicate IsFailure() { None? }
    function PropagateFailure<U>(): Option<U> requires None? { None }
    function Extract(): T requires Some? { value }
  }

  datatype Side = Buy | Sell

  function Opposite(s: Side): Side {
    if s == Buy then Sell else Buy
  }

  datatype OrderType = Limit | Market

  datatype TimeInForce = GoodTillCancel | ImmediateOrCancel | FillOrKill

  datatype OrderStatus = New | PartiallyFilled | Filled | Cancelled | Rejected

  datatype RejectReason =
    | NoReason | InvalidSymbol | InvalidPrice | InvalidQuantity | UnknownOrder
    | DuplicateOrderId | MarketOrderNoLiquidity | FillOrKillNotFilled
    | SelfMatchPrevented | PoolExhausted

  datatype Order = Order(
    id: OrderId, trader: TraderId, symbol: SymbolId, seqNo: SequenceNumber, timestamp: Timestamp,
    price: Price, quantity: Quantity, remaining: Quantity,
    side: Side, otype: OrderType, tif: TimeInForce, status: OrderStatus)

  datatype Trade = Trade(
    seqNo: SequenceNumber, timestamp: Timestamp, symbol: SymbolId,
    aggressor: OrderId, resting: OrderId, aggressorTrader: TraderId, restingTrader: TraderId,
    aggressorSide: Side, price: Price, quantity: Quantity)

  function Min(x: U64, y: U64): U64 {
    if y < x then y else x
  }

  lemma Associate<T>(a: seq<T>, b: seq<T>, c: seq<T>)
    ensures a + (b + c) == a + b + c
  {
  }

  /** Adding or subtracting before or after a wrap gives the same register value. */
  lemma WrapAdd(a: int, b: int)
    ensures Wrap64(Wrap64(a) + b) == Wrap64(a + b)
    ensures Wrap64(Wrap64(a) - b) == Wrap64(a - b)
    ensures Wrap64(a + Wrap64(b)) == Wrap64(a + b)
  {
    WrapWithin(a, b);
    WrapWithin(a, -b);
    WrapWithin(b, a);
  }

  lemma WrapWithin(a: int, b: int)
    ensures Wrap64(Wrap64(a) + b) == Wrap64(a + b)
  {
    var m := 0x1_0000_0000_0000_0000;
    var t := a % m + b;
    assert a == m * (a / m) + a % m && t == m * (t / m) + t % m;
    DivModUnique(a + b, m, a / m + t / m, t % m);
  }
}
