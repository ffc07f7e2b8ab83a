/** Values shared by the order store, the statistics engine and the FIX client:
    the side codes of FIX tag 54, fills, trade records and per-symbol positions. */
module Trading {

  datatype Option<T> = None | Some(value: T)

  type Symbol = string
  type ClOrdId = string

  /** A side is the one-character code of FIX tag 54 (Side), as the FIX engine hands it over. */
  type Side = char

  const SIDE_BUY: Side := '1'
  const SIDE_SELL: Side := '2'
  const SIDE_SELL_SHORT: Side := '5'

  /** +1 for a buy, -1 for a sell or a short sell, 0 for any other side code:
      the direction in which a trade moves a net position. */
  function SideSign(side: Side): (r: int)
    ensures r == 1 <==> side == SIDE_BUY
    ensures r == -1 <==> side == SIDE_SELL || side == SIDE_SELL_SHORT
    ensures -1 <= r <= 1
  {
    if side == SIDE_BUY then 1
    else if side == SIDE_SELL || side == SIDE_SELL_SHORT then -1
    else 0
  }

  /** One execution against an order: the LastPx and LastQty of a fill report. */
  datatype Fill = Fill(price: real, quantity: int)

  /** One record of the trade history; appended once per applied fill and never changed. */
  datatype Trade = Trade(symbol: Symbol, price: real, quantity: int, side: Side)

  /** An order as the order store keeps it: what the NEW acknowledgement reported,
      plus the fills received so far and their total. */
  datatype Order = Order(
    symbol: Symbol,
    side: Side,
    quantity: int,
    price: real,
    fills: seq<Fill>,
    filledQuantity: int)

  /** Net position of one symbol, its signed cost, and the derived average price
      (None when the position is flat). */
  datatype Position = Position(position: int, totalCost: real, avgPrice: Option<real>)

  function Notional(price: real, quantity: int): real {
    price * quantity as real
  }

  function Abs(x: real): real {
    if x < 0.0 then -x else x
  }

  /** Total quantity of a sequence of fills, summed from the front. */
  function FillSum(fills: seq<Fill>): int {
    if fills == [] then 0 else FillSum(fills[..|fills| - 1]) + fills[|fills| - 1].quantity
  }
}
