/** The order store and position ledger of the client (src/order_manager.py).

    The state of an OrderManager is described by a `Book` value; each state-changing method of
    the class is specified by a pure function from the old book to the new one, and the
    properties of the store are proved about those functions. */
module Orders {
  import opened Trading

  /** Everything an OrderManager holds: the active orders keyed by ClOrdID, the trade history,
      the per-symbol positions and the two confirmation counters. */
  datatype Book = Book(
    activeOrders: map<ClOrdId, Order>,
    tradeData: seq<Trade>,
    positions: map<Symbol, Position>,
    ordersSent: int,
    ordersCancelled: int)

  const EmptyBook: Book := Book(map[], [], map[], 0, 0)

  /** The entry update_position creates for a symbol it has not seen. */
  const FlatPosition: Position := Position(0, 0.0, None)

  /** An active order's filled quantity is the sum of its fills, and an order that has received
      a fill is still active only while it is not fully filled. */
  predicate OrderConsistent(o: Order) {
    o.filledQuantity == FillSum(o.fills) && (o.fills != [] ==> o.filledQuantity < o.quantity)
  }

  /** The average price is absent exactly at a flat position, and is otherwise the absolute
      value of cost over position, both taken after the same update. */
  predicate PositionWellFormed(p: Position) {
    (p.avgPrice.None? <==> p.position == 0) &&
    (p.avgPrice.Some? ==> p.avgPrice.value == Abs(p.totalCost / p.position as real))
  }

  predicate Consistent(b: Book) {
    (forall id :: id in b.activeOrders ==> OrderConsistent(b.activeOrders[id])) &&
    (forall s :: s in b.positions ==> PositionWellFormed(b.positions[s]))
  }

  /** The position of `symbol`, or the flat entry when the ledger has none yet. */
  function PositionOf(b: Book, symbol: Symbol): Position {
    if symbol in b.positions then b.positions[symbol] else FlatPosition
  }

  // ---------------------------------------------------------------------------------------
  // add_order / remove_order

  /** add_order: the order is stored under `id` with no fills, replacing any earlier entry. */
  function WithOrderAdded(b: Book, id: ClOrdId, o: Order): (r: Book)
    ensures id in r.activeOrders && r.activeOrders[id] == o.(fills := [], filledQuantity := 0)
    ensures r.activeOrders.Keys == b.activeOrders.Keys + {id}
    ensures forall k :: k in b.activeOrders && k != id ==> r.activeOrders[k] == b.activeOrders[k]
    ensures r.tradeData == b.tradeData && r.positions == b.positions
    ensures r.ordersSent == b.ordersSent && r.ordersCancelled == b.ordersCancelled
    ensures Consistent(b) ==> Consistent(r)
  {
    b.(activeOrders := b.activeOrders[id := o.(fills := [], filledQuantity := 0)])
  }

  /** remove_order: `id` is gone afterwards whether or not it was there; nothing else moves. */
  function WithOrderRemoved(b: Book, id: ClOrdId): (r: Book)
    ensures r.activeOrders.Keys == b.activeOrders.Keys - {id}
    ensures forall k :: k in r.activeOrders ==> r.activeOrders[k] == b.activeOrders[k]
    ensures id !in b.activeOrders ==> r == b
    ensures r.tradeData == b.tradeData && r.positions == b.positions
    ensures r.ordersSent == b.ordersSent && r.ordersCancelled == b.ordersCancelled
    ensures Consistent(b) ==> Consistent(r)
  {
    if id in b.activeOrders then b.(activeOrders := b.activeOrders - {id}) else b
  }

  lemma RemoveOrderIdempotent(b: Book, id: ClOrdId)
    ensures WithOrderRemoved(WithOrderRemoved(b, id), id) == WithOrderRemoved(b, id)
  {
  }

  // ---------------------------------------------------------------------------------------
  // update_order

  /** The in-place change update_order makes to a tracked order. */
  function WithFill(o: Order, price: real, quantity: int): (r: Order)
    ensures r.filledQuantity - FillSum(r.fills) == o.filledQuantity - FillSum(o.fills)
    ensures r.filledQuantity == o.filledQuantity + quantity
    ensures |r.fills| == |o.fills| + 1 && r.fills[..|o.fills|] == o.fills
    ensures r.fills[|o.fills|] == Fill(price, quantity)
    ensures r.(fills := o.fills, filledQuantity := o.filledQuantity) == o
  {
    var r := o.(filledQuantity := o.filledQuantity + quantity, fills := o.fills + [Fill(price, quantity)]);
    assert r.fills[..|r.fills| - 1] == o.fills;
    r
  }

  /** update_order: a fill for an untracked id changes nothing; for a tracked id it records the
      fill on the order, appends one trade, and drops the order once it is fully filled. */
  function WithFillApplied(b: Book, id: ClOrdId, symbol: Symbol, price: real, quantity: int, side: Side): (r: Book)
    ensures id !in b.activeOrders ==> r == b
    ensures id in b.activeOrders ==>
      r.tradeData == b.tradeData + [Trade(symbol, price, quantity, side)] &&
      (id in r.activeOrders <==>
        b.activeOrders[id].filledQuantity + quantity < b.activeOrders[id].quantity) &&
      (id in r.activeOrders ==> r.activeOrders[id] == WithFill(b.activeOrders[id], price, quantity))
    ensures r.activeOrders.Keys <= b.activeOrders.Keys
    ensures forall k :: k in b.activeOrders && k != id ==> k in r.activeOrders && r.activeOrders[k] == b.activeOrders[k]
    ensures r.positions == b.positions
    ensures r.ordersSent == b.ordersSent && r.ordersCancelled == b.ordersCancelled
    ensures Consistent(b) ==> Consistent(r)
  {
    if id !in b.activeOrders then b
    else
      var order := WithFill(b.activeOrders[id], price, quantity);
      var trades := b.tradeData + [Trade(symbol, price, quantity, side)];
      if order.filledQuantity >= order.quantity then
        b.(activeOrders := b.activeOrders - {id}, tradeData := trades)
      else
        b.(activeOrders := b.activeOrders[id := order], tradeData := trades)
  }

  // ---------------------------------------------------------------------------------------
  // update_position

  /** update_position on one entry: signed quantity and cost arithmetic, then the average price
      recomputed from the updated values. */
  function UpdatedPosition(p: Position, price: real, quantity: int, side: Side): (r: Position)
    ensures r.position == p.position + SideSign(side) * quantity
    ensures r.totalCost == p.totalCost + SideSign(side) as real * Notional(price, quantity)
    ensures PositionWellFormed(r)
    ensures r.avgPrice.None? <==> r.position == 0
    ensures r.avgPrice.Some? ==>
      r.avgPrice.value >= 0.0 && r.avgPrice.value * Abs(r.position as real) == Abs(r.totalCost)
  {
    var position := p.position;
    var totalCost := p.totalCost;
    var (newPosition, newTotalCost) :=
      if side == SIDE_BUY then (position + quantity, totalCost + Notional(price, quantity))
      else if side == SIDE_SELL || side == SIDE_SELL_SHORT then (position - quantity, totalCost - Notional(price, quantity))
      else (position, totalCost);
    var avgPrice := if newPosition != 0 then Some(Abs(newTotalCost / newPosition as real)) else None;
    AverageTimesPosition(newTotalCost, newPosition);
    Position(newPosition, newTotalCost, avgPrice)
  }

  /** |c / n| * |n| == |c| for a non-zero n. */
  lemma AverageTimesPosition(c: real, n: int)
    ensures n != 0 ==> Abs(c / n as real) * Abs(n as real) == Abs(c)
  {
  }

  /** update_position on the ledger: only the entry of `symbol` changes. */
  function WithPositionUpdated(b: Book, symbol: Symbol, price: real, quantity: int, side: Side): (r: Book)
    ensures r.positions.Keys == b.positions.Keys + {symbol}
    ensures r.positions[symbol].position == PositionOf(b, symbol).position + SideSign(side) * quantity
    ensures r.positions[symbol].totalCost ==
      PositionOf(b, symbol).totalCost + SideSign(side) as real * Notional(price, quantity)
    ensures PositionWellFormed(r.positions[symbol])
    ensures forall s :: s in b.positions && s != symbol ==> r.positions[s] == b.positions[s]
    ensures r.activeOrders == b.activeOrders && r.tradeData == b.tradeData
    ensures r.ordersSent == b.ordersSent && r.ordersCancelled == b.ordersCancelled
    ensures Consistent(b) ==> Consistent(r)
  {
    var prior := if symbol in b.positions then b.positions[symbol] else FlatPosition;
    b.(positions := b.positions[symbol := UpdatedPosition(prior, price, quantity, side)])
  }

  // ---------------------------------------------------------------------------------------
  // A run of fills against one order

  function TradesOf(symbol: Symbol, side: Side, fills: seq<Fill>): (r: seq<Trade>)
    ensures |r| == |fills|
    ensures forall i :: 0 <= i < |fills| ==> r[i] == Trade(symbol, fills[i].price, fills[i].quantity, side)
  {
    if fills == [] then []
    else TradesOf(symbol, side, fills[..|fills| - 1]) + [Trade(symbol, fills[|fills| - 1].price, fills[|fills| - 1].quantity, side)]
  }

  /** update_order applied to one id for each fill in turn. */
  function ApplyFills(b: Book, id: ClOrdId, symbol: Symbol, side: Side, fills: seq<Fill>): Book {
    if fills == [] then b
    else
      var f := fills[|fills| - 1];
      WithFillApplied(ApplyFills(b, id, symbol, side, fills[..|fills| - 1]), id, symbol, f.price, f.quantity, side)
  }

  /** For any run of positive fills on an open order: the order is still active exactly when the
      fills have not reached its quantity, and then it is the same order carrying exactly those
      fills and their sum. */
  lemma {:induction false} FillsOnOneOrder(b: Book, id: ClOrdId, symbol: Symbol, side: Side, fills: seq<Fill>)
    requires id in b.activeOrders
    requires b.activeOrders[id].filledQuantity < b.activeOrders[id].quantity
    requires forall i :: 0 <= i < |fills| ==> fills[i].quantity > 0
    ensures var r := ApplyFills(b, id, symbol, side, fills);
      var o := b.activeOrders[id];
      (id in r.activeOrders <==> o.filledQuantity + FillSum(fills) < o.quantity) &&
      (id in r.activeOrders ==>
        r.activeOrders[id] == o.(fills := o.fills + fills, filledQuantity := o.filledQuantity + FillSum(fills)))
  {
    var o := b.activeOrders[id];
    if fills == [] {
      assert o.fills + fills == o.fills;
    } else {
      var init := fills[..|fills| - 1];
      var f := fills[|fills| - 1];
      FillsOnOneOrder(b, id, symbol, side, init);
      var r0 := ApplyFills(b, id, symbol, side, init);
      FillStep(o, r0, id, symbol, side, init, f);
      assert fills == init + [f];
      assert FillSum(fills) == FillSum(init) + f.quantity;
    }
  }

  /** One step of FillsOnOneOrder: a further positive fill on the order as the run left it. */
  lemma FillStep(o: Order, r0: Book, id: ClOrdId, symbol: Symbol, side: Side, init: seq<Fill>, f: Fill)
    requires f.quantity > 0
    requires id in r0.activeOrders <==> o.filledQuantity + FillSum(init) < o.quantity
    requires id in r0.activeOrders ==>
      r0.activeOrders[id] == o.(fills := o.fills + init, filledQuantity := o.filledQuantity + FillSum(init))
    ensures var r := WithFillApplied(r0, id, symbol, f.price, f.quantity, side);
      (id in r.activeOrders <==> o.filledQuantity + FillSum(init) + f.quantity < o.quantity) &&
      (id in r.activeOrders ==>
        r.activeOrders[id] == o.(fills := o.fills + init + [f], filledQuantity := o.filledQuantity + FillSum(init) + f.quantity))
  {
  }

  /** When only the last of a run of positive fills can complete the order, every fill of the run
      appended one trade record, in order. */
  lemma {:induction false} FillsOnOneOrderTrades(b: Book, id: ClOrdId, symbol: Symbol, side: Side, fills: seq<Fill>)
    requires id in b.activeOrders
    requires b.activeOrders[id].filledQuantity < b.activeOrders[id].quantity
    requires forall i :: 0 <= i < |fills| ==> fills[i].quantity > 0
    requires fills != []
    requires b.activeOrders[id].filledQuantity + FillSum(fills[..|fills| - 1]) < b.activeOrders[id].quantity
    ensures ApplyFills(b, id, symbol, side, fills).tradeData == b.tradeData + TradesOf(symbol, side, fills)
  {
    var init := fills[..|fills| - 1];
    var f := fills[|fills| - 1];
    var r0 := ApplyFills(b, id, symbol, side, init);
    if init == [] {
      assert r0 == b;
    } else {
      assert FillSum(init[..|init| - 1]) < FillSum(init) by {
        assert init[|init| - 1].quantity > 0;
      }
      FillsOnOneOrderTrades(b, id, symbol, side, init);
    }
    FillsOnOneOrder(b, id, symbol, side, init);
    assert id in r0.activeOrders;
    assert TradesOf(symbol, side, fills) == TradesOf(symbol, side, init) + [Trade(symbol, f.price, f.quantity, side)];
  }

  // ---------------------------------------------------------------------------------------
  // The object

  /** The OrderManager object: the fields of src/order_manager.py, updated in place. */
  class OrderManager {
    var activeOrders: map<ClOrdId, Order>
    var tradeData: seq<Trade>
    var positions: map<Symbol, Position>
    var ordersSent: int
    var ordersCancelled: int

    function Snapshot(): Book
      reads this
    {
      Book(activeOrders, tradeData, positions, ordersSent, ordersCancelled)
    }

    ghost predicate Valid()
      reads this
    {
      Consistent(Snapshot())
    }

    constructor ()
      ensures Valid() && Snapshot() == EmptyBook
    {
      activeOrders := map[];
      tradeData := [];
      positions := map[];
      ordersSent := 0;
      ordersCancelled := 0;
    }

    method AddOrder(id: ClOrdId, order: Order)
      requires Valid()
      modifies this
      ensures Valid()
      ensures Snapshot() == WithOrderAdded(old(Snapshot()), id, order)
    {
      var entry := order.(fills := []);
      entry := entry.(filledQuantity := 0);
      activeOrders := activeOrders[id := entry];
    }

    method RemoveOrder(id: ClOrdId)
      requires Valid()
      modifies this
      ensures Valid()
      ensures Snapshot() == WithOrderRemoved(old(Snapshot()), id)
    {
      if id in activeOrders {
        activeOrders := activeOrders - {id};
      }
    }

    method UpdateOrder(id: ClOrdId, symbol: Symbol, price: real, quantity: int, side: Side)
      requires Valid()
      modifies this
      ensures Valid()
      ensures Snapshot() == WithFillApplied(old(Snapshot()), id, symbol, price, quantity, side)
    {
      ghost var before := Snapshot();
      if id in activeOrders {
        var order := activeOrders[id];
        ghost var filled := WithFill(order, price, quantity);
        order := order.(filledQuantity := order.filledQuantity + quantity);
        order := order.(fills := order.fills + [Fill(price, quantity)]);
        assert order == filled;
        activeOrders := activeOrders[id := order];
        tradeData := tradeData + [Trade(symbol, price, quantity, side)];
        if order.filledQuantity >= order.quantity {
          activeOrders := activeOrders - {id};
          assert activeOrders == before.activeOrders - {id};
        }
        assert Snapshot() == WithFillApplied(before, id, symbol, price, quantity, side);
      }
    }

    method UpdatePosition(symbol: Symbol, price: real, quantity: int, side: Side)
      requires Valid()
      modifies this
      ensures Valid()
      ensures Snapshot() == WithPositionUpdated(old(Snapshot()), symbol, price, quantity, side)
    {
      ghost var before := Snapshot();
      if symbol !in positions {
        positions := positions[symbol := FlatPosition];
      }
      assert positions[symbol] == PositionOf(before, symbol);
      var position := positions[symbol].position;
      var totalCost := positions[symbol].totalCost;
      var newPosition, newTotalCost;
      if side == SIDE_BUY {
        newPosition := position + quantity;
        newTotalCost := totalCost + Notional(price, quantity);
      } else if side == SIDE_SELL || side == SIDE_SELL_SHORT {
        newPosition := position - quantity;
        newTotalCost := totalCost - Notional(price, quantity);
      } else {
        newPosition := position;
        newTotalCost := totalCost;
      }
      var avgPrice;
      if newPosition != 0 {
        avgPrice := Some(Abs(newTotalCost / newPosition as real));
      } else {
        avgPrice := None;
      }
      assert Position(newPosition, newTotalCost, avgPrice) == UpdatedPosition(PositionOf(before, symbol), price, quantity, side);
      positions := positions[symbol := Position(newPosition, newTotalCost, avgPrice)];
      assert Snapshot() == WithPositionUpdated(before, symbol, price, quantity, side);
    }
  }
}
