/** The FIX application (src/fix_client.py): the interpreter of inbound execution reports, which
    drives the order store and position ledger, and the outbound order and cancel requests with
    their order counter.

    A report is a record of the fields the handler reads from the message, each of which may be
    missing. The handler reads every field it needs before it changes anything, and a missing
    field raises the FIX engine's FieldNotFound, so such a report changes nothing; the model
    returns that outcome with the tag of the first missing field. */
module FixClient {
  import opened Trading
  import opened Orders

  /** ExecType (tag 150) values the handler distinguishes ('0', '1', '2', '4'); every other
      value is ExecOther. */
  datatype ExecType = ExecNew | ExecPartialFill | ExecFill | ExecCancelled | ExecOther

  datatype ExecutionReport = ExecutionReport(
    execType: Option<ExecType>,
    clOrdId: Option<ClOrdId>,
    origClOrdId: Option<ClOrdId>,
    symbol: Option<Symbol>,
    side: Option<Side>,
    price: Option<real>,
    orderQty: Option<int>,
    lastPx: Option<real>,
    lastQty: Option<int>)

  /** Application messages by MsgType (tag 35): execution report, cancel reject, anything else. */
  datatype Message = ExecutionReportMessage(report: ExecutionReport) | OrderCancelRejectMessage | OtherMessage

  datatype Outcome = Handled | FieldNotFound(tag: int)

  const TAG_CL_ORD_ID := 11
  const TAG_LAST_PX := 31
  const TAG_LAST_QTY := 32
  const TAG_ORDER_QTY := 38
  const TAG_ORIG_CL_ORD_ID := 41
  const TAG_PRICE := 44
  const TAG_SIDE := 54
  const TAG_SYMBOL := 55
  const TAG_EXEC_TYPE := 150

  /** The book after a report, and how the handler ended. */
  datatype Step = Step(book: Book, outcome: Outcome)

  /** onExecutionReport on the order manager's state. */
  function ApplyReport(b: Book, r: ExecutionReport): (res: Step)
    ensures res.outcome.FieldNotFound? ==> res.book == b
    ensures Consistent(b) ==> Consistent(res.book)
    ensures |b.tradeData| <= |res.book.tradeData| <= |b.tradeData| + 1
    ensures res.book.tradeData[..|b.tradeData|] == b.tradeData
    ensures b.ordersSent <= res.book.ordersSent <= b.ordersSent + 1
    ensures b.ordersCancelled <= res.book.ordersCancelled <= b.ordersCancelled + 1
  {
    if r.symbol.None? then Step(b, FieldNotFound(TAG_SYMBOL))
    else if r.side.None? then Step(b, FieldNotFound(TAG_SIDE))
    else if r.clOrdId.None? then Step(b, FieldNotFound(TAG_CL_ORD_ID))
    else if r.execType.None? then Step(b, FieldNotFound(TAG_EXEC_TYPE))
    else
      var symbol, side, id := r.symbol.value, r.side.value, r.clOrdId.value;
      match r.execType.value
      case ExecNew =>
        if r.price.None? then Step(b, FieldNotFound(TAG_PRICE))
        else if r.orderQty.None? then Step(b, FieldNotFound(TAG_ORDER_QTY))
        else
          var added := WithOrderAdded(b, id, Order(symbol, side, r.orderQty.value, r.price.value, [], 0));
          Step(added.(ordersSent := added.ordersSent + 1), Handled)
      case ExecPartialFill => FillEffect(b, r, id, symbol, side)
      case ExecFill => FillEffect(b, r, id, symbol, side)
      case ExecCancelled =>
        if r.origClOrdId.None? then Step(b, FieldNotFound(TAG_ORIG_CL_ORD_ID))
        else
          var removed := WithOrderRemoved(WithOrderRemoved(b, id), r.origClOrdId.value);
          Step(removed.(ordersCancelled := removed.ordersCancelled + 1), Handled)
      case ExecOther => Step(b, Handled)
  }

  /** The PARTIAL_FILL and FILL branches: update_order, then update_position, with the report's
      LastPx and LastQty. */
  function FillEffect(b: Book, r: ExecutionReport, id: ClOrdId, symbol: Symbol, side: Side): (res: Step)
    ensures res.outcome.FieldNotFound? ==> res.book == b
    ensures Consistent(b) ==> Consistent(res.book)
    ensures res.book.activeOrders.Keys <= b.activeOrders.Keys
    ensures res.book.ordersSent == b.ordersSent && res.book.ordersCancelled == b.ordersCancelled
    ensures |b.tradeData| <= |res.book.tradeData| <= |b.tradeData| + 1
    ensures res.book.tradeData[..|b.tradeData|] == b.tradeData
  {
    if r.lastPx.None? then Step(b, FieldNotFound(TAG_LAST_PX))
    else if r.lastQty.None? then Step(b, FieldNotFound(TAG_LAST_QTY))
    else
      var px, qty := r.lastPx.value, r.lastQty.value;
      Step(WithPositionUpdated(WithFillApplied(b, id, symbol, px, qty, side), symbol, px, qty, side), Handled)
  }

  /** fromApp / onMessage: only execution reports reach the state. */
  function ApplyMessage(b: Book, m: Message): (res: Step)
    ensures !m.ExecutionReportMessage? ==> res == Step(b, Handled)
    ensures Consistent(b) ==> Consistent(res.book)
  {
    match m
    case ExecutionReportMessage(r) => ApplyReport(b, r)
    case OrderCancelRejectMessage => Step(b, Handled)
    case OtherMessage => Step(b, Handled)
  }

  // ---------------------------------------------------------------------------------------
  // What each kind of report does

  /** A report that carries every field the handler reads. */
  function Report(execType: ExecType, id: ClOrdId, orig: ClOrdId, symbol: Symbol, side: Side,
                  price: real, orderQty: int, lastPx: real, lastQty: int): ExecutionReport
  {
    ExecutionReport(Some(execType), Some(id), Some(orig), Some(symbol), Some(side),
                    Some(price), Some(orderQty), Some(lastPx), Some(lastQty))
  }

  /** NEW: the order is stored afresh under its ClOrdID, even over an entry that already had
      fills, and orders_sent goes up by one; trades and positions are untouched. */
  lemma NewReportAddsOrder(b: Book, id: ClOrdId, orig: ClOrdId, symbol: Symbol, side: Side,
                           price: real, orderQty: int, lastPx: real, lastQty: int)
    ensures var res := ApplyReport(b, Report(ExecNew, id, orig, symbol, side, price, orderQty, lastPx, lastQty));
      res.outcome == Handled &&
      res.book.activeOrders == b.activeOrders[id := Order(symbol, side, orderQty, price, [], 0)] &&
      res.book.ordersSent == b.ordersSent + 1 &&
      res.book.ordersCancelled == b.ordersCancelled &&
      res.book.tradeData == b.tradeData && res.book.positions == b.positions
  {
  }

  /** PARTIAL_FILL and FILL have the same effect. */
  lemma FillReportsAgree(b: Book, r: ExecutionReport)
    ensures ApplyReport(b, r.(execType := Some(ExecPartialFill))) == ApplyReport(b, r.(execType := Some(ExecFill)))
  {
  }

  /** A fill for a tracked order records one fill and one trade, drops the order once it is
      fully filled, and moves the symbol's position and cost; other orders and other symbols'
      positions are untouched. */
  lemma TrackedFillReport(b: Book, fill: ExecType, id: ClOrdId, orig: ClOrdId, symbol: Symbol, side: Side,
                          price: real, orderQty: int, lastPx: real, lastQty: int)
    requires fill == ExecPartialFill || fill == ExecFill
    requires id in b.activeOrders
    ensures var res := ApplyReport(b, Report(fill, id, orig, symbol, side, price, orderQty, lastPx, lastQty));
      var o := b.activeOrders[id];
      res.outcome == Handled &&
      res.book.tradeData == b.tradeData + [Trade(symbol, lastPx, lastQty, side)] &&
      (id in res.book.activeOrders <==> o.filledQuantity + lastQty < o.quantity) &&
      (id in res.book.activeOrders ==>
        res.book.activeOrders[id].filledQuantity == o.filledQuantity + lastQty &&
        res.book.activeOrders[id].fills == o.fills + [Fill(lastPx, lastQty)]) &&
      (forall k :: k in b.activeOrders && k != id ==>
        k in res.book.activeOrders && res.book.activeOrders[k] == b.activeOrders[k]) &&
      res.book.activeOrders.Keys <= b.activeOrders.Keys &&
      res.book.positions.Keys == b.positions.Keys + {symbol} &&
      res.book.positions[symbol].position == PositionOf(b, symbol).position + SideSign(side) * lastQty &&
      res.book.positions[symbol].totalCost ==
        PositionOf(b, symbol).totalCost + SideSign(side) as real * Notional(lastPx, lastQty) &&
      (forall s :: s in b.positions && s != symbol ==> res.book.positions[s] == b.positions[s]) &&
      res.book.ordersSent == b.ordersSent && res.book.ordersCancelled == b.ordersCancelled
  {
  }

  /** A fill for an id the store does not track leaves orders, trades, counters and other
      symbols' positions alone, but still moves the symbol's position and cost. */
  lemma UntrackedFillReport(b: Book, fill: ExecType, id: ClOrdId, orig: ClOrdId, symbol: Symbol, side: Side,
                            price: real, orderQty: int, lastPx: real, lastQty: int)
    requires fill == ExecPartialFill || fill == ExecFill
    requires id !in b.activeOrders
    ensures var res := ApplyReport(b, Report(fill, id, orig, symbol, side, price, orderQty, lastPx, lastQty));
      res.outcome == Handled &&
      res.book.activeOrders == b.activeOrders && res.book.tradeData == b.tradeData &&
      res.book.ordersSent == b.ordersSent && res.book.ordersCancelled == b.ordersCancelled &&
      res.book.positions.Keys == b.positions.Keys + {symbol} &&
      res.book.positions[symbol].position == PositionOf(b, symbol).position + SideSign(side) * lastQty &&
      res.book.positions[symbol].totalCost ==
        PositionOf(b, symbol).totalCost + SideSign(side) as real * Notional(lastPx, lastQty) &&
      (forall s :: s in b.positions && s != symbol ==> res.book.positions[s] == b.positions[s])
  {
  }

  /** CANCELLED: both ClOrdID and OrigClOrdID leave the store, and orders_cancelled goes up by
      one even when neither was tracked; trades and positions are untouched. */
  lemma CancelReport(b: Book, id: ClOrdId, orig: ClOrdId, symbol: Symbol, side: Side,
                     price: real, orderQty: int, lastPx: real, lastQty: int)
    ensures var res := ApplyReport(b, Report(ExecCancelled, id, orig, symbol, side, price, orderQty, lastPx, lastQty));
      res.outcome == Handled &&
      res.book.activeOrders.Keys == b.activeOrders.Keys - {id, orig} &&
      (forall k :: k in res.book.activeOrders ==> res.book.activeOrders[k] == b.activeOrders[k]) &&
      res.book.ordersCancelled == b.ordersCancelled + 1 &&
      res.book.ordersSent == b.ordersSent &&
      res.book.tradeData == b.tradeData && res.book.positions == b.positions
  {
  }

  /** Any other execution type changes nothing. */
  lemma OtherReportChangesNothing(b: Book, r: ExecutionReport)
    requires r.execType.Some? && r.execType.value.ExecOther?
    ensures ApplyReport(b, r).book == b
  {
  }

  /** A partial fill of 60 and then a fill of the remaining 40 on an order of 100: the order is
      gone, no other order is, and exactly two trade records were appended, one per report. */
  lemma PartialThenFullFill(b: Book, id: ClOrdId, symbol: Symbol, side: Side, px1: real, px2: real)
    requires id in b.activeOrders
    requires b.activeOrders[id].quantity == 100 && b.activeOrders[id].filledQuantity == 0
    ensures var s1 := ApplyReport(b, Report(ExecPartialFill, id, id, symbol, side, 0.0, 100, px1, 60));
      var s2 := ApplyReport(s1.book, Report(ExecFill, id, id, symbol, side, 0.0, 100, px2, 40));
      id in s1.book.activeOrders && s1.book.activeOrders[id].filledQuantity == 60 &&
      s2.book.activeOrders.Keys == b.activeOrders.Keys - {id} &&
      s2.book.tradeData == b.tradeData + [Trade(symbol, px1, 60, side), Trade(symbol, px2, 40, side)]
  {
  }

  // ---------------------------------------------------------------------------------------
  // Outbound requests

  /** OrdType (tag 40) values send_order distinguishes ('1', '2'); every other value is
      OtherOrdType. */
  datatype OrdType = Market | Limit | OtherOrdType

  /** A NewOrderSingle as handed to the transport; its ClOrdID carries the order counter. */
  datatype NewOrderSingle = NewOrderSingle(
    orderNumber: int,
    symbol: Symbol,
    side: Side,
    ordType: OrdType,
    orderQty: int,
    price: Option<real>)

  /** An OrderCancelRequest; its ClOrdID is the order counter. */
  datatype OrderCancelRequest = OrderCancelRequest(
    origClOrdId: ClOrdId,
    orderNumber: int,
    symbol: Symbol,
    side: Side)

  /** The message send_order hands to the transport, if any: a limit order without a price is
      not sent, and only a limit order carries a price. */
  function NewOrderFor(orderNumber: int, symbol: Symbol, side: Side, ordType: OrdType, quantity: int,
                       price: Option<real>): (m: Option<NewOrderSingle>)
    ensures m.None? <==> ordType == Limit && price.None?
    ensures m.Some? ==>
      m.value.orderNumber == orderNumber && m.value.symbol == symbol && m.value.side == side &&
      m.value.ordType == ordType && m.value.orderQty == quantity
    ensures m.Some? ==> (m.value.price.Some? <==> ordType == Limit)
    ensures m.Some? && ordType == Limit ==> m.value.price == price
  {
    if ordType == Limit then
      if price.Some? then Some(NewOrderSingle(orderNumber, symbol, side, ordType, quantity, price))
      else None
    else Some(NewOrderSingle(orderNumber, symbol, side, ordType, quantity, None))
  }

  // ---------------------------------------------------------------------------------------
  // The object

  class Application {
    var orderID: int
    var execID: int
    const orderManager: OrderManager

    constructor (orderManager: OrderManager)
      ensures this.orderManager == orderManager && orderID == 0 && execID == 0
    {
      orderID := 0;
      execID := 0;
      this.orderManager := orderManager;
    }

    method FromApp(m: Message) returns (outcome: Outcome)
      requires orderManager.Valid()
      modifies orderManager
      ensures orderManager.Valid()
      ensures Step(orderManager.Snapshot(), outcome) == ApplyMessage(old(orderManager.Snapshot()), m)
    {
      outcome := OnMessage(m);
    }

    method OnMessage(m: Message) returns (outcome: Outcome)
      requires orderManager.Valid()
      modifies orderManager
      ensures orderManager.Valid()
      ensures Step(orderManager.Snapshot(), outcome) == ApplyMessage(old(orderManager.Snapshot()), m)
    {
      match m {
        case ExecutionReportMessage(r) =>
          outcome := OnExecutionReport(r);
        case OrderCancelRejectMessage =>
          outcome := Handled;
        case OtherMessage =>
          outcome := Handled;
      }
    }

    method OnExecutionReport(r: ExecutionReport) returns (outcome: Outcome)
      requires orderManager.Valid()
      modifies orderManager
      ensures orderManager.Valid()
      ensures Step(orderManager.Snapshot(), outcome) == ApplyReport(old(orderManager.Snapshot()), r)
    {
      if r.symbol.None? { return FieldNotFound(TAG_SYMBOL); }
      if r.side.None? { return FieldNotFound(TAG_SIDE); }
      if r.clOrdId.None? { return FieldNotFound(TAG_CL_ORD_ID); }
      if r.execType.None? { return FieldNotFound(TAG_EXEC_TYPE); }
      var symbol, side, clOrdId := r.symbol.value, r.side.value, r.clOrdId.value;

      match r.execType.value {
        case ExecNew =>
          if r.price.None? { return FieldNotFound(TAG_PRICE); }
          if r.orderQty.None? { return FieldNotFound(TAG_ORDER_QTY); }
          orderManager.AddOrder(clOrdId, Order(symbol, side, r.orderQty.value, r.price.value, [], 0));
          orderManager.ordersSent := orderManager.ordersSent + 1;
        case ExecPartialFill =>
          if r.lastPx.None? { return FieldNotFound(TAG_LAST_PX); }
          if r.lastQty.None? { return FieldNotFound(TAG_LAST_QTY); }
          orderManager.UpdateOrder(clOrdId, symbol, r.lastPx.value, r.lastQty.value, side);
          orderManager.UpdatePosition(symbol, r.lastPx.value, r.lastQty.value, side);
        case ExecFill =>
          if r.lastPx.None? { return FieldNotFound(TAG_LAST_PX); }
          if r.lastQty.None? { return FieldNotFound(TAG_LAST_QTY); }
          orderManager.UpdateOrder(clOrdId, symbol, r.lastPx.value, r.lastQty.value, side);
          orderManager.UpdatePosition(symbol, r.lastPx.value, r.lastQty.value, side);
        case ExecCancelled =>
          if r.origClOrdId.None? { return FieldNotFound(TAG_ORIG_CL_ORD_ID); }
          orderManager.RemoveOrder(clOrdId);
          orderManager.RemoveOrder(r.origClOrdId.value);
          orderManager.ordersCancelled := orderManager.ordersCancelled + 1;
        case ExecOther =>
      }
      outcome := Handled;
    }

    /** send_order: the counter goes up first, so it advances even when a limit order without a
        price is refused. */
    method SendOrder(symbol: Symbol, side: Side, ordType: OrdType, quantity: int, price: Option<real>)
      returns (sent: Option<NewOrderSingle>)
      modifies this`orderID
      ensures orderID == old(orderID) + 1
      ensures sent == NewOrderFor(orderID, symbol, side, ordType, quantity, price)
    {
      orderID := orderID + 1;
      if ordType == Limit {
        if price.Some? {
          sent := Some(NewOrderSingle(orderID, symbol, side, ordType, quantity, price));
        } else {
          return None;
        }
      } else {
        sent := Some(NewOrderSingle(orderID, symbol, side, ordType, quantity, None));
      }
    }

    method SendCancelOrder(origClOrdId: ClOrdId, symbol: Symbol, side: Side) returns (sent: OrderCancelRequest)
      modifies this`orderID
      ensures orderID == old(orderID) + 1
      ensures sent == OrderCancelRequest(origClOrdId, orderID, symbol, side)
    {
      orderID := orderID + 1;
      sent := OrderCancelRequest(origClOrdId, orderID, symbol, side);
    }
  }
}
