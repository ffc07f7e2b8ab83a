# FIX trading client: order lifecycle, position ledger and statistics

A Dafny model of the bookkeeping core of a FIX 4.2 trading client written in Python on top of
the quickfix engine. The client sends NewOrderSingle and OrderCancelRequest messages and
reconciles inbound execution reports against local state:

- `trading.dfy` (module `Trading`): the shared values. Side codes of FIX tag 54 (`'1'` buy,
  `'2'` sell, `'5'` sell short), fills, trade records, orders and positions. Prices are exact
  `real`s and quantities `int`s.
- `orders.dfy` (module `Orders`): the `OrderManager` of `src/order_manager.py`. It holds the
  active orders keyed by ClOrdID, the append-only trade history, the per-symbol position ledger
  and the `orders_sent` / `orders_cancelled` counters. The class has the source's fields and
  methods. Each method is specified by a pure function on a `Book` value (the manager's whole
  state): `WithOrderAdded`, `WithOrderRemoved`, `WithFillApplied`, `WithPositionUpdated`. The
  invariants are proved about those functions and kept by every method: an order's
  `filled_quantity` is the sum of its fills, an order with a fill is active only while it is not
  fully filled, and `avg_price` is absent exactly at a flat position.
- `statistics.dfy` (module `Statistics`): `calculate_total_volume`, `calculate_pnl`,
  `calculate_vwap` and `calculate_statistics`. Each is a method with the source's loop, proved
  against a fold over the trade sequence (`VolumeOf`, `QuantityOf`, `PnlOf`).
- `fix_client.dfy` (module `FixClient`): the `Application` of `src/fix_client.py`.
  `ApplyReport` is the execution-report interpreter: NEW, PARTIAL_FILL, FILL, CANCELLED or any
  other exec type, on a report whose fields may be missing. The lemmas beside it state what each
  kind of report does to the book. The `Application` class drives an `OrderManager` through
  `OnMessage` and `OnExecutionReport`. `SendOrder` and `SendCancelOrder` advance the `orderID`
  counter and return the message they would hand to the transport.
- `reconciliation.dfy` (module `Reconciliation`): the ledger and the corrected PnL (`PnlOf`, see
  "## Findings") use the same cash-flow sign convention. A ledger fed exactly the recorded trades
  has, per symbol, the net quantity as its position and the negated corrected PnL as its cost. A
  fill on a tracked order keeps the two in step; a fill for an untracked ClOrdID does not. The
  PnL the code computes as written is 0 for every symbol (`PnlAsWrittenIsZero`), so the ledger's
  cost agrees with it only for symbols whose cost is 0.

The code is looser in places than one might expect. The model follows the code:

- A second NEW for a tracked ClOrdID replaces the entry and resets its fills. It also counts in
  `orders_sent` a second time (`NewReportAddsOrder`).
- A CANCELLED report increments `orders_cancelled` even when neither ClOrdID nor OrigClOrdID was
  tracked (`CancelReport`).
- A fill for an untracked ClOrdID records no trade but still moves the symbol's position
  (`UntrackedFillReport`, `UntrackedFillBreaksAgreement`).
- A NEW report must carry a Price, even for a market order. Reading a missing field raises
  FieldNotFound before anything changes, so such a report has no effect.
- Nothing is locked. The model is sequential.

## Model

| member | source | states |
|---|---|---|
| `Trading.SideSign` | src/order_manager.py:78-86 | +1 exactly for a buy, -1 exactly for a sell or short sell, 0 otherwise |
| `Orders.WithOrderAdded` | src/order_manager.py:19-29 | the order is stored under its id with no fills and zero filled quantity, replacing any earlier entry; every other key, the trades, the positions and the counters are unchanged; consistency is kept |
| `Orders.WithOrderRemoved` | src/order_manager.py:31-39 | the id is absent afterwards; remaining entries are unchanged; an absent id leaves the book as it was; trades, positions and counters are unchanged |
| `Orders.RemoveOrderIdempotent` | src/order_manager.py:31-39 | removing an id twice is the same as removing it once |
| `Orders.WithFill` | src/order_manager.py:53-55 | the filled quantity grows by exactly the fill's quantity; exactly one fill {price, quantity} is appended; the gap between filled quantity and fill sum is kept |
| `Orders.WithFillApplied` | src/order_manager.py:41-60 | an untracked id changes nothing; for a tracked id exactly one trade record is appended, and the order stays active iff its filled quantity after the fill is below its quantity; other orders, positions and counters are unchanged; consistency is kept |
| `Orders.UpdatedPosition` | src/order_manager.py:72-97 | position and cost move by the side's sign times quantity and notional; avg_price is absent iff the new position is 0, and otherwise is abs(cost/position) of the new values, non-negative, with avg times abs(position) equal to abs(cost) |
| `Orders.WithPositionUpdated` | src/order_manager.py:62-97 | the symbol gains or keeps a ledger entry, starting flat when it had none; only that entry changes and it is well formed; orders, trades and counters are unchanged |
| `Orders.FillsOnOneOrder` | src/order_manager.py:52-60 | for any run of positive fills on an open order, the order is active afterwards iff filled quantity plus the run's sum is below its quantity, and then it carries exactly those fills and that sum |
| `Orders.FillsOnOneOrderTrades` | src/order_manager.py:52-60 | when only the run's last fill can complete the order, each fill appended one trade record, in order |
| `Orders.OrderManager.constructor` | src/order_manager.py:12-17 | empty orders, trades and positions, both counters zero |
| `Orders.OrderManager.AddOrder` | src/order_manager.py:19-29 | the new state is WithOrderAdded of the old; the invariant is kept |
| `Orders.OrderManager.RemoveOrder` | src/order_manager.py:31-39 | the new state is WithOrderRemoved of the old; the invariant is kept |
| `Orders.OrderManager.UpdateOrder` | src/order_manager.py:41-60 | the new state is WithFillApplied of the old; the check for a full fill happens after the fill is applied |
| `Orders.OrderManager.UpdatePosition` | src/order_manager.py:62-97 | the new state is WithPositionUpdated of the old; the invariant is kept |
| `Statistics.VolumeOfAppend` | src/statistics.py:15-21 | per-symbol volume of a concatenated history is the sum of the parts' volumes |
| `Statistics.PnlOfAppend` | src/statistics.py:47-57 | per-symbol PnL of a concatenated history is the sum of the parts' PnLs |
| `Statistics.VolumeAtUniformPrice` | src/statistics.py:83-92 | when all trades of a symbol have price p, its volume is p times its total quantity |
| `Statistics.VwapAtUniformPrice` | src/statistics.py:83-96 | when all trades of a symbol have price p, its VWAP is p |
| `Statistics.VwapExample` | src/statistics.py:83-96 | trades (100,10) and (200,10) of one symbol have total quantity 20 and VWAP 150 |
| `Statistics.PnlExample` | src/statistics.py:52-57 | buying 10 at 100 then selling 10 at 110 gives PnL +100 |
| `Statistics.PnlAsWrittenIsZero` | src/statistics.py:54-57 | with the side compared to the integers 1, 2 and 5, every symbol's PnL is 0 whatever was traded |
| `Statistics.CalculatePnlAsWritten` | src/statistics.py:36-59 | calculate_pnl as written, with the side compared to the integers 1, 2 and 5 (`CashFlowAsWritten`, `PnlOfAsWritten`, lines 54-57): the keys are exactly the traded symbols and every value is 0 |
| `Statistics.PnlAsWrittenMissesRoundTrip` | src/statistics.py:54-57 | on the buy-10-at-100, sell-10-at-110 history the code as written gives 0 where +100 is intended |
| `Statistics.CalculateTotalVolume` | src/statistics.py:4-24 | the keys are exactly the traded symbols; each value is the rounded sum of price times quantity over that symbol's trades |
| `Statistics.CalculatePnl` | src/statistics.py:36-59 | the keys are exactly the traded symbols, whatever their sides; each value is minus the buys' notional plus the sells' and short sells' notional |
| `Statistics.CalculateVwap` | src/statistics.py:71-97 | given a non-zero total quantity per symbol, the keys are exactly the traded symbols and each value is the rounded volume over quantity |
| `Statistics.CalculateStatistics` | src/statistics.py:99-107 | the three tables have the traded symbols as keys and hold the rounded volume, the PnL and the rounded VWAP of each |
| `FixClient.ApplyReport` | src/fix_client.py:60-151 | a report with a missing field changes nothing; consistency is kept; the trade list only grows, by at most one record, and keeps its prefix; each counter rises by at most one |
| `FixClient.FillEffect` | src/fix_client.py:119-139 | a fill never adds an order, never touches the counters, and appends at most one trade |
| `FixClient.ApplyMessage` | src/fix_client.py:50-58 | cancel rejects and other message types leave the book unchanged; consistency is kept |
| `FixClient.NewReportAddsOrder` | src/fix_client.py:101-117 | NEW stores the reported order fresh under its ClOrdID and raises orders_sent by exactly 1; trades, positions and orders_cancelled are unchanged |
| `FixClient.FillReportsAgree` | src/fix_client.py:119-139 | PARTIAL_FILL and FILL have identical effects |
| `FixClient.TrackedFillReport` | src/fix_client.py:119-139 | a fill on a tracked order appends the trade {symbol, LastPx, LastQty, side} and one fill; the order stays iff still short of its quantity; every other order is unchanged; the symbol's position moves by the signed LastQty and its cost by the signed notional; other symbols' positions and the counters are unchanged |
| `FixClient.UntrackedFillReport` | src/fix_client.py:119-139 | a fill on an untracked ClOrdID leaves orders, trades, counters and other symbols' positions unchanged but still updates the symbol's position and cost |
| `FixClient.CancelReport` | src/fix_client.py:141-148 | CANCELLED removes both ClOrdID and OrigClOrdID and raises orders_cancelled by 1, tracked or not; trades and positions are unchanged |
| `FixClient.OtherReportChangesNothing` | src/fix_client.py:150-151 | any other exec type leaves the book unchanged |
| `FixClient.PartialThenFullFill` | src/fix_client.py:119-139 | a partial fill of 60 then a fill of 40 on an order of 100 removes exactly that order and appends exactly the two matching trade records |
| `FixClient.NewOrderFor` | src/fix_client.py:184-191 | nothing is sent iff the order is a limit order without a price; a sent order carries the counter, symbol, side, type and quantity, and a price iff it is a limit order |
| `FixClient.Application.constructor` | src/fix_client.py:18-22 | orderID and execID start at 0 and the application drives the given order manager |
| `FixClient.Application.FromApp` | src/fix_client.py:47-48 | same effect as OnMessage |
| `FixClient.Application.OnMessage` | src/fix_client.py:50-58 | the manager's new state and the outcome are ApplyMessage of the old state |
| `FixClient.Application.OnExecutionReport` | src/fix_client.py:60-151 | the manager's new state and the outcome are ApplyReport of the old state; the manager's invariant is kept |
| `FixClient.Application.SendOrder` | src/fix_client.py:158-191 | orderID rises by exactly 1 before the limit-price check, so it rises even when nothing is sent; the message is NewOrderFor the new counter |
| `FixClient.Application.SendCancelOrder` | src/fix_client.py:193-209 | orderID rises by exactly 1 and the cancel request carries it with the original ClOrdID, symbol and side |
| `Reconciliation.CashFlowIsNegatedCost` | src/statistics.py:52-57 | a trade's PnL contribution is the negation of the cost it adds to the ledger |
| `Reconciliation.ReplayMatchesStatistics` | src/order_manager.py:62-97 | replaying update_position over a history from an empty ledger gives entries for exactly the traded symbols, each with the net quantity as position and the negated PnL as cost |
| `Reconciliation.TrackedFillKeepsLedgerInStep` | src/fix_client.py:119-139 | a fill on a tracked order keeps the ledger in step with the trade history |
| `Reconciliation.UntrackedFillBreaksAgreement` | src/fix_client.py:126-127 | a fill for an untracked ClOrdID opens a position with no trade record, so ledger and history disagree |

## Findings

| source | as written | input that shows it | evidently intended | confidence | as-written member | corrected member |
|---|---|---|---|---|---|---|
| src/statistics.py:54-57 | `calculate_pnl` compares each trade's side with the integers 1, 2 and 5. The side stored in a trade comes from the Side field, a one-character string such as `'1'`, so no comparison ever holds and no trade moves the PnL | trades BUY 10 at 100 and SELL 10 at 110 of one symbol give PnL 0 | +100, with buys counting negative and sells and short sells positive (the comments name BUY and SELL or SHORT) | medium: assumes the engine's Python binding returns Side as a one-character string, as the comparison with fix.Side_BUY in src/order_manager.py:78 suggests; not executed | `Statistics.PnlAsWrittenIsZero`, `Statistics.PnlAsWrittenMissesRoundTrip`, `Statistics.CalculatePnlAsWritten` | `Statistics.CalculatePnl`, `Statistics.PnlExample`, `Statistics.CalculateStatistics`, `Reconciliation.ReplayMatchesStatistics`, `Reconciliation.TrackedFillKeepsLedgerInStep` |

## Left out

- Session callbacks and transport (`onCreate`, `onLogon`, `onLogout`, `toAdmin`, `fromAdmin`, `toApp`, `fix.Session.sendToTarget`): these are calls into the FIX engine. The outbound messages are returned as values instead of being sent.
- Logging: every `logging` call is dropped, and so is `onOrderCancelReject`, which only logs.
- Field extraction with `getField`: a report is a record of optional fields. A missing field ends the handler with `FieldNotFound(tag)` and changes nothing, as the engine's exception would.
- `generate_random_orders` and `generate_random_cancellations`: these are a load generator driven by `random`, the clock and `time.sleep`.
- `src/main.py` and `src/logger.py`: bootstrap, configuration, threads and log colouring.
- `print_statistics`, `print_total_volume`, `print_pnl`: console output only.
- Concurrency: the source has no locking, and the model runs one operation at a time.
- Orders are values in the `activeOrders` map. The source's in-place change to the order dictionary is a replacement of the map entry. Nothing else refers to that dictionary.
- Floating point: prices and notionals are exact reals and quantities are integers. The engine's float quantities are not modelled.
- `Statistics.CalculateTotalVolume`: `round(v, 2)` on binary floats is the caller-supplied `round2`. The contract states which value is rounded, not what rounding yields.
- `Statistics.CalculateVwap`: rounding as above. Also requires each traded symbol's quantities to sum to a non-zero value, where the source would raise ZeroDivisionError.
- `Statistics.CalculateStatistics`: same rounding and precondition as the two above. Its pnl table is the corrected `PnlOf`; as written, calculate_statistics (src/statistics.py:101) returns 0 for every symbol (`PnlAsWrittenIsZero`, `CalculatePnlAsWritten`).
- `FixClient.Application.SendOrder`: the ClOrdID text `"<orderID>_<milliseconds>"` and the TransactTime, HandlInst and Text fields are not modelled. The message carries only the counter value.
- `FixClient.Application.SendCancelOrder`: the ClOrdID `str(orderID)` is carried as the number itself.
- `execID`: it is initialised and never used. The model keeps it only in the constructor.
- The side constants `fix.Side_BUY`, `fix.Side_SELL` and `fix.Side_SELL_SHORT` are the FIX tag 54 codes `'1'`, `'2'` and `'5'`, and `ExecType`/`OrdType` are closed variants over the codes the source distinguishes: ExecType `'0'`, `'1'`, `'2'`, `'4'` and OrdType `'1'`, `'2'`. The variants `ExecOther` and `OtherOrdType` stand for every other code and carry none, so a distinguished code cannot be written as "other".
