/** How the position ledger (src/order_manager.py, update_position) relates to the statistics
    over the trade history (src/statistics.py, calculate_pnl): both use the cash-flow sign
    convention, so a ledger fed with exactly the recorded trades holds, per symbol, a total cost
    that is the negated PnL. The interpreter keeps the two in step for fills on tracked orders,
    and a fill for an untracked ClOrdID moves the ledger without recording a trade. */
module Reconciliation {
  import opened Trading
  import opened Orders
  import opened Statistics
  import opened FixClient

  /** update_position applied to every trade of a history in turn. */
  function Replay(b: Book, ts: seq<Trade>): Book {
    if ts == [] then b
    else
      var t := ts[|ts| - 1];
      WithPositionUpdated(Replay(b, ts[..|ts| - 1]), t.symbol, t.price, t.quantity, t.side)
  }

  /** Net quantity bought of symbol `s`: buys count up, sells and short sells down. */
  function NetQuantityOf(ts: seq<Trade>, s: Symbol): int {
    if ts == [] then 0
    else
      var t := ts[|ts| - 1];
      NetQuantityOf(ts[..|ts| - 1], s) + (if t.symbol == s then SideSign(t.side) * t.quantity else 0)
  }

  /** A trade's cash flow is the negation of the cost it adds to the ledger. */
  lemma CashFlowIsNegatedCost(t: Trade)
    ensures CashFlow(t) == -(SideSign(t.side) as real * Notional(t.price, t.quantity))
  {
  }

  /** The ledger replayed from an empty book over a history has an entry for exactly the traded
      symbols; each entry's position is the symbol's net quantity and its cost the negated PnL. */
  lemma {:induction false} ReplayMatchesStatistics(ts: seq<Trade>)
    ensures Replay(EmptyBook, ts).positions.Keys == Symbols(ts)
    ensures forall s :: s in Symbols(ts) ==>
      Replay(EmptyBook, ts).positions[s].position == NetQuantityOf(ts, s) &&
      Replay(EmptyBook, ts).positions[s].totalCost == -PnlOf(ts, s)
  {
    if ts != [] {
      var n := |ts| - 1;
      var t := ts[n];
      var init := ts[..n];
      ReplayMatchesStatistics(init);
      PrefixStep(ts, n);
      assert ts[..n + 1] == ts;
      CashFlowIsNegatedCost(t);
      forall s | s in Symbols(ts)
        ensures Replay(EmptyBook, ts).positions[s].position == NetQuantityOf(ts, s)
        ensures Replay(EmptyBook, ts).positions[s].totalCost == -PnlOf(ts, s)
      {
        if s == t.symbol && s !in Symbols(init) {
          AbsentSymbol(init, s);
          assert NetQuantityOf(init, s) == 0 by { AbsentNetQuantity(init, s); }
        }
      }
    }
  }

  lemma {:induction false} AbsentNetQuantity(ts: seq<Trade>, s: Symbol)
    requires s !in Symbols(ts)
    ensures NetQuantityOf(ts, s) == 0
  {
    if ts != [] {
      var n := |ts| - 1;
      PrefixStep(ts, n);
      assert ts[..n + 1] == ts;
      AbsentNetQuantity(ts[..n], s);
    }
  }

  /** The ledger agrees with the trade history: the same symbols, each cost the negated PnL. */
  predicate LedgerAgrees(b: Book) {
    b.positions.Keys == Symbols(b.tradeData) &&
    forall s :: s in b.positions ==> b.positions[s].totalCost == -PnlOf(b.tradeData, s)
  }

  /** A fill report for a tracked order keeps the ledger and the trade history in step. */
  lemma TrackedFillKeepsLedgerInStep(b: Book, fill: ExecType, id: ClOrdId, orig: ClOrdId, symbol: Symbol,
                                     side: Side, price: real, orderQty: int, lastPx: real, lastQty: int)
    requires fill == ExecPartialFill || fill == ExecFill
    requires id in b.activeOrders
    requires LedgerAgrees(b)
    ensures LedgerAgrees(ApplyReport(b, Report(fill, id, orig, symbol, side, price, orderQty, lastPx, lastQty)).book)
  {
    var r := ApplyReport(b, Report(fill, id, orig, symbol, side, price, orderQty, lastPx, lastQty)).book;
    var t := Trade(symbol, lastPx, lastQty, side);
    TrackedFillReport(b, fill, id, orig, symbol, side, price, orderQty, lastPx, lastQty);
    var n := |b.tradeData|;
    PrefixStep(r.tradeData, n);
    assert r.tradeData[..n + 1] == r.tradeData && r.tradeData[..n] == b.tradeData;
    CashFlowIsNegatedCost(t);
    if symbol !in b.positions {
      AbsentSymbol(b.tradeData, symbol);
    }
  }

  /** A fill report for an untracked ClOrdID on a fresh book leaves the trade history empty but
      opens a position, so the ledger no longer agrees with the statistics. */
  lemma UntrackedFillBreaksAgreement()
    ensures var b := ApplyReport(EmptyBook, Report(ExecFill, "1", "1", "MSFT", SIDE_BUY, 0.0, 10, 100.0, 10)).book;
      b.tradeData == [] && "MSFT" in b.positions && b.positions["MSFT"].position == 10 &&
      !LedgerAgrees(b)
  {
  }
}
