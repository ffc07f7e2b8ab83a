/** Trading statistics over the trade history (src/statistics.py): per-symbol volume, PnL under
    the cash-flow sign convention, and VWAP.

    Each calculate_* function of the source builds its dictionary in a loop over the trades; here
    each is a method with that loop, proved against a fold over the trade sequence (VolumeOf,
    QuantityOf, PnlOf) that adds the trades up one at a time. The rounding to two
    decimal places that the source applies is passed in as `round2`. */
module Statistics {
  import opened Trading

  /** The three per-symbol tables calculate_statistics returns, under
      'total_volume', 'pnl' and 'vwap'. */
  datatype Statistics = Statistics(
    totalVolume: map<Symbol, real>,
    pnl: map<Symbol, real>,
    vwap: map<Symbol, real>)

  /** The symbols that occur in a trade history. */
  function Symbols(ts: seq<Trade>): set<Symbol> {
    set i | 0 <= i < |ts| :: ts[i].symbol
  }

  /** Sum of price * quantity over the trades of symbol `s`. */
  function VolumeOf(ts: seq<Trade>, s: Symbol): real {
    if ts == [] then 0.0
    else
      var t := ts[|ts| - 1];
      VolumeOf(ts[..|ts| - 1], s) + (if t.symbol == s then Notional(t.price, t.quantity) else 0.0)
  }

  /** Sum of the quantities of the trades of symbol `s`. */
  function QuantityOf(ts: seq<Trade>, s: Symbol): int {
    if ts == [] then 0
    else
      var t := ts[|ts| - 1];
      QuantityOf(ts[..|ts| - 1], s) + (if t.symbol == s then t.quantity else 0)
  }

  /** Cash flow of one trade: a buy pays its notional, a sell or short sell receives it,
      any other side code moves nothing. */
  function CashFlow(t: Trade): real {
    if t.side == SIDE_BUY then -Notional(t.price, t.quantity)
    else if t.side == SIDE_SELL || t.side == SIDE_SELL_SHORT then Notional(t.price, t.quantity)
    else 0.0
  }

  /** Realised PnL of symbol `s`: the sum of the cash flows of its trades. */
  function PnlOf(ts: seq<Trade>, s: Symbol): real {
    if ts == [] then 0.0
    else
      var t := ts[|ts| - 1];
      PnlOf(ts[..|ts| - 1], s) + (if t.symbol == s then CashFlow(t) else 0.0)
  }

  /** Volume-weighted average price of symbol `s`, before rounding. */
  function VwapOf(ts: seq<Trade>, s: Symbol): real
    requires QuantityOf(ts, s) != 0
  {
    VolumeOf(ts, s) / QuantityOf(ts, s) as real
  }

  // ---------------------------------------------------------------------------------------
  // Facts about the folds

  /** Extending a prefix of the history by one trade. */
  lemma PrefixStep(ts: seq<Trade>, i: int)
    requires 0 <= i < |ts|
    ensures ts[..i + 1][..i] == ts[..i] && ts[..i + 1][i] == ts[i]
    ensures Symbols(ts[..i + 1]) == Symbols(ts[..i]) + {ts[i].symbol}
  {
  }

  /** A symbol that does not occur in the history has no volume, no quantity and no PnL. */
  lemma {:induction false} AbsentSymbol(ts: seq<Trade>, s: Symbol)
    requires s !in Symbols(ts)
    ensures VolumeOf(ts, s) == 0.0 && QuantityOf(ts, s) == 0 && PnlOf(ts, s) == 0.0
  {
    if ts != [] {
      var n := |ts| - 1;
      PrefixStep(ts, n);
      assert ts[..n + 1] == ts;
      AbsentSymbol(ts[..n], s);
    }
  }

  /** Volume distributes over concatenation of histories. */
  lemma {:induction false} VolumeOfAppend(a: seq<Trade>, b: seq<Trade>, s: Symbol)
    ensures VolumeOf(a + b, s) == VolumeOf(a, s) + VolumeOf(b, s)
  {
    if b == [] {
      assert a + b == a;
    } else {
      var n := |b| - 1;
      assert (a + b)[..|a + b| - 1] == a + b[..n];
      VolumeOfAppend(a, b[..n], s);
    }
  }

  /** PnL distributes over concatenation of histories. */
  lemma {:induction false} PnlOfAppend(a: seq<Trade>, b: seq<Trade>, s: Symbol)
    ensures PnlOf(a + b, s) == PnlOf(a, s) + PnlOf(b, s)
  {
    if b == [] {
      assert a + b == a;
    } else {
      var n := |b| - 1;
      assert (a + b)[..|a + b| - 1] == a + b[..n];
      PnlOfAppend(a, b[..n], s);
    }
  }

  /** When every trade of `s` went through at price p, its volume is p times its quantity. */
  lemma {:induction false} VolumeAtUniformPrice(ts: seq<Trade>, s: Symbol, p: real)
    requires forall i :: 0 <= i < |ts| && ts[i].symbol == s ==> ts[i].price == p
    ensures VolumeOf(ts, s) == p * QuantityOf(ts, s) as real
  {
    if ts != [] {
      var n := |ts| - 1;
      var init := ts[..n];
      assert forall i :: 0 <= i < |init| && init[i].symbol == s ==> init[i].price == p by {
        forall i | 0 <= i < |init| ensures init[i] == ts[i] { }
      }
      VolumeAtUniformPrice(init, s, p);
    }
  }

  /** ...and so its VWAP is that price. */
  lemma VwapAtUniformPrice(ts: seq<Trade>, s: Symbol, p: real)
    requires forall i :: 0 <= i < |ts| && ts[i].symbol == s ==> ts[i].price == p
    requires QuantityOf(ts, s) != 0
    ensures VwapOf(ts, s) == p
  {
    VolumeAtUniformPrice(ts, s, p);
    var q := QuantityOf(ts, s) as real;
    var w := VwapOf(ts, s);
    assert w * q == p * q;
    assert (w - p) * q == 0.0;
  }

  /** Two trades of 10 at 100 and at 200 have a VWAP of 150. */
  lemma VwapExample()
    ensures var ts := [Trade("MSFT", 100.0, 10, SIDE_BUY), Trade("MSFT", 200.0, 10, SIDE_BUY)];
      QuantityOf(ts, "MSFT") == 20 && VwapOf(ts, "MSFT") == 150.0
  {
    var t0, t1 := Trade("MSFT", 100.0, 10, SIDE_BUY), Trade("MSFT", 200.0, 10, SIDE_BUY);
    var ts := [t0, t1];
    assert ts[..1] == [t0] && [t0][..0] == [];
    assert QuantityOf([t0], "MSFT") == 10 && VolumeOf([t0], "MSFT") == 1000.0;
    assert QuantityOf(ts, "MSFT") == 20 && VolumeOf(ts, "MSFT") == 3000.0;
  }

  /** Buying 10 at 100 and selling 10 at 110 realises a PnL of +100. */
  lemma PnlExample()
    ensures PnlOf([Trade("MSFT", 100.0, 10, SIDE_BUY), Trade("MSFT", 110.0, 10, SIDE_SELL)], "MSFT") == 100.0
  {
    var t0, t1 := Trade("MSFT", 100.0, 10, SIDE_BUY), Trade("MSFT", 110.0, 10, SIDE_SELL);
    var ts := [t0, t1];
    assert ts[..1] == [t0] && [t0][..0] == [];
    assert CashFlow(t0) == -1000.0 && CashFlow(t1) == 1100.0;
    assert PnlOf([t0], "MSFT") == -1000.0;
  }

  // ---------------------------------------------------------------------------------------
  // calculate_pnl as written

  /** Python's `==` between the one-character string that holds a FIX side code and an
      integer literal: a str never equals an int. */
  function PyCharEqualsInt(c: char, n: int): bool {
    false
  }

  /** The cash flow of one trade as statistics.py:54-57 computes it, comparing the side with
      the integers 1, 2 and 5. */
  function CashFlowAsWritten(t: Trade): real {
    if PyCharEqualsInt(t.side, 1) then -Notional(t.price, t.quantity)
    else if PyCharEqualsInt(t.side, 2) || PyCharEqualsInt(t.side, 5) then Notional(t.price, t.quantity)
    else 0.0
  }

  function PnlOfAsWritten(ts: seq<Trade>, s: Symbol): real {
    if ts == [] then 0.0
    else
      var t := ts[|ts| - 1];
      PnlOfAsWritten(ts[..|ts| - 1], s) + (if t.symbol == s then CashFlowAsWritten(t) else 0.0)
  }

  /** As written, every symbol's PnL is zero whatever was traded. */
  lemma {:induction false} PnlAsWrittenIsZero(ts: seq<Trade>, s: Symbol)
    ensures PnlOfAsWritten(ts, s) == 0.0
  {
    if ts != [] {
      PnlAsWrittenIsZero(ts[..|ts| - 1], s);
    }
  }

  /** The round trip of PnlExample: +100 intended, 0 as written. */
  lemma PnlAsWrittenMissesRoundTrip()
    ensures var ts := [Trade("MSFT", 100.0, 10, SIDE_BUY), Trade("MSFT", 110.0, 10, SIDE_SELL)];
      PnlOfAsWritten(ts, "MSFT") == 0.0 && PnlOf(ts, "MSFT") == 100.0
  {
    var ts := [Trade("MSFT", 100.0, 10, SIDE_BUY), Trade("MSFT", 110.0, 10, SIDE_SELL)];
    PnlAsWrittenIsZero(ts, "MSFT");
    PnlExample();
  }

  /** calculate_pnl as written: the source's loop, with the side compared to the integers 1, 2
      and 5 in CashFlowAsWritten. Every traded symbol gets an entry, and every entry stays 0. */
  method CalculatePnlAsWritten(tradeData: seq<Trade>) returns (pnl: map<Symbol, real>)
    ensures pnl.Keys == Symbols(tradeData)
    ensures forall s :: s in pnl ==> pnl[s] == PnlOfAsWritten(tradeData, s) && pnl[s] == 0.0
  {
    pnl := map[];
    for i := 0 to |tradeData|
      invariant pnl.Keys == Symbols(tradeData[..i])
      invariant forall s :: s in pnl ==> pnl[s] == PnlOfAsWritten(tradeData[..i], s)
    {
      var trade := tradeData[i];
      var symbol := trade.symbol;
      PrefixStep(tradeData, i);
      if symbol !in pnl {
        PnlAsWrittenIsZero(tradeData[..i], symbol);
        pnl := pnl[symbol := 0.0];
      }
      pnl := pnl[symbol := pnl[symbol] + CashFlowAsWritten(trade)];
    }
    assert tradeData[..|tradeData|] == tradeData;
    forall s | s in pnl
      ensures pnl[s] == 0.0
    {
      PnlAsWrittenIsZero(tradeData, s);
    }
  }

  // ---------------------------------------------------------------------------------------
  // The calculate_* functions

  method CalculateTotalVolume(tradeData: seq<Trade>, round2: real -> real) returns (totalVolume: map<Symbol, real>)
    ensures totalVolume.Keys == Symbols(tradeData)
    ensures forall s :: s in totalVolume ==> totalVolume[s] == round2(VolumeOf(tradeData, s))
  {
    var sums: map<Symbol, real> := map[];
    for i := 0 to |tradeData|
      invariant sums.Keys == Symbols(tradeData[..i])
      invariant forall s :: s in sums ==> sums[s] == VolumeOf(tradeData[..i], s)
    {
      var trade := tradeData[i];
      var symbol := trade.symbol;
      var volume := Notional(trade.price, trade.quantity);
      PrefixStep(tradeData, i);
      if symbol in sums {
        sums := sums[symbol := sums[symbol] + volume];
      } else {
        AbsentSymbol(tradeData[..i], symbol);
        sums := sums[symbol := volume];
      }
    }
    assert tradeData[..|tradeData|] == tradeData;
    totalVolume := map k | k in sums :: round2(sums[k]);
  }

  method CalculatePnl(tradeData: seq<Trade>) returns (pnl: map<Symbol, real>)
    ensures pnl.Keys == Symbols(tradeData)
    ensures forall s :: s in pnl ==> pnl[s] == PnlOf(tradeData, s)
  {
    pnl := map[];
    for i := 0 to |tradeData|
      invariant pnl.Keys == Symbols(tradeData[..i])
      invariant forall s :: s in pnl ==> pnl[s] == PnlOf(tradeData[..i], s)
    {
      var trade := tradeData[i];
      var symbol := trade.symbol;
      var quantity := trade.quantity;
      var price := trade.price;
      var side := trade.side;
      PrefixStep(tradeData, i);
      if symbol !in pnl {
        AbsentSymbol(tradeData[..i], symbol);
        pnl := pnl[symbol := 0.0];
      }
      if side == SIDE_BUY {
        pnl := pnl[symbol := pnl[symbol] - Notional(price, quantity)];
      } else if side == SIDE_SELL || side == SIDE_SELL_SHORT {
        pnl := pnl[symbol := pnl[symbol] + Notional(price, quantity)];
      }
    }
    assert tradeData[..|tradeData|] == tradeData;
  }

  method CalculateVwap(tradeData: seq<Trade>, round2: real -> real) returns (vwap: map<Symbol, real>)
    requires forall s :: s in Symbols(tradeData) ==> QuantityOf(tradeData, s) != 0
    ensures vwap.Keys == Symbols(tradeData)
    ensures forall s :: s in vwap ==> QuantityOf(tradeData, s) != 0 && vwap[s] == round2(VwapOf(tradeData, s))
  {
    var totalValue: map<Symbol, real> := map[];
    var totalQuantity: map<Symbol, int> := map[];
    for i := 0 to |tradeData|
      invariant totalValue.Keys == totalQuantity.Keys == Symbols(tradeData[..i])
      invariant forall s :: s in totalValue ==> totalValue[s] == VolumeOf(tradeData[..i], s)
      invariant forall s :: s in totalQuantity ==> totalQuantity[s] == QuantityOf(tradeData[..i], s)
    {
      var trade := tradeData[i];
      var symbol := trade.symbol;
      var quantity := trade.quantity;
      var price := trade.price;
      PrefixStep(tradeData, i);
      if symbol in totalValue {
        totalValue := totalValue[symbol := totalValue[symbol] + Notional(price, quantity)];
        totalQuantity := totalQuantity[symbol := totalQuantity[symbol] + quantity];
      } else {
        AbsentSymbol(tradeData[..i], symbol);
        totalValue := totalValue[symbol := Notional(price, quantity)];
        totalQuantity := totalQuantity[symbol := quantity];
      }
    }
    assert tradeData[..|tradeData|] == tradeData;

    vwap := map[];
    var remaining := totalValue.Keys;
    while remaining != {}
      invariant remaining <= totalValue.Keys
      invariant vwap.Keys == totalValue.Keys - remaining
      invariant forall s :: s in vwap ==> QuantityOf(tradeData, s) != 0 && vwap[s] == round2(VwapOf(tradeData, s))
      decreases remaining
    {
      var symbol :| symbol in remaining;
      vwap := vwap[symbol := round2(totalValue[symbol] / totalQuantity[symbol] as real)];
      remaining := remaining - {symbol};
    }
  }

  method CalculateStatistics(tradeData: seq<Trade>, round2: real -> real) returns (stats: Statistics)
    requires forall s :: s in Symbols(tradeData) ==> QuantityOf(tradeData, s) != 0
    ensures stats.totalVolume.Keys == stats.pnl.Keys == stats.vwap.Keys == Symbols(tradeData)
    ensures forall s :: s in Symbols(tradeData) ==>
      stats.totalVolume[s] == round2(VolumeOf(tradeData, s)) &&
      stats.pnl[s] == PnlOf(tradeData, s) &&
      stats.vwap[s] == round2(VwapOf(tradeData, s))
  {
    var totalVolume := CalculateTotalVolume(tradeData, round2);
    var pnl := CalculatePnl(tradeData);
    var vwap := CalculateVwap(tradeData, round2);
    stats := Statistics(totalVolume, pnl, vwap);
  }
}
