/**
 * RSIStrategy (src/main/java/com/strategy/RSIStrategy.java): sell signal
 * when the 14-period RSI is above 70, buy signal when it is below 30, cash
 * split evenly over the buy signals.
 */
module RsiThresholds {
  import opened Stocks
  import opened Ledgers
  import opened EvenSplit
  import opened DecisionTotals

  const RsiMax: real := 70.0
  const RsiMin: real := 30.0
  const Period: int := 14

  /** Per stock: overbought. */
  function RsiSells(quotes: seq<Quote>, ta4j: RsiOracle): (flags: seq<bool>)
    ensures |flags| == |quotes|
    ensures forall k :: 0 <= k < |quotes| ==> (flags[k] <==> Rsi(quotes[k], Period, ta4j) > RsiMax)
  {
    seq(|quotes|, k requires 0 <= k < |quotes| => Rsi(quotes[k], Period, ta4j) > RsiMax)
  }

  /** Per stock: oversold. */
  function RsiBuys(quotes: seq<Quote>, ta4j: RsiOracle): (flags: seq<bool>)
    ensures |flags| == |quotes|
    ensures forall k :: 0 <= k < |quotes| ==> (flags[k] <==> Rsi(quotes[k], Period, ta4j) < RsiMin)
  {
    seq(|quotes|, k requires 0 <= k < |quotes| => Rsi(quotes[k], Period, ta4j) < RsiMin)
  }

  /** The strategy's decision for a market and a trader. */
  function RsiDecision(quotes: seq<Quote>, trader: Ledger, ta4j: RsiOracle): Decision
    requires AllListed(quotes)
  {
    SplitDecision(quotes, RsiSells(quotes, ta4j), RsiBuys(quotes, ta4j), trader)
  }

  /**
   * With distinct symbols: an oversold stock gets cash / k (k the number of
   * oversold stocks), an overbought one gets minus its holding value, one
   * with an RSI in [30, 70] gets no entry, and no other symbol appears.
   */
  lemma {:induction false} RsiEntries(quotes: seq<Quote>, trader: Ledger, ta4j: RsiOracle)
    requires AllListed(quotes) && DistinctSymbols(quotes)
    ensures RsiDecision(quotes, trader, ta4j).Keys <= Symbols(quotes)
    ensures forall k :: 0 <= k < |quotes| ==>
      var s := quotes[k].symbol;
      var d := RsiDecision(quotes, trader, ta4j);
      var rsi := Rsi(quotes[k], Period, ta4j);
      && (rsi < RsiMin ==>
            CountTrue(RsiBuys(quotes, ta4j)) > 0 && s in d && d[s] == trader.cash / CountTrue(RsiBuys(quotes, ta4j)) as real)
      && (rsi > RsiMax ==> s in d && d[s] == -StockTotalValue(trader.portfolio, quotes[k]))
      && (RsiMin <= rsi <= RsiMax ==> s !in d)
  {
    SplitDecisionEntries(quotes, RsiSells(quotes, ta4j), RsiBuys(quotes, ta4j), trader);
  }

  /** A stock whose cursor is below 14 has the neutral RSI and gets no entry. */
  lemma {:induction false} YoungStockNoEntry(quotes: seq<Quote>, trader: Ledger, ta4j: RsiOracle, k: nat)
    requires AllListed(quotes) && DistinctSymbols(quotes)
    requires k < |quotes| && quotes[k].index < Period
    ensures quotes[k].symbol !in RsiDecision(quotes, trader, ta4j)
  {
    RsiNeutralBelowPeriod(quotes[k], Period, ta4j);
    RsiEntries(quotes, trader, ta4j);
  }

  /**
   * With distinct symbols, positive prices, non-negative holdings and
   * positive cash: when some stock is oversold, the positive entries add up
   * to exactly the cash; otherwise there is no positive entry.
   */
  lemma {:induction false} RsiBuysSumToCash(quotes: seq<Quote>, trader: Ledger, ta4j: RsiOracle)
    requires AllTradable(quotes) && DistinctSymbols(quotes)
    requires PositiveHoldings(trader.portfolio) && trader.cash > 0.0
    ensures CountTrue(RsiBuys(quotes, ta4j)) > 0 ==>
      Total(PositivePart(RsiDecision(quotes, trader, ta4j)), quotes) == trader.cash
    ensures CountTrue(RsiBuys(quotes, ta4j)) == 0 ==> PositivePart(RsiDecision(quotes, trader, ta4j)) == map[]
  {
    if CountTrue(RsiBuys(quotes, ta4j)) > 0 {
      SplitBuysSumToCash(quotes, RsiSells(quotes, ta4j), RsiBuys(quotes, ta4j), trader);
    } else {
      SplitNoBuyNoPositive(quotes, RsiSells(quotes, ta4j), RsiBuys(quotes, ta4j), trader);
    }
  }

  /** makeDecision's first loop: minus the holding value on each overbought stock. */
  method SellSignals(marketStocks: seq<Stock>, trader: Ledger, ta4j: RsiOracle) returns (decision: Decision)
    requires MarketListed(marketStocks)
    modifies marketStocks
    ensures MarketListed(marketStocks) && Views(marketStocks) == old(Views(marketStocks))
    ensures decision == SellPass(Views(marketStocks), RsiSells(Views(marketStocks), ta4j), trader)
  {
    ghost var quotes := Views(marketStocks);
    ghost var sells := RsiSells(quotes, ta4j);
    decision := map[];
    var i := 0;
    while i < |marketStocks|
      invariant 0 <= i <= |marketStocks|
      invariant MarketListed(marketStocks) && Views(marketStocks) == quotes
      invariant decision == SellPass(quotes[..i], sells[..i], trader)
    {
      var stock := marketStocks[i];
      var rsi := MarketRsi(marketStocks, i, Period, ta4j);
      SellPassStep(quotes, sells, trader, i);
      if rsi > RsiMax {
        decision := decision[stock.symbol := -StockTotalValue(trader.portfolio, stock.View())];
      }
      i := i + 1;
    }
    assert quotes[..i] == quotes && sells[..i] == sells;
  }

  /** makeDecision's second loop: the number of oversold stocks. */
  method CountBuySignals(marketStocks: seq<Stock>, ta4j: RsiOracle) returns (numStocksToBuy: nat)
    requires MarketListed(marketStocks)
    modifies marketStocks
    ensures MarketListed(marketStocks) && Views(marketStocks) == old(Views(marketStocks))
    ensures numStocksToBuy == CountTrue(RsiBuys(Views(marketStocks), ta4j))
  {
    ghost var quotes := Views(marketStocks);
    ghost var buys := RsiBuys(quotes, ta4j);
    numStocksToBuy := 0;
    var i := 0;
    while i < |marketStocks|
      invariant 0 <= i <= |marketStocks|
      invariant MarketListed(marketStocks) && Views(marketStocks) == quotes
      invariant numStocksToBuy == CountTrue(buys[..i])
    {
      var stock := marketStocks[i];
      var rsi := MarketRsi(marketStocks, i, Period, ta4j);
      CountTrueStep(buys, i);
      if rsi < RsiMin {
        numStocksToBuy := numStocksToBuy + 1;
      }
      i := i + 1;
    }
    assert buys[..i] == buys;
  }

  /** makeDecision's third loop: the share on each oversold stock, over the sell entries. */
  method AllocateBuys(marketStocks: seq<Stock>, sold: Decision, cashPerStock: real, ta4j: RsiOracle)
    returns (decision: Decision)
    requires MarketListed(marketStocks)
    modifies marketStocks
    ensures MarketListed(marketStocks) && Views(marketStocks) == old(Views(marketStocks))
    ensures decision == BuyPass(sold, Views(marketStocks), RsiBuys(Views(marketStocks), ta4j), cashPerStock)
  {
    ghost var quotes := Views(marketStocks);
    ghost var buys := RsiBuys(quotes, ta4j);
    decision := sold;
    var i := 0;
    while i < |marketStocks|
      invariant 0 <= i <= |marketStocks|
      invariant MarketListed(marketStocks) && Views(marketStocks) == quotes
      invariant decision == BuyPass(sold, quotes[..i], buys[..i], cashPerStock)
    {
      var stock := marketStocks[i];
      var rsi := MarketRsi(marketStocks, i, Period, ta4j);
      BuyPassStep(sold, quotes, buys, cashPerStock, i);
      if rsi < RsiMin {
        decision := decision[stock.symbol := cashPerStock];
      }
      i := i + 1;
    }
    assert quotes[..i] == quotes && buys[..i] == buys;
  }

  /**
   * makeDecision: overbought entries, then the count, then cash / count on
   * each oversold stock. The stocks keep their views; only their RSI
   * indicator caches change.
   */
  method MakeDecision(marketStocks: seq<Stock>, trader: Ledger, ta4j: RsiOracle) returns (decision: Decision)
    requires MarketListed(marketStocks)
    modifies marketStocks
    ensures MarketListed(marketStocks) && Views(marketStocks) == old(Views(marketStocks))
    ensures AllListed(Views(marketStocks))
    ensures decision == RsiDecision(Views(marketStocks), trader, ta4j)
  {
    decision := SellSignals(marketStocks, trader, ta4j);
    var availableCash := trader.cash;
    var numStocksToBuy := CountBuySignals(marketStocks, ta4j);
    if numStocksToBuy > 0 {
      var cashPerStock := availableCash / numStocksToBuy as real;
      decision := AllocateBuys(marketStocks, decision, cashPerStock, ta4j);
    }
  }
}
