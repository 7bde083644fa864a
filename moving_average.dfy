/**
 * MovingAverageStrategy (src/main/java/com/strategy/MovingAverageStrategy.java):
 * sell signal when the 50-day average is below the 200-day average, buy
 * signal when it is above, cash split evenly over the buy signals.
 */
module MovingAverageCrossover {
  import opened Stocks
  import opened Ledgers
  import opened EvenSplit
  import opened DecisionTotals

  const ShortTermDays: nat := 50
  const LongTermDays: nat := 200

  /** Per stock: the short-term average is below the long-term one. */
  function CrossSells(quotes: seq<Quote>): (flags: seq<bool>)
    requires AllListed(quotes)
    ensures |flags| == |quotes|
    ensures forall k :: 0 <= k < |quotes| ==>
      (flags[k] <==> MovingAverage(quotes[k], ShortTermDays) < MovingAverage(quotes[k], LongTermDays))
  {
    seq(|quotes|, k requires 0 <= k < |quotes| =>
      MovingAverage(quotes[k], ShortTermDays) < MovingAverage(quotes[k], LongTermDays))
  }

  /** Per stock: the short-term average is above the long-term one. */
  function CrossBuys(quotes: seq<Quote>): (flags: seq<bool>)
    requires AllListed(quotes)
    ensures |flags| == |quotes|
    ensures forall k :: 0 <= k < |quotes| ==>
      (flags[k] <==> MovingAverage(quotes[k], ShortTermDays) > MovingAverage(quotes[k], LongTermDays))
  {
    seq(|quotes|, k requires 0 <= k < |quotes| =>
      MovingAverage(quotes[k], ShortTermDays) > MovingAverage(quotes[k], LongTermDays))
  }

  /** The strategy's decision for a market and a trader. */
  function CrossoverDecision(quotes: seq<Quote>, trader: Ledger): Decision
    requires AllListed(quotes)
  {
    SplitDecision(quotes, CrossSells(quotes), CrossBuys(quotes), trader)
  }

  /**
   * With distinct symbols: a stock whose short-term average is above the
   * long-term one gets cash / k (k the number of such stocks), one whose
   * average is below gets minus its holding value, one whose averages are
   * equal gets no entry, and no other symbol appears.
   */
  lemma {:induction false} CrossoverEntries(quotes: seq<Quote>, trader: Ledger)
    requires AllListed(quotes) && DistinctSymbols(quotes)
    ensures CrossoverDecision(quotes, trader).Keys <= Symbols(quotes)
    ensures forall k :: 0 <= k < |quotes| ==>
      var s := quotes[k].symbol;
      var d := CrossoverDecision(quotes, trader);
      var short := MovingAverage(quotes[k], ShortTermDays);
      var long := MovingAverage(quotes[k], LongTermDays);
      && (short > long ==>
            CountTrue(CrossBuys(quotes)) > 0 && s in d && d[s] == trader.cash / CountTrue(CrossBuys(quotes)) as real)
      && (short < long ==> s in d && d[s] == -StockTotalValue(trader.portfolio, quotes[k]))
      && (short == long ==> s !in d)
  {
    var sells, buys := CrossSells(quotes), CrossBuys(quotes);
    SplitDecisionEntries(quotes, sells, buys, trader);
    forall k | 0 <= k < |quotes|
      ensures var short := MovingAverage(quotes[k], ShortTermDays);
        var long := MovingAverage(quotes[k], LongTermDays);
        && (buys[k] <==> short > long)
        && (sells[k] <==> short < long)
    {
    }
  }

  /** Up to index 50 both windows start at 0, so the two averages coincide. */
  lemma {:induction false} EarlyAveragesAgree(q: Quote)
    requires q.Listed() && q.index <= ShortTermDays
    ensures MovingAverage(q, ShortTermDays) == MovingAverage(q, LongTermDays)
  {
    assert WindowStart(q.index, ShortTermDays) == 0 == WindowStart(q.index, LongTermDays);
  }

  /** A stock whose cursor is at most 50 gets no entry. */
  lemma {:induction false} EarlyStockNoEntry(quotes: seq<Quote>, trader: Ledger, k: nat)
    requires AllListed(quotes) && DistinctSymbols(quotes)
    requires k < |quotes| && quotes[k].index <= ShortTermDays
    ensures quotes[k].symbol !in CrossoverDecision(quotes, trader)
  {
    EarlyAveragesAgree(quotes[k]);
    CrossoverEntries(quotes, trader);
  }

  /**
   * With distinct symbols, positive prices, non-negative holdings and
   * positive cash: when some stock has a buy signal, the positive entries add
   * up to exactly the cash; otherwise there is no positive entry.
   */
  lemma {:induction false} CrossoverBuysSumToCash(quotes: seq<Quote>, trader: Ledger)
    requires AllTradable(quotes) && DistinctSymbols(quotes)
    requires PositiveHoldings(trader.portfolio) && trader.cash > 0.0
    ensures CountTrue(CrossBuys(quotes)) > 0 ==>
      Total(PositivePart(CrossoverDecision(quotes, trader)), quotes) == trader.cash
    ensures CountTrue(CrossBuys(quotes)) == 0 ==> PositivePart(CrossoverDecision(quotes, trader)) == map[]
  {
    if CountTrue(CrossBuys(quotes)) > 0 {
      SplitBuysSumToCash(quotes, CrossSells(quotes), CrossBuys(quotes), trader);
    } else {
      SplitNoBuyNoPositive(quotes, CrossSells(quotes), CrossBuys(quotes), trader);
    }
  }

  /** The 50-day and 200-day moving averages of one stock. */
  method Averages(stock: Stock) returns (shortTermSMA: real, longTermSMA: real)
    requires stock.Valid() && stock.View().Listed()
    ensures shortTermSMA == MovingAverage(stock.View(), ShortTermDays)
    ensures longTermSMA == MovingAverage(stock.View(), LongTermDays)
  {
    shortTermSMA := stock.CalculateMovingAverage(ShortTermDays);
    longTermSMA := stock.CalculateMovingAverage(LongTermDays);
  }

  /** makeDecision's first loop: minus the holding value on each stock with a sell signal. */
  method SellSignals(marketStocks: seq<Stock>, trader: Ledger) returns (decision: Decision)
    requires MarketListed(marketStocks)
    ensures AllListed(Views(marketStocks))
    ensures decision == SellPass(Views(marketStocks), CrossSells(Views(marketStocks)), trader)
  {
    ghost var quotes := Views(marketStocks);
    ghost var sells := CrossSells(quotes);
    decision := map[];
    var i := 0;
    while i < |marketStocks|
      invariant 0 <= i <= |marketStocks|
      invariant decision == SellPass(quotes[..i], sells[..i], trader)
    {
      decision := SellSignal(marketStocks[i], quotes, sells, i, decision, trader);
      i := i + 1;
    }
    assert quotes[..i] == quotes && sells[..i] == sells;
  }

  /** One pass of the first loop: the i-th stock's sell entry, when its short-term average is below. */
  method SellSignal(stock: Stock, ghost quotes: seq<Quote>, ghost sells: seq<bool>, i: nat, decision: Decision, trader: Ledger)
    returns (next: Decision)
    requires i < |quotes| == |sells| && stock.Valid() && stock.View() == quotes[i] && quotes[i].Listed()
    requires sells[i] <==> MovingAverage(quotes[i], ShortTermDays) < MovingAverage(quotes[i], LongTermDays)
    requires decision == SellPass(quotes[..i], sells[..i], trader)
    ensures next == SellPass(quotes[..i + 1], sells[..i + 1], trader)
  {
    SellPassStep(quotes, sells, trader, i);
    var shortTermSMA, longTermSMA := Averages(stock);
    next := decision;
    if shortTermSMA < longTermSMA {
      next := decision[stock.symbol := -StockTotalValue(trader.portfolio, stock.View())];
    }
  }

  /** makeDecision's second loop: the number of stocks with a buy signal. */
  method CountBuySignals(marketStocks: seq<Stock>) returns (numStocksToBuy: nat)
    requires MarketListed(marketStocks)
    ensures AllListed(Views(marketStocks))
    ensures numStocksToBuy == CountTrue(CrossBuys(Views(marketStocks)))
  {
    ghost var buys := CrossBuys(Views(marketStocks));
    numStocksToBuy := 0;
    var i := 0;
    while i < |marketStocks|
      invariant 0 <= i <= |marketStocks|
      invariant numStocksToBuy == CountTrue(buys[..i])
    {
      var stock := marketStocks[i];
      var shortTermSMA, longTermSMA := Averages(stock);
      CountTrueStep(buys, i);
      if shortTermSMA > longTermSMA {
        numStocksToBuy := numStocksToBuy + 1;
      }
      i := i + 1;
    }
    assert buys[..i] == buys;
  }

  /** makeDecision's third loop: the share on each stock with a buy signal, over the sell entries. */
  method AllocateBuys(marketStocks: seq<Stock>, sold: Decision, cashPerStock: real) returns (decision: Decision)
    requires MarketListed(marketStocks)
    ensures AllListed(Views(marketStocks))
    ensures decision == BuyPass(sold, Views(marketStocks), CrossBuys(Views(marketStocks)), cashPerStock)
  {
    ghost var quotes := Views(marketStocks);
    ghost var buys := CrossBuys(quotes);
    decision := sold;
    var i := 0;
    while i < |marketStocks|
      invariant 0 <= i <= |marketStocks|
      invariant decision == BuyPass(sold, quotes[..i], buys[..i], cashPerStock)
    {
      var stock := marketStocks[i];
      var shortTermSMA, longTermSMA := Averages(stock);
      BuyPassStep(sold, quotes, buys, cashPerStock, i);
      if shortTermSMA > longTermSMA {
        decision := decision[stock.symbol := cashPerStock];
      }
      i := i + 1;
    }
    assert quotes[..i] == quotes && buys[..i] == buys;
  }

  /** makeDecision: sell entries, then the count, then cash / count on each buy signal. */
  method MakeDecision(marketStocks: seq<Stock>, trader: Ledger) returns (decision: Decision)
    requires MarketListed(marketStocks)
    ensures AllListed(Views(marketStocks))
    ensures decision == CrossoverDecision(Views(marketStocks), trader)
  {
    decision := SellSignals(marketStocks, trader);
    var availableCash := trader.cash;
    var numStocksToBuy := CountBuySignals(marketStocks);
    if numStocksToBuy > 0 {
      var cashPerStock := availableCash / numStocksToBuy as real;
      decision := AllocateBuys(marketStocks, decision, cashPerStock);
    }
  }
}
