/**
 * MeanReversionStrategy (src/main/java/com/strategy/MeanReversionStrategy.java):
 * one pass over the market; a price more than one standard deviation above
 * the 50-day average sells a held stock, a price more than one standard
 * deviation below it buys with cash / market size.
 */
module MeanReversion {
  import opened Stocks
  import opened Ledgers
  import opened EvenSplit
  import opened DecisionTotals

  const MovingAverageDays: nat := 50
  const Threshold: real := 1.0

  /**
   * gap > Threshold * sd, for sd the square root of the deviation's
   * variance; false for an undefined deviation, as every comparison with NaN
   * is.
   */
  predicate BeyondBand(gap: real, sd: StdDev) {
    sd.OfVariance? && gap > 0.0 && gap * gap > Threshold * Threshold * sd.variance
  }

  lemma {:induction false} PositiveProduct(x: real, y: real)
    requires x > 0.0 && y > 0.0
    ensures x * y > 0.0
  {
  }

  lemma {:induction false} SquareMonotone(a: real, b: real)
    requires 0.0 <= a <= b
    ensures a * a <= b * b
    ensures a < b ==> a * a < b * b
  {
    assert b * b - a * a == (b - a) * (b + a);
    if a < b {
      PositiveProduct(b - a, b + a);
    }
  }

  /** The band test on variances agrees with the one on square roots. */
  lemma {:induction false} BeyondBandMeaning(gap: real, sd: StdDev, root: real)
    requires sd.RootIs(root)
    ensures BeyondBand(gap, sd) <==> gap > Threshold * root
  {
    if gap > root {
      SquareMonotone(root, gap);
    }
    if BeyondBand(gap, sd) && gap <= root {
      SquareMonotone(gap, root);
    }
  }

  /** The price sits above the upper band. */
  predicate AboveUpperBand(q: Quote)
    requires q.Listed()
  {
    BeyondBand(q.Price() - MovingAverage(q, MovingAverageDays), StandardDeviation(q, MovingAverageDays))
  }

  /** The price sits below the lower band. */
  predicate BelowLowerBand(q: Quote)
    requires q.Listed()
  {
    BeyondBand(MovingAverage(q, MovingAverageDays) - q.Price(), StandardDeviation(q, MovingAverageDays))
  }

  /** The two bands never fire together, and neither fires on an undefined deviation. */
  lemma {:induction false} BandsExclusive(q: Quote)
    requires q.Listed()
    ensures !(AboveUpperBand(q) && BelowLowerBand(q))
    ensures q.index == 0 ==> !AboveUpperBand(q) && !BelowLowerBand(q)
  {
    StdDevUndefinedIff(q, MovingAverageDays);
  }

  /** One iteration: sell a held stock above the band, buy below it. */
  function ReversionStep(d: Decision, q: Quote, trader: Ledger, marketSize: nat): Decision
    requires q.Listed() && marketSize > 0
  {
    var sold :=
      if AboveUpperBand(q) && q.symbol in trader.portfolio
      then d[q.symbol := -StockTotalValue(trader.portfolio, q)]
      else d;
    if BelowLowerBand(q) then sold[q.symbol := trader.cash / marketSize as real] else sold
  }

  /** The loop over a prefix of the market, in list order. */
  function ReversionPass(quotes: seq<Quote>, trader: Ledger, marketSize: nat): Decision
    requires AllListed(quotes) && (quotes != [] ==> marketSize > 0)
  {
    if quotes == [] then map[]
    else
      var n := |quotes| - 1;
      ReversionStep(ReversionPass(quotes[..n], trader, marketSize), quotes[n], trader, marketSize)
  }

  /** One more iteration of the loop. */
  lemma {:induction false} ReversionPassStep(quotes: seq<Quote>, trader: Ledger, marketSize: nat, i: nat)
    requires AllListed(quotes) && marketSize > 0 && i < |quotes|
    ensures ReversionPass(quotes[..i + 1], trader, marketSize)
      == ReversionStep(ReversionPass(quotes[..i], trader, marketSize), quotes[i], trader, marketSize)
  {
    assert quotes[..i + 1][..i] == quotes[..i];
  }

  /** The strategy's decision for a market and a trader. */
  function ReversionDecision(quotes: seq<Quote>, trader: Ledger): Decision
    requires AllListed(quotes)
  {
    ReversionPass(quotes, trader, |quotes|)
  }

  /** What one stock contributes, given its bands and the trader. */
  ghost predicate ReversionEntry(d: Decision, q: Quote, trader: Ledger, marketSize: nat)
    requires q.Listed() && marketSize > 0
  {
    var s := q.symbol;
    && (BelowLowerBand(q) ==> s in d && d[s] == trader.cash / marketSize as real)
    && (AboveUpperBand(q) && s in trader.portfolio ==> s in d && d[s] == -StockTotalValue(trader.portfolio, q))
    && (AboveUpperBand(q) && s !in trader.portfolio ==> s !in d)
    && (!AboveUpperBand(q) && !BelowLowerBand(q) ==> s !in d)
  }

  /**
   * With distinct symbols: a stock below the lower band gets cash / market
   * size, a held stock above the upper band gets minus its holding value, an
   * unheld one above it and one inside the bands get no entry, and no other
   * symbol appears.
   */
  lemma {:induction false} ReversionPassEntries(quotes: seq<Quote>, trader: Ledger, marketSize: nat)
    requires AllListed(quotes) && DistinctSymbols(quotes) && marketSize > 0
    ensures ReversionPass(quotes, trader, marketSize).Keys <= Symbols(quotes)
    ensures forall k :: 0 <= k < |quotes| ==>
      ReversionEntry(ReversionPass(quotes, trader, marketSize), quotes[k], trader, marketSize)
  {
    if quotes != [] {
      var n := |quotes| - 1;
      var init := quotes[..n];
      var q := quotes[n];
      LastSymbolFresh(quotes);
      SymbolsSnoc(quotes);
      ReversionPassEntries(init, trader, marketSize);
      var d := ReversionPass(init, trader, marketSize);
      var e := ReversionPass(quotes, trader, marketSize);
      BandsExclusive(q);
      forall k | 0 <= k < n
        ensures init[k] == quotes[k] && quotes[k].symbol != q.symbol
      {
      }
      forall k | 0 <= k < n ensures ReversionEntry(e, quotes[k], trader, marketSize) {
        assert ReversionEntry(d, init[k], trader, marketSize);
      }
    }
  }

  lemma {:induction false} ReversionEntries(quotes: seq<Quote>, trader: Ledger)
    requires AllListed(quotes) && DistinctSymbols(quotes)
    ensures ReversionDecision(quotes, trader).Keys <= Symbols(quotes)
    ensures forall k :: 0 <= k < |quotes| ==> ReversionEntry(ReversionDecision(quotes, trader), quotes[k], trader, |quotes|)
  {
    if quotes != [] {
      ReversionPassEntries(quotes, trader, |quotes|);
    }
  }

  /** Per stock: below the lower band. */
  function BuyFlags(quotes: seq<Quote>): (flags: seq<bool>)
    requires AllListed(quotes)
    ensures |flags| == |quotes| && forall k :: 0 <= k < |quotes| ==> (flags[k] <==> BelowLowerBand(quotes[k]))
  {
    seq(|quotes|, k requires 0 <= k < |quotes| => BelowLowerBand(quotes[k]))
  }

  /**
   * With distinct symbols, positive prices, non-negative holdings and
   * positive cash, the positive entries are exactly cash / market size on the
   * stocks below the lower band.
   */
  lemma {:induction false} ReversionPositiveEntries(quotes: seq<Quote>, trader: Ledger)
    requires AllTradable(quotes) && DistinctSymbols(quotes) && quotes != []
    requires PositiveHoldings(trader.portfolio) && trader.cash > 0.0
    ensures forall k :: 0 <= k < |quotes| ==>
      Amount(PositivePart(ReversionDecision(quotes, trader)), quotes[k].symbol)
        == (if BuyFlags(quotes)[k] then trader.cash / |quotes| as real else 0.0)
  {
    var d := ReversionDecision(quotes, trader);
    var share := trader.cash / |quotes| as real;
    assert share > 0.0;
    ReversionEntries(quotes, trader);
    forall k | 0 <= k < |quotes|
      ensures Amount(PositivePart(d), quotes[k].symbol) == (if BuyFlags(quotes)[k] then share else 0.0)
    {
      assert ReversionEntry(d, quotes[k], trader, |quotes|);
      BandsExclusive(quotes[k]);
      if AboveUpperBand(quotes[k]) {
        SellAmountNonPositive(trader.portfolio, quotes[k]);
      }
    }
  }

  /** At most n shares of cash / n come to at most the cash. */
  lemma {:induction false} FewerShares(count: real, n: real, share: real, cash: real)
    requires 0.0 <= count <= n && share >= 0.0 && n * share == cash
    ensures count * share <= cash
  {
    assert (n - count) * share >= 0.0;
  }

  /** Shares of cash / n on some of n stocks, and nothing else, add up to at most the cash. */
  lemma {:induction false} FlaggedSharesWithinCash(decision: Decision, quotes: seq<Quote>, flags: seq<bool>, cash: real)
    requires |flags| == |quotes| && quotes != [] && cash > 0.0
    requires forall k :: 0 <= k < |quotes| ==>
      Amount(decision, quotes[k].symbol) == (if flags[k] then cash / |quotes| as real else 0.0)
    ensures Total(decision, quotes) <= cash
  {
    var share := cash / |quotes| as real;
    EvenShares(|quotes|, cash, share);
    FlaggedWithinCash(decision, quotes, flags, share, cash);
  }

  /** Flagged shares of an n-th of the cash, on n stocks, add up to at most the cash. */
  lemma {:induction false} FlaggedWithinCash(decision: Decision, quotes: seq<Quote>, flags: seq<bool>, share: real, cash: real)
    requires |flags| == |quotes| && share >= 0.0 && |quotes| as real * share == cash
    requires forall k :: 0 <= k < |quotes| ==>
      Amount(decision, quotes[k].symbol) == (if flags[k] then share else 0.0)
    ensures Total(decision, quotes) <= cash
  {
    TotalOfFlagged(decision, quotes, flags, share);
    FewerShares(CountTrue(flags) as real, |quotes| as real, share, cash);
  }

  /**
   * Under the same conditions, the buy entries add up to at most the cash:
   * each is cash / market size and at most every stock has one.
   */
  lemma {:induction false} ReversionBuysWithinCash(quotes: seq<Quote>, trader: Ledger)
    requires AllTradable(quotes) && DistinctSymbols(quotes)
    requires PositiveHoldings(trader.portfolio) && trader.cash > 0.0
    ensures Total(PositivePart(ReversionDecision(quotes, trader)), quotes) <= trader.cash
  {
    if quotes != [] {
      ReversionPositiveEntries(quotes, trader);
      FlaggedSharesWithinCash(PositivePart(ReversionDecision(quotes, trader)), quotes, BuyFlags(quotes), trader.cash);
    }
  }

  /** makeDecision: the single loop over the market list. */
  method MakeDecision(marketStocks: seq<Stock>, trader: Ledger) returns (decision: Decision)
    requires MarketListed(marketStocks)
    ensures AllListed(Views(marketStocks))
    ensures decision == ReversionDecision(Views(marketStocks), trader)
  {
    ghost var quotes := Views(marketStocks);
    decision := map[];
    var i := 0;
    while i < |marketStocks|
      invariant 0 <= i <= |marketStocks|
      invariant decision == ReversionPass(quotes[..i], trader, |marketStocks|)
    {
      ReversionPassStep(quotes, trader, |marketStocks|, i);
      decision := Visit(marketStocks[i], decision, trader, |marketStocks|);
      i := i + 1;
    }
    assert quotes[..i] == quotes;
  }

  /** The body of makeDecision's loop for one stock. */
  method Visit(stock: Stock, decision: Decision, trader: Ledger, marketSize: nat) returns (next: Decision)
    requires stock.Valid() && stock.View().Listed() && marketSize > 0
    ensures next == ReversionStep(decision, stock.View(), trader, marketSize)
  {
    var sma := stock.CalculateMovingAverage(MovingAverageDays);
    var stdDev := stock.CalculateStandardDeviation(MovingAverageDays);
    var currentPrice := stock.GetCurrentPrice();
    var symbol := stock.symbol;
    next := decision;
    if BeyondBand(currentPrice - sma, stdDev) {
      if symbol in trader.portfolio {
        next := next[symbol := -StockTotalValue(trader.portfolio, stock.View())];
      }
    }
    if BeyondBand(sma - currentPrice, stdDev) {
      var amountToInvest := trader.cash / marketSize as real;
      next := next[symbol := amountToInvest];
    }
  }
}
