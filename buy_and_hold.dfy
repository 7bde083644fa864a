/**
 * BuyAndHoldEvenly: on its first call, split the trader's cash evenly over
 * the market; never again (src/main/java/com/strategy/BuyAndHoldEvenly.java).
 */
module BuyAndHold {
  import opened Stocks
  import opened Ledgers
  import opened DecisionTotals

  /** The loop of makeDecision: every market symbol mapped to amount, in list order. */
  function Spread(quotes: seq<Quote>, amount: real): Decision {
    if quotes == [] then map[]
    else Spread(quotes[..|quotes| - 1], amount)[quotes[|quotes| - 1].symbol := amount]
  }

  /** The decision of one call, given whether the strategy has already fired. */
  function Allocation(quotes: seq<Quote>, cash: real, hasBought: bool): Decision {
    if !hasBought && |quotes| > 0 then Spread(quotes, cash / |quotes| as real) else map[]
  }

  /** Spread maps exactly the market symbols, each to the amount. */
  lemma {:induction false} SpreadEntries(quotes: seq<Quote>, amount: real)
    ensures Spread(quotes, amount).Keys == Symbols(quotes)
    ensures forall s :: s in Spread(quotes, amount) ==> Spread(quotes, amount)[s] == amount
  {
    if quotes != [] {
      var init := quotes[..|quotes| - 1];
      SpreadEntries(init, amount);
      assert Symbols(quotes) == Symbols(init) + {quotes[|quotes| - 1].symbol} by {
        assert quotes == init + [quotes[|quotes| - 1]];
      }
    }
  }

  /** A first call on a non-empty market gives every symbol cash / N, and nothing else. */
  lemma {:induction false} AllocationEntries(quotes: seq<Quote>, cash: real)
    requires |quotes| > 0
    ensures Allocation(quotes, cash, false).Keys == Symbols(quotes)
    ensures forall k :: 0 <= k < |quotes| ==>
      Amount(Allocation(quotes, cash, false), quotes[k].symbol) == cash / |quotes| as real
  {
    SpreadEntries(quotes, cash / |quotes| as real);
    forall k | 0 <= k < |quotes|
      ensures quotes[k].symbol in Symbols(quotes)
    {
    }
  }

  /** Once fired, or on an empty market, a call decides nothing. */
  lemma {:induction false} AllocationEmpty(quotes: seq<Quote>, cash: real, hasBought: bool)
    requires hasBought || |quotes| == 0
    ensures Allocation(quotes, cash, hasBought) == map[]
  {
  }

  /** With distinct symbols, the first allocation adds up to exactly the trader's cash. */
  lemma {:induction false} AllocationSumsToCash(quotes: seq<Quote>, cash: real)
    requires |quotes| > 0 && DistinctSymbols(quotes)
    ensures Total(Allocation(quotes, cash, false), quotes) == cash
  {
    var n := |quotes|;
    AllocationEntries(quotes, cash);
    TotalUniform(Allocation(quotes, cash, false), quotes, cash / n as real);
    EvenShares(n, cash, cash / n as real);
  }

  /** The TraderTest scenario: 1000 cash over AAPL at 150 and GOOG at 200 buys 3 and 2 shares and leaves 150. */
  lemma {:induction false} TraderTestExample()
    ensures var quotes := [Quote("AAPL", [StockData(0, 150.0)], 0), Quote("GOOG", [StockData(0, 200.0)], 0)];
      Execute(Ledger(1000.0, map[]), quotes, Allocation(quotes, 1000.0, false))
        == Ledger(150.0, map["AAPL" := 3, "GOOG" := 2])
  {
    var aapl, goog := Quote("AAPL", [StockData(0, 150.0)], 0), Quote("GOOG", [StockData(0, 200.0)], 0);
    var quotes := [aapl, goog];
    assert quotes[..1] == [aapl] && [aapl][..0] == [];
    assert Spread([aapl], 500.0) == map["AAPL" := 500.0];
    var d := Allocation(quotes, 1000.0, false);
    assert d == map["AAPL" := 500.0, "GOOG" := 500.0];
    assert Quantity(500.0, 150.0) == 3 by { assert (500.0 / 150.0).Floor == 3; }
    assert Quantity(500.0, 200.0) == 2 by { assert (500.0 / 200.0).Floor == 2; }
    assert Execute(Ledger(1000.0, map[]), [], d) == Ledger(1000.0, map[]);
    var first := Execute(Ledger(1000.0, map[]), [aapl], d);
    assert first == ExecuteOne(Ledger(1000.0, map[]), aapl, d);
    assert first == Ledger(550.0, map["AAPL" := 3]);
    assert ExecuteOne(first, goog, d) == Ledger(150.0, map["AAPL" := 3, "GOOG" := 2]);
  }

  class BuyAndHoldEvenly {
    var hasBought: bool

    constructor ()
      ensures !hasBought
    {
      hasBought := false;
    }

    method MakeDecision(marketStocks: seq<Stock>, trader: Ledger) returns (decisionMap: Decision)
      modifies this
      ensures hasBought
      ensures decisionMap == Allocation(Views(marketStocks), trader.cash, old(hasBought))
    {
      ghost var quotes := Views(marketStocks);
      decisionMap := map[];
      if !hasBought && |marketStocks| > 0 {
        var capital := trader.cash;
        var numStocks := |marketStocks|;
        var allocationPerStock := capital / numStocks as real;
        var i := 0;
        while i < numStocks
          invariant 0 <= i <= numStocks
          invariant decisionMap == Spread(quotes[..i], allocationPerStock)
        {
          assert quotes[..i + 1][..i] == quotes[..i];
          decisionMap := decisionMap[marketStocks[i].symbol := allocationPerStock];
          i := i + 1;
        }
        assert quotes[..numStocks] == quotes;
      }
      hasBought := true;
    }
  }
}
