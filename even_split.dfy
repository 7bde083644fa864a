/**
 * The decision shape shared by the moving-average and RSI strategies
 * (src/main/java/com/strategy/MovingAverageStrategy.java and RSIStrategy.java):
 * a first pass puts minus the holding value on every stock with a sell
 * signal, a second pass counts the stocks with a buy signal, and a third
 * pass, only when that count k is positive, puts cash / k on each of them.
 * The signals are given as flags parallel to the market list.
 */
module EvenSplit {
  import opened Stocks
  import opened Ledgers
  import opened DecisionTotals

  /** The first loop: -getStockTotalValue for each flagged stock, in list order. */
  function SellPass(quotes: seq<Quote>, sells: seq<bool>, trader: Ledger): Decision
    requires |sells| == |quotes|
  {
    if quotes == [] then map[]
    else
      var n := |quotes| - 1;
      var d := SellPass(quotes[..n], sells[..n], trader);
      if sells[n] then d[quotes[n].symbol := -StockTotalValue(trader.portfolio, quotes[n])] else d
  }

  /** The second loop: how many flags are set. */
  function CountTrue(flags: seq<bool>): (k: nat)
    ensures k <= |flags|
  {
    if flags == [] then 0
    else CountTrue(flags[..|flags| - 1]) + (if flags[|flags| - 1] then 1 else 0)
  }

  /** The third loop: the amount on each flagged stock, over the decision so far. */
  function BuyPass(d: Decision, quotes: seq<Quote>, buys: seq<bool>, amount: real): Decision
    requires |buys| == |quotes|
  {
    if quotes == [] then d
    else
      var n := |quotes| - 1;
      var e := BuyPass(d, quotes[..n], buys[..n], amount);
      if buys[n] then e[quotes[n].symbol := amount] else e
  }

  /** The whole decision. */
  function SplitDecision(quotes: seq<Quote>, sells: seq<bool>, buys: seq<bool>, trader: Ledger): Decision
    requires |sells| == |quotes| && |buys| == |quotes|
  {
    var sold := SellPass(quotes, sells, trader);
    var k := CountTrue(buys);
    if k > 0 then BuyPass(sold, quotes, buys, trader.cash / k as real) else sold
  }

  /** One more step of the first loop. */
  lemma {:induction false} SellPassStep(quotes: seq<Quote>, sells: seq<bool>, trader: Ledger, i: nat)
    requires |sells| == |quotes| && i < |quotes|
    ensures SellPass(quotes[..i + 1], sells[..i + 1], trader) ==
      var d := SellPass(quotes[..i], sells[..i], trader);
      if sells[i] then d[quotes[i].symbol := -StockTotalValue(trader.portfolio, quotes[i])] else d
  {
    assert quotes[..i + 1][..i] == quotes[..i] && sells[..i + 1][..i] == sells[..i];
  }

  /** One more step of the second loop. */
  lemma {:induction false} CountTrueStep(flags: seq<bool>, i: nat)
    requires i < |flags|
    ensures CountTrue(flags[..i + 1]) == CountTrue(flags[..i]) + (if flags[i] then 1 else 0)
  {
    assert flags[..i + 1][..i] == flags[..i];
  }

  /** One more step of the third loop. */
  lemma {:induction false} BuyPassStep(d: Decision, quotes: seq<Quote>, buys: seq<bool>, amount: real, i: nat)
    requires |buys| == |quotes| && i < |quotes|
    ensures BuyPass(d, quotes[..i + 1], buys[..i + 1], amount) ==
      var e := BuyPass(d, quotes[..i], buys[..i], amount);
      if buys[i] then e[quotes[i].symbol := amount] else e
  {
    assert quotes[..i + 1][..i] == quotes[..i] && buys[..i + 1][..i] == buys[..i];
  }

  /** A set flag makes the count positive. */
  lemma {:induction false} CountTruePositive(flags: seq<bool>, k: nat)
    requires k < |flags| && flags[k]
    ensures CountTrue(flags) > 0
  {
    var n := |flags| - 1;
    if k < n {
      assert flags[..n][k] == flags[k];
      CountTruePositive(flags[..n], k);
    }
  }

  /** No set flag, no count. */
  lemma {:induction false} CountTrueZero(flags: seq<bool>)
    requires forall k :: 0 <= k < |flags| ==> !flags[k]
    ensures CountTrue(flags) == 0
  {
    if flags != [] {
      CountTrueZero(flags[..|flags| - 1]);
    }
  }

  /** With distinct symbols, the sell pass has exactly the flagged stocks as keys. */
  lemma {:induction false} SellPassEntries(quotes: seq<Quote>, sells: seq<bool>, trader: Ledger)
    requires |sells| == |quotes| && AllListed(quotes) && DistinctSymbols(quotes)
    ensures SellPass(quotes, sells, trader).Keys <= Symbols(quotes)
    ensures forall k :: 0 <= k < |quotes| ==>
      var s := quotes[k].symbol;
      var d := SellPass(quotes, sells, trader);
      && (sells[k] ==> s in d && d[s] == -StockTotalValue(trader.portfolio, quotes[k]))
      && (!sells[k] ==> s !in d)
  {
    if quotes != [] {
      var n := |quotes| - 1;
      var init := quotes[..n];
      LastSymbolFresh(quotes);
      SymbolsSnoc(quotes);
      SellPassEntries(init, sells[..n], trader);
      forall k | 0 <= k < n
        ensures init[k].symbol == quotes[k].symbol && sells[..n][k] == sells[k]
        ensures quotes[k].symbol != quotes[n].symbol
      {
      }
    }
  }

  /**
   * With distinct symbols, the buy pass sets the amount on every flagged
   * stock and keeps every other entry.
   */
  lemma {:induction false} BuyPassEntries(d: Decision, quotes: seq<Quote>, buys: seq<bool>, amount: real)
    requires |buys| == |quotes| && DistinctSymbols(quotes)
    ensures BuyPass(d, quotes, buys, amount).Keys <= d.Keys + Symbols(quotes)
    ensures forall s :: s !in Symbols(quotes) && s in d ==>
      s in BuyPass(d, quotes, buys, amount) && BuyPass(d, quotes, buys, amount)[s] == d[s]
    ensures forall k :: 0 <= k < |quotes| ==>
      var s := quotes[k].symbol;
      var e := BuyPass(d, quotes, buys, amount);
      && (buys[k] ==> s in e && e[s] == amount)
      && (!buys[k] ==> (s in e <==> s in d) && (s in d ==> e[s] == d[s]))
  {
    if quotes != [] {
      var n := |quotes| - 1;
      var init, rest := quotes[..n], buys[..n];
      LastSymbolFresh(quotes);
      SymbolsSnoc(quotes);
      BuyPassEntries(d, init, rest, amount);
      var e0 := BuyPass(d, init, rest, amount);
      assert BuyPass(d, quotes, buys, amount) == if buys[n] then e0[quotes[n].symbol := amount] else e0;
      forall k | 0 <= k < n
        ensures init[k] == quotes[k] && rest[k] == buys[k]
        ensures quotes[k].symbol != quotes[n].symbol
      {
      }
    }
  }

  /**
   * With distinct symbols: a stock with a buy signal gets cash / k; one with
   * only a sell signal gets minus its holding value; one with neither gets no
   * entry; and no key names a stock outside the market.
   */
  lemma {:induction false} SplitDecisionEntries(quotes: seq<Quote>, sells: seq<bool>, buys: seq<bool>, trader: Ledger)
    requires |sells| == |quotes| && |buys| == |quotes| && AllListed(quotes) && DistinctSymbols(quotes)
    ensures SplitDecision(quotes, sells, buys, trader).Keys <= Symbols(quotes)
    ensures forall k :: 0 <= k < |quotes| ==>
      var s := quotes[k].symbol;
      var d := SplitDecision(quotes, sells, buys, trader);
      && (buys[k] ==> CountTrue(buys) > 0 && s in d && d[s] == trader.cash / CountTrue(buys) as real)
      && (!buys[k] && sells[k] ==> s in d && d[s] == -StockTotalValue(trader.portfolio, quotes[k]))
      && (!buys[k] && !sells[k] ==> s !in d)
  {
    SellPassEntries(quotes, sells, trader);
    var sold := SellPass(quotes, sells, trader);
    var count := CountTrue(buys);
    if count > 0 {
      BuyPassEntries(sold, quotes, buys, trader.cash / count as real);
    } else {
      forall k | 0 <= k < |quotes| ensures !buys[k] {
        if buys[k] {
          CountTruePositive(buys, k);
        }
      }
    }
  }

  /** A holding's value is never positive when negated, at a positive price and a non-negative count. */
  lemma {:induction false} SellAmountNonPositive(portfolio: map<string, int>, q: Quote)
    requires q.Tradable() && PositiveHoldings(portfolio)
    ensures -StockTotalValue(portfolio, q) <= 0.0
  {
    assert Held(portfolio, q.symbol) >= 0;
  }

  /** When every market symbol gets a flagged amount a or nothing, the total is count * a. */
  lemma {:induction false} TotalOfFlagged(decision: Decision, quotes: seq<Quote>, flags: seq<bool>, a: real)
    requires |flags| == |quotes|
    requires forall k :: 0 <= k < |quotes| ==>
      Amount(decision, quotes[k].symbol) == (if flags[k] then a else 0.0)
    ensures Total(decision, quotes) == CountTrue(flags) as real * a
  {
    TotalOfFlaggedRepeat(decision, quotes, flags, a);
    RepeatIsProduct(CountTrue(flags), a);
  }

  /** n copies of a, added one at a time. */
  function Repeat(n: nat, a: real): real {
    if n == 0 then 0.0 else Repeat(n - 1, a) + a
  }

  lemma {:induction false} RepeatIsProduct(n: nat, a: real)
    ensures Repeat(n, a) == n as real * a
  {
    if n > 0 {
      RepeatIsProduct(n - 1, a);
      assert (n - 1) as real * a + a == n as real * a;
    }
  }

  /** The total of a flagged decision, as a repeated sum. */
  lemma {:induction false} TotalOfFlaggedRepeat(decision: Decision, quotes: seq<Quote>, flags: seq<bool>, a: real)
    requires |flags| == |quotes|
    requires forall k :: 0 <= k < |quotes| ==>
      Amount(decision, quotes[k].symbol) == (if flags[k] then a else 0.0)
    ensures Total(decision, quotes) == Repeat(CountTrue(flags), a)
  {
    if quotes != [] {
      var n := |quotes| - 1;
      var init, rest := quotes[..n], flags[..n];
      forall k | 0 <= k < n
        ensures Amount(decision, init[k].symbol) == (if rest[k] then a else 0.0)
      {
        assert init[k] == quotes[k] && rest[k] == flags[k];
      }
      TotalOfFlaggedRepeat(decision, init, rest, a);
    }
  }

  /**
   * With distinct symbols, non-negative holdings, positive prices, positive
   * cash and k > 0: the positive entries are exactly cash / k on the
   * buy-flagged stocks.
   */
  lemma {:induction false} SplitPositiveEntries(quotes: seq<Quote>, sells: seq<bool>, buys: seq<bool>, trader: Ledger)
    requires |sells| == |quotes| && |buys| == |quotes| && AllTradable(quotes) && DistinctSymbols(quotes)
    requires PositiveHoldings(trader.portfolio) && trader.cash > 0.0 && CountTrue(buys) > 0
    ensures forall k :: 0 <= k < |quotes| ==>
      Amount(PositivePart(SplitDecision(quotes, sells, buys, trader)), quotes[k].symbol)
        == (if buys[k] then trader.cash / CountTrue(buys) as real else 0.0)
  {
    SplitDecisionEntries(quotes, sells, buys, trader);
    var d := SplitDecision(quotes, sells, buys, trader);
    var a := trader.cash / CountTrue(buys) as real;
    assert a > 0.0;
    forall k | 0 <= k < |quotes|
      ensures Amount(PositivePart(d), quotes[k].symbol) == (if buys[k] then a else 0.0)
    {
      if !buys[k] && sells[k] {
        SellAmountNonPositive(trader.portfolio, quotes[k]);
      }
    }
  }

  /** Equal shares on the flagged stocks add up to count * share. */
  lemma {:induction false} FlaggedSharesTotal(decision: Decision, quotes: seq<Quote>, flags: seq<bool>, share: real, cash: real)
    requires |flags| == |quotes| && CountTrue(flags) as real * share == cash
    requires forall k :: 0 <= k < |quotes| ==>
      Amount(decision, quotes[k].symbol) == (if flags[k] then share else 0.0)
    ensures Total(decision, quotes) == cash
  {
    TotalOfFlagged(decision, quotes, flags, share);
  }

  /** cash / count on each of count flagged stocks, and nothing else, adds up to the cash. */
  lemma {:induction false} FlaggedSharesSumToCash(decision: Decision, quotes: seq<Quote>, flags: seq<bool>, cash: real)
    requires |flags| == |quotes| && CountTrue(flags) > 0
    requires forall k :: 0 <= k < |quotes| ==>
      Amount(decision, quotes[k].symbol) == (if flags[k] then cash / CountTrue(flags) as real else 0.0)
    ensures Total(decision, quotes) == cash
  {
    var share := cash / CountTrue(flags) as real;
    assert CountTrue(flags) as real * share == cash by {
      EvenShares(CountTrue(flags), cash, share);
    }
    FlaggedSharesTotal(decision, quotes, flags, share, cash);
  }

  /** Under the same conditions, the positive entries add up to exactly the cash. */
  lemma {:induction false} SplitBuysSumToCash(quotes: seq<Quote>, sells: seq<bool>, buys: seq<bool>, trader: Ledger)
    requires |sells| == |quotes| && |buys| == |quotes| && AllTradable(quotes) && DistinctSymbols(quotes)
    requires PositiveHoldings(trader.portfolio) && trader.cash > 0.0 && CountTrue(buys) > 0
    ensures Total(PositivePart(SplitDecision(quotes, sells, buys, trader)), quotes) == trader.cash
  {
    SplitPositiveEntries(quotes, sells, buys, trader);
    FlaggedSharesSumToCash(PositivePart(SplitDecision(quotes, sells, buys, trader)), quotes, buys, trader.cash);
  }

  /** With no buy signal, at non-negative holdings and positive prices, no entry is positive. */
  lemma {:induction false} SplitNoBuyNoPositive(quotes: seq<Quote>, sells: seq<bool>, buys: seq<bool>, trader: Ledger)
    requires |sells| == |quotes| && |buys| == |quotes| && AllTradable(quotes) && DistinctSymbols(quotes)
    requires PositiveHoldings(trader.portfolio) && CountTrue(buys) == 0
    ensures PositivePart(SplitDecision(quotes, sells, buys, trader)) == map[]
  {
    var p := PositivePart(SplitDecision(quotes, sells, buys, trader));
    SplitDecisionEntries(quotes, sells, buys, trader);
    forall s | s in p ensures false {
      assert s in Symbols(quotes);
      var k :| 0 <= k < |quotes| && quotes[k].symbol == s;
      if !buys[k] && sells[k] {
        SellAmountNonPositive(trader.portfolio, quotes[k]);
      }
    }
  }
}
