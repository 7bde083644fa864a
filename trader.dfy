/**
 * A trader (src/main/java/com/model/Trader.java): a strategy, a display name,
 * cash and a symbol -> shares portfolio that only buys change. The value view
 * of a trader is an Account: its name, its strategy's state and its Ledger.
 */
module Traders {
  import opened Stocks
  import opened Ledgers
  import opened Strategies

  /** A trader as a value: display name, strategy state and ledger. */
  datatype Account = Account(name: string, policy: Policy, ledger: Ledger)

  /** getClass().getSimpleName() of each rule's class. */
  function ClassName(kind: Kind): string {
    match kind
    case BuyAndHoldKind => "BuyAndHoldEvenly"
    case RandomKind => "RandomStrategy"
    case MovingAverageKind => "MovingAverageStrategy"
    case RsiKind => "RSIStrategy"
    case MeanReversionKind => "MeanReversionStrategy"
  }

  /** The trader's name: the strategy's class name, " with ", and the initial cash as text. */
  function TraderName(kind: Kind, cashText: string): string {
    ClassName(kind) + " with " + cashText
  }

  /** One makeDecision of a trader, on values: the rule decides, then the buys run in market order. */
  function Trade(a: Account, quotes: seq<Quote>, ta4j: RsiOracle): (r: Account)
    requires AllTradable(quotes)
    ensures r.name == a.name && r.policy.Kind() == a.policy.Kind()
  {
    var o := Decide(a.policy, quotes, a.ledger, ta4j);
    Account(a.name, o.next, Execute(a.ledger, quotes, o.decision))
  }

  /**
   * A trade never raises the cash or takes it below zero, and keeps every
   * holding an int. While the buys fit, it also never lowers a holding, keeps
   * holdings positive and the buys fitting, and with distinct symbols keeps
   * the valuation at the prices used.
   */
  lemma {:induction false} TradeKeepsLedgerSound(a: Account, quotes: seq<Quote>, ta4j: RsiOracle, floor: real)
    requires AllTradable(quotes)
    ensures Trade(a, quotes, ta4j).ledger.cash <= a.ledger.cash
    ensures a.ledger.cash >= 0.0 ==> Trade(a, quotes, ta4j).ledger.cash >= 0.0
    ensures IntHoldings(a.ledger.portfolio) ==> IntHoldings(Trade(a, quotes, ta4j).ledger.portfolio)
    ensures BuysFit(a.ledger, quotes, floor) ==>
      && BuysFit(Trade(a, quotes, ta4j).ledger, quotes, floor)
      && (forall s :: Held(Trade(a, quotes, ta4j).ledger.portfolio, s) >= Held(a.ledger.portfolio, s))
      && (PositiveHoldings(a.ledger.portfolio) ==> PositiveHoldings(Trade(a, quotes, ta4j).ledger.portfolio))
      && (DistinctSymbols(quotes) ==> Valuation(Trade(a, quotes, ta4j).ledger, quotes) == Valuation(a.ledger, quotes))
  {
    var o := Decide(a.policy, quotes, a.ledger, ta4j);
    ExecuteStaysInRange(a.ledger, quotes, o.decision);
    if BuysFit(a.ledger, quotes, floor) {
      ExecuteMonotone(a.ledger, quotes, o.decision, floor, Symbols(quotes));
      if DistinctSymbols(quotes) {
        ExecutePreservesValuation(a.ledger, quotes, o.decision, floor);
      }
    }
  }

  /** An unheld symbol is worth nothing in a portfolio. */
  lemma {:induction false} UnheldStockWorthNothing(portfolio: map<string, int>, q: Quote)
    requires q.Listed() && q.symbol !in portfolio
    ensures StockTotalValue(portfolio, q) == 0.0
  {
  }

  /** A trade is the outcome of the rule's decision, executed. */
  lemma {:induction false} TradeOf(a: Account, quotes: seq<Quote>, ta4j: RsiOracle, next: Policy, decision: Decision)
    requires AllTradable(quotes)
    requires Outcome(next, decision) == Decide(a.policy, quotes, a.ledger, ta4j)
    ensures Trade(a, quotes, ta4j) == Account(a.name, next, Execute(a.ledger, quotes, decision))
  {
  }

  class Trader {
    const strategy: Strategy
    const name: string
    var cash: real
    var portfolio: map<string, int>

    /** Every recorded holding is a Java int: buys add to it with int arithmetic. */
    ghost predicate Valid()
      reads this
    {
      IntHoldings(portfolio)
    }

    /** Cash and portfolio as a value. */
    function Books(): Ledger
      reads this
    {
      Ledger(cash, portfolio)
    }

    /** The whole trader as a value. */
    function View(): Account
      reads this, strategy.Footprint()
    {
      Account(name, strategy.Policy(), Books())
    }

    /** A trader with the given strategy, exactly the initial cash and nothing held. */
    constructor (strategy: Strategy, initialCash: real, cashText: string)
      ensures Valid()
      ensures this.strategy == strategy && name == TraderName(strategy.Kind(), cashText)
      ensures cash == initialCash && portfolio == map[]
    {
      this.strategy := strategy;
      this.name := TraderName(strategy.Kind(), cashText);
      this.cash := initialCash;
      this.portfolio := map[];
    }

    /** Ask the strategy for a decision, then carry out its buys. */
    method MakeDecision(marketStocks: seq<Stock>, ta4j: RsiOracle)
      requires Valid() && MarketReady(marketStocks)
      modifies this, strategy.Footprint(), marketStocks
      ensures Valid() && MarketReady(marketStocks)
      ensures Views(marketStocks) == old(Views(marketStocks))
      ensures View() == Trade(old(View()), Views(marketStocks), ta4j)
    {
      ghost var account := View();
      var decision := Strategies.MakeDecision(strategy, marketStocks, Books(), ta4j);
      ExecuteDecision(marketStocks, decision);
      TradeOf(account, Views(marketStocks), ta4j, strategy.Policy(), decision);
      ExecuteStaysInRange(account.ledger, Views(marketStocks), decision);
    }

    /** The loop of makeDecision: buy every market stock given a positive amount, in list order. */
    method ExecuteDecision(marketStocks: seq<Stock>, decision: Decision)
      requires MarketReady(marketStocks)
      modifies this
      ensures Books() == Execute(old(Books()), Views(marketStocks), decision)
    {
      ghost var quotes := Views(marketStocks);
      var i := 0;
      while i < |marketStocks|
        invariant 0 <= i <= |marketStocks|
        invariant Books() == Execute(old(Books()), quotes[..i], decision)
      {
        assert quotes[..i + 1][..i] == quotes[..i];
        var stock := marketStocks[i];
        var amountToInvest := Amount(decision, stock.symbol);
        if amountToInvest > 0.0 {
          BuyStock(stock, amountToInvest);
        }
        i := i + 1;
      }
      assert quotes[..i] == quotes;
    }

    /** Buy Quantity(amount, price) whole shares when at least one is affordable; the holding is an int sum, so it wraps. */
    method BuyStock(stock: Stock, amount: real)
      requires stock.Valid() && stock.View().Tradable() && amount > 0.0
      modifies this
      ensures Books() == Buy(old(Books()), stock.symbol, stock.View().Price(), amount)
    {
      var price := stock.GetCurrentPrice();
      var quantity := Quantity(amount, price);
      if quantity > 0 && cash >= quantity as real * price {
        cash := cash - quantity as real * price;
        portfolio := portfolio[stock.symbol := Wrap32(Held(portfolio, stock.symbol) + quantity)];
      }
    }

    function GetCash(): real
      reads this
    {
      cash
    }

    function GetPortfolio(): map<string, int>
      reads this
    {
      portfolio
    }

    /** Price times shares held: 0 for a symbol the trader does not hold, never negative at positive prices. */
    function GetStockTotalValue(stock: Stock): (value: real)
      requires stock.Valid()
      reads this, stock
      ensures value == StockTotalValue(portfolio, stock.View())
    {
      var quantity := Held(portfolio, stock.symbol);
      stock.GetCurrentPrice() * quantity as real
    }
  }

  /** The accounts of a list of traders. */
  function Accounts(traders: seq<Trader>): (a: seq<Account>)
    reads traders, Footprints(traders)
    ensures |a| == |traders| && forall k :: 0 <= k < |traders| ==> a[k] == traders[k].View()
  {
    seq(|traders|, k reads traders, Footprints(traders) requires 0 <= k < |traders| => traders[k].View())
  }

  /** The strategy objects of a list of traders. */
  function Footprints(traders: seq<Trader>): set<object> {
    set k, o | 0 <= k < |traders| && o in traders[k].strategy.Footprint() :: o
  }
}
