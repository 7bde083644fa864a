/**
 * A trader's ledger as a value: cash and a symbol -> shares map, with the
 * whole-share buy rule, the execution of a decision over the market list and
 * the valuation at current prices (src/main/java/com/model/Trader.java,
 * src/main/java/com/simulation/StockExchange.java getPortfolioValue).
 */
module Ledgers {
  import opened Stocks

  /** Integer.MAX_VALUE: a Java (int) cast of a larger double saturates here. */
  const IntMax: int := 0x7fff_ffff

  /** Integer.MIN_VALUE. */
  const IntMin: int := -0x8000_0000

  /** Java int arithmetic: the exact result wrapped into [IntMin, IntMax], two's complement. */
  function Wrap32(x: int): (r: int)
    ensures IntMin <= r <= IntMax
    ensures IntMin <= x <= IntMax ==> r == x
    ensures x == IntMax + 1 ==> r == IntMin
  {
    (x - IntMin) % 0x1_0000_0000 + IntMin
  }

  datatype Ledger = Ledger(cash: real, portfolio: map<string, int>)

  /** A decision: symbol -> signed dollar amount. */
  type Decision = map<string, real>

  /** portfolio.getOrDefault(symbol, 0). */
  function Held(portfolio: map<string, int>, symbol: string): int {
    if symbol in portfolio then portfolio[symbol] else 0
  }

  /** decision.getOrDefault(symbol, 0.0). */
  function Amount(decision: Decision, symbol: string): real {
    if symbol in decision then decision[symbol] else 0.0
  }

  /** Every recorded holding is a positive share count. */
  ghost predicate PositiveHoldings(portfolio: map<string, int>) {
    forall s :: s in portfolio ==> portfolio[s] > 0
  }

  /** Every recorded holding is a Java int. */
  ghost predicate IntHoldings(portfolio: map<string, int>) {
    forall s :: s in portfolio ==> IntMin <= portfolio[s] <= IntMax
  }

  /** (int) (amount / price): truncation of a positive quotient, saturating at IntMax. */
  function Quantity(amount: real, price: real): (q: int)
    requires amount > 0.0 && price > 0.0
    ensures 0 <= q <= IntMax
    ensures q as real <= amount / price
    ensures q < IntMax ==> amount / price < (q + 1) as real
  {
    var x := amount / price;
    if x >= IntMax as real then IntMax else x.Floor
  }

  /** The shares buyStock would add, and whether the cash covers them. */
  function Purchase(l: Ledger, price: real, amount: real): (q: int)
    requires amount > 0.0 && price > 0.0
    ensures 0 <= q <= IntMax
    ensures q > 0 ==> q == Quantity(amount, price) && l.cash >= q as real * price
    ensures q == 0 ==> Quantity(amount, price) == 0 || l.cash < Quantity(amount, price) as real * price
  {
    var quantity := Quantity(amount, price);
    if quantity > 0 && l.cash >= quantity as real * price then quantity else 0
  }

  /** The purchase leaves the holding of symbol inside the int range, so no wrap occurs. */
  ghost predicate BuyFits(l: Ledger, symbol: string, price: real, amount: real)
    requires amount > 0.0 && price > 0.0
  {
    IntMin <= Held(l.portfolio, symbol) + Purchase(l, price, amount) <= IntMax
  }

  /**
   * buyStock: buy Quantity(amount, price) shares if there is at least one and
   * the cash covers them; otherwise nothing changes. The new holding is the
   * int sum of the old one and the quantity, so it wraps past IntMax.
   */
  function Buy(l: Ledger, symbol: string, price: real, amount: real): (r: Ledger)
    requires amount > 0.0 && price > 0.0
    ensures forall s :: s != symbol ==> Held(r.portfolio, s) == Held(l.portfolio, s)
    ensures l.cash >= 0.0 ==> r.cash >= 0.0
    ensures r.cash <= l.cash
    ensures IntHoldings(l.portfolio) ==> IntHoldings(r.portfolio)
    ensures r.cash == l.cash - Purchase(l, price, amount) as real * price
    ensures BuyFits(l, symbol, price, amount) ==>
      && Held(r.portfolio, symbol) == Held(l.portfolio, symbol) + Purchase(l, price, amount)
      && r.cash + Held(r.portfolio, symbol) as real * price == l.cash + Held(l.portfolio, symbol) as real * price
      && (PositiveHoldings(l.portfolio) ==> PositiveHoldings(r.portfolio))
  {
    var quantity := Purchase(l, price, amount);
    if quantity > 0 then
      var held := Held(l.portfolio, symbol);
      SharesAtPrice(held, quantity, price);
      Ledger(l.cash - quantity as real * price, l.portfolio[symbol := Wrap32(held + quantity)])
    else
      l
  }

  lemma {:induction false} SharesAtPrice(held: int, quantity: int, price: real)
    ensures (held + quantity) as real * price == held as real * price + quantity as real * price
  {
  }

  /** The buy takes place exactly when one share or more is affordable, and then moves Quantity shares, wrapped. */
  lemma {:induction false} BuyOutcome(l: Ledger, symbol: string, price: real, amount: real)
    requires amount > 0.0 && price > 0.0
    ensures var q := Quantity(amount, price);
      if q > 0 && l.cash >= q as real * price then
        && Buy(l, symbol, price, amount).cash == l.cash - q as real * price
        && Held(Buy(l, symbol, price, amount).portfolio, symbol) == Wrap32(Held(l.portfolio, symbol) + q)
      else
        Buy(l, symbol, price, amount) == l
  {
  }

  /** A worked example: cash 100, price 30, amount 65 buys 2 shares and leaves 40. */
  lemma {:induction false} BuyExample()
    ensures Buy(Ledger(100.0, map[]), "X", 30.0, 65.0) == Ledger(40.0, map["X" := 2])
  {
    assert (65.0 / 30.0).Floor == 2;
  }

  /**
   * The int wrap: holding 1 share with IntMax cash, a buy at price 1 of
   * amount IntMax saturates the quantity at IntMax, and the holding wraps to
   * IntMin.
   */
  lemma {:induction false} BuyWraps()
    ensures Buy(Ledger(IntMax as real, map["X" := 1]), "X", 1.0, IntMax as real) == Ledger(0.0, map["X" := IntMin])
  {
    assert Quantity(IntMax as real, 1.0) == IntMax;
  }

  /** One step of makeDecision's loop: buy only on a strictly positive amount. */
  function ExecuteOne(l: Ledger, q: Quote, decision: Decision): Ledger
    requires q.Tradable()
  {
    var amount := Amount(decision, q.symbol);
    if amount > 0.0 then Buy(l, q.symbol, q.Price(), amount) else l
  }

  /** makeDecision's loop over the market list, in list order. */
  function Execute(l: Ledger, quotes: seq<Quote>, decision: Decision): Ledger
    requires AllTradable(quotes)
  {
    if quotes == [] then l
    else ExecuteOne(Execute(l, quotes[..|quotes| - 1], decision), quotes[|quotes| - 1], decision)
  }

  function Symbols(quotes: seq<Quote>): set<string> {
    set k | 0 <= k < |quotes| :: quotes[k].symbol
  }

  ghost predicate DistinctSymbols(quotes: seq<Quote>) {
    forall i, j :: 0 <= i < j < |quotes| ==> quotes[i].symbol != quotes[j].symbol
  }

  /** The symbols of a non-empty list: those of all but the last, and the last one. */
  lemma {:induction false} SymbolsSnoc(quotes: seq<Quote>)
    requires quotes != []
    ensures Symbols(quotes) == Symbols(quotes[..|quotes| - 1]) + {quotes[|quotes| - 1].symbol}
  {
    var n := |quotes| - 1;
    forall s | s in Symbols(quotes) ensures s in Symbols(quotes[..n]) + {quotes[n].symbol} {
      var j :| 0 <= j < |quotes| && quotes[j].symbol == s;
      if j < n {
        assert quotes[..n][j].symbol == s;
      }
    }
  }

  /** With distinct symbols, the last symbol is not among the others, whose symbols are distinct too. */
  lemma {:induction false} LastSymbolFresh(quotes: seq<Quote>)
    requires quotes != [] && DistinctSymbols(quotes)
    ensures quotes[|quotes| - 1].symbol !in Symbols(quotes[..|quotes| - 1])
    ensures DistinctSymbols(quotes[..|quotes| - 1])
  {
    var n := |quotes| - 1;
    forall s | s in Symbols(quotes[..n]) ensures s != quotes[n].symbol {
      var j :| 0 <= j < n && quotes[..n][j].symbol == s;
      assert quotes[..n][j] == quotes[j];
    }
  }

  /** Only the strictly positive entries of a decision. */
  function PositivePart(decision: Decision): (p: Decision)
    ensures forall s :: s in p <==> s in decision && decision[s] > 0.0
  {
    map s | s in decision && decision[s] > 0.0 :: decision[s]
  }

  /** Non-positive amounts, and keys that name no market stock, have no effect. */
  lemma {:induction false} ExecuteIgnoresNonBuys(l: Ledger, quotes: seq<Quote>, decision: Decision, other: Decision)
    requires AllTradable(quotes)
    requires forall k :: 0 <= k < |quotes| ==>
      Amount(PositivePart(decision), quotes[k].symbol) == Amount(PositivePart(other), quotes[k].symbol)
    ensures Execute(l, quotes, decision) == Execute(l, quotes, other)
  {
    if quotes != [] {
      var init := quotes[..|quotes| - 1];
      ExecuteIgnoresNonBuys(l, init, decision, other);
      var q := quotes[|quotes| - 1];
      assert Amount(PositivePart(decision), q.symbol) == Amount(PositivePart(other), q.symbol);
    }
  }

  /** Executing a decision never raises the cash, never takes it below zero, and keeps every holding an int. */
  lemma {:induction false} ExecuteStaysInRange(l: Ledger, quotes: seq<Quote>, decision: Decision)
    requires AllTradable(quotes)
    ensures Execute(l, quotes, decision).cash <= l.cash
    ensures l.cash >= 0.0 ==> Execute(l, quotes, decision).cash >= 0.0
    ensures IntHoldings(l.portfolio) ==> IntHoldings(Execute(l, quotes, decision).portfolio)
  {
    if quotes != [] {
      ExecuteStaysInRange(l, quotes[..|quotes| - 1], decision);
    }
  }

  /** Every market price is at least floor, a positive lower bound. */
  ghost predicate PriceFloor(quotes: seq<Quote>, floor: real) {
    floor > 0.0 && forall k :: 0 <= k < |quotes| ==> floor <= quotes[k].Price()
  }

  /**
   * Spending all the cash on any one of these symbols at a price of at least
   * floor would leave its holding at most IntMax.
   */
  ghost predicate Headroom(l: Ledger, symbols: set<string>, floor: real) {
    forall s :: s in symbols ==> Held(l.portfolio, s) as real * floor + l.cash <= IntMax as real * floor
  }

  /** Every holding is an int, and the cash could not push a holding of a market stock past IntMax at prices of at least floor. */
  ghost predicate RoomToBuy(l: Ledger, quotes: seq<Quote>, floor: real) {
    IntHoldings(l.portfolio) && Headroom(l, Symbols(quotes), floor)
  }

  /** No buy of these stocks at these prices can make a holding wrap. */
  ghost predicate BuysFit(l: Ledger, quotes: seq<Quote>, floor: real) {
    PriceFloor(quotes, floor) && RoomToBuy(l, quotes, floor)
  }

  lemma {:induction false} ScaleLe(a: real, b: real, c: real)
    requires a >= 0.0 && b <= c
    ensures a * b <= a * c
  {
    assert a * c - a * b == a * (c - b);
  }

  lemma {:induction false} UnscaleLe(x: real, y: real, f: real)
    requires f > 0.0 && x * f <= y * f
    ensures x <= y
  {
  }

  /** The holding of symbol is an int when every holding is. */
  lemma {:induction false} HeldIsInt(portfolio: map<string, int>, symbol: string)
    requires IntHoldings(portfolio)
    ensures IntMin <= Held(portfolio, symbol) <= IntMax
  {
    if symbol in portfolio {
      assert IntMin <= portfolio[symbol] <= IntMax;
    }
  }

  /** Shares bought for at most the cash, at a price of at least floor, fit under the headroom bound. */
  lemma {:induction false} AffordableFits(held: int, quantity: int, price: real, cash: real, floor: real)
    requires quantity >= 0 && 0.0 < floor <= price && quantity as real * price <= cash
    requires held as real * floor + cash <= IntMax as real * floor
    ensures held + quantity <= IntMax
  {
    ScaleLe(quantity as real, floor, price);
    SharesAtPrice(held, quantity, floor);
    UnscaleLe((held + quantity) as real, IntMax as real, floor);
  }

  /** With headroom, a buy at a price of at least floor does not wrap. */
  lemma {:induction false} BuyWithinHeadroom(l: Ledger, symbol: string, price: real, amount: real, floor: real, symbols: set<string>)
    requires amount > 0.0 && 0.0 < floor <= price
    requires symbol in symbols && IntHoldings(l.portfolio) && Headroom(l, symbols, floor)
    ensures BuyFits(l, symbol, price, amount)
  {
    var q := Purchase(l, price, amount);
    var h := Held(l.portfolio, symbol);
    HeldIsInt(l.portfolio, symbol);
    if q > 0 {
      assert h as real * floor + l.cash <= IntMax as real * floor;
      AffordableFits(h, q, price, l.cash, floor);
    }
  }

  /** Paying quantity * price for quantity shares, at a price of at least floor, uses up no headroom. */
  lemma {:induction false} PaidSharesKeepRoom(held: int, quantity: int, price: real, cash: real, floor: real)
    requires quantity >= 0 && 0.0 < floor <= price
    requires held as real * floor + cash <= IntMax as real * floor
    ensures (held + quantity) as real * floor + (cash - quantity as real * price) <= IntMax as real * floor
    ensures held as real * floor + (cash - quantity as real * price) <= IntMax as real * floor
  {
    ScaleLe(quantity as real, floor, price);
    SharesAtPrice(held, quantity, floor);
  }

  /** The headroom bound for one symbol s survives a buy that does not wrap. */
  lemma {:induction false} BuyKeepsRoomFor(l: Ledger, symbol: string, price: real, amount: real, floor: real, s: string)
    requires amount > 0.0 && 0.0 < floor <= price && BuyFits(l, symbol, price, amount)
    requires Held(l.portfolio, s) as real * floor + l.cash <= IntMax as real * floor
    ensures Held(Buy(l, symbol, price, amount).portfolio, s) as real * floor + Buy(l, symbol, price, amount).cash
      <= IntMax as real * floor
  {
    var q := Purchase(l, price, amount);
    var r := Buy(l, symbol, price, amount);
    var h := Held(l.portfolio, s);
    PaidSharesKeepRoom(h, q, price, l.cash, floor);
    if s == symbol {
      assert Held(r.portfolio, s) == h + q;
    } else {
      assert Held(r.portfolio, s) == h;
    }
  }

  /** A buy at a price of at least floor that does not wrap keeps the headroom. */
  lemma {:induction false} BuyKeepsHeadroom(l: Ledger, symbol: string, price: real, amount: real, floor: real, symbols: set<string>)
    requires amount > 0.0 && 0.0 < floor <= price
    requires Headroom(l, symbols, floor) && BuyFits(l, symbol, price, amount)
    ensures Headroom(Buy(l, symbol, price, amount), symbols, floor)
  {
    forall s | s in symbols
      ensures Held(Buy(l, symbol, price, amount).portfolio, s) as real * floor + Buy(l, symbol, price, amount).cash
        <= IntMax as real * floor
    {
      BuyKeepsRoomFor(l, symbol, price, amount, floor, s);
    }
  }

  /**
   * While the buys fit, executing a decision never lowers a holding, keeps
   * positive holdings positive, and leaves the headroom in place.
   */
  lemma {:induction false} ExecuteMonotone(l: Ledger, quotes: seq<Quote>, decision: Decision, floor: real, symbols: set<string>)
    requires AllTradable(quotes) && PriceFloor(quotes, floor) && Symbols(quotes) <= symbols
    requires IntHoldings(l.portfolio) && Headroom(l, symbols, floor)
    ensures IntHoldings(Execute(l, quotes, decision).portfolio) && Headroom(Execute(l, quotes, decision), symbols, floor)
    ensures forall s :: Held(Execute(l, quotes, decision).portfolio, s) >= Held(l.portfolio, s)
    ensures PositiveHoldings(l.portfolio) ==> PositiveHoldings(Execute(l, quotes, decision).portfolio)
  {
    if quotes != [] {
      var init := quotes[..|quotes| - 1];
      var q := quotes[|quotes| - 1];
      SymbolsSnoc(quotes);
      assert PriceFloor(init, floor) by {
        forall k | 0 <= k < |init| ensures floor <= init[k].Price() {
          assert init[k] == quotes[k];
        }
      }
      ExecuteMonotone(l, init, decision, floor, symbols);
      var mid := Execute(l, init, decision);
      var amount := Amount(decision, q.symbol);
      if amount > 0.0 {
        BuyWithinHeadroom(mid, q.symbol, q.Price(), amount, floor, symbols);
        BuyKeepsHeadroom(mid, q.symbol, q.Price(), amount, floor, symbols);
      }
    }
  }

  /** Execution changes no holding of a symbol outside the market list. */
  lemma {:induction false} ExecuteOnlyMarketSymbols(l: Ledger, quotes: seq<Quote>, decision: Decision, s: string)
    requires AllTradable(quotes)
    requires s !in Symbols(quotes)
    ensures Held(Execute(l, quotes, decision).portfolio, s) == Held(l.portfolio, s)
  {
    if quotes != [] {
      ExecuteOnlyMarketSymbols(l, quotes[..|quotes| - 1], decision, s);
    }
  }

  /** getStockTotalValue: price times shares held, 0 for an unheld symbol. */
  function StockTotalValue(portfolio: map<string, int>, q: Quote): real
  {
    q.Price() * Held(portfolio, q.symbol) as real
  }

  /** Sum of the holding values over the market list. */
  function HoldingsValue(portfolio: map<string, int>, quotes: seq<Quote>): real
  {
    if quotes == [] then 0.0
    else HoldingsValue(portfolio, quotes[..|quotes| - 1]) + StockTotalValue(portfolio, quotes[|quotes| - 1])
  }

  /** getPortfolioValue: cash plus the value of the holdings at current prices. */
  function Valuation(l: Ledger, quotes: seq<Quote>): real
  {
    l.cash + HoldingsValue(l.portfolio, quotes)
  }

  /** Holdings of symbols outside the list do not enter its value. */
  lemma {:induction false} HoldingsValueFrame(p: map<string, int>, p': map<string, int>, quotes: seq<Quote>)
    requires forall k :: 0 <= k < |quotes| ==> Held(p', quotes[k].symbol) == Held(p, quotes[k].symbol)
    ensures HoldingsValue(p', quotes) == HoldingsValue(p, quotes)
  {
    if quotes != [] {
      HoldingsValueFrame(p, p', quotes[..|quotes| - 1]);
    }
  }

  /**
   * With distinct symbols, raising the last stock's holding by delta raises
   * the value of the list by delta times its price.
   */
  lemma {:induction false} HoldingsValueShift(p: map<string, int>, p': map<string, int>, quotes: seq<Quote>, delta: int)
    requires DistinctSymbols(quotes) && quotes != []
    requires forall t :: t != quotes[|quotes| - 1].symbol ==> Held(p', t) == Held(p, t)
    requires Held(p', quotes[|quotes| - 1].symbol) == Held(p, quotes[|quotes| - 1].symbol) + delta
    ensures HoldingsValue(p', quotes) == HoldingsValue(p, quotes) + delta as real * quotes[|quotes| - 1].Price()
  {
    var last := |quotes| - 1;
    var init := quotes[..last];
    var q := quotes[last];
    forall k | 0 <= k < |init|
      ensures Held(p', init[k].symbol) == Held(p, init[k].symbol)
    {
      assert init[k].symbol == quotes[k].symbol != quotes[last].symbol;
    }
    HoldingsValueFrame(p, p', init);
    ScaledHolding(q.Price(), Held(p, q.symbol), delta);
  }

  lemma {:induction false} ScaledHolding(price: real, h: int, delta: int)
    ensures price * (h + delta) as real == price * h as real + delta as real * price
  {
  }

  /**
   * With distinct symbols, executing any decision at current prices leaves
   * the valuation unchanged: cash converts into shares at the price used.
   */
  lemma {:induction false} ExecutePreservesValuation(l: Ledger, quotes: seq<Quote>, decision: Decision, floor: real)
    requires AllTradable(quotes) && DistinctSymbols(quotes) && BuysFit(l, quotes, floor)
    ensures Valuation(Execute(l, quotes, decision), quotes) == Valuation(l, quotes)
  {
    if quotes != [] {
      var init := quotes[..|quotes| - 1];
      ExecuteValuationStep(l, quotes, decision, floor);
      ExecutePreservesValuation(l, init, decision, floor);
    }
  }

  /** Executing over a list changes its valuation as much as executing over all but the last stock changes theirs. */
  lemma {:induction false} ExecuteValuationStep(l: Ledger, quotes: seq<Quote>, decision: Decision, floor: real)
    requires quotes != [] && AllTradable(quotes) && DistinctSymbols(quotes) && BuysFit(l, quotes, floor)
    ensures AllTradable(quotes[..|quotes| - 1]) && DistinctSymbols(quotes[..|quotes| - 1])
    ensures BuysFit(l, quotes[..|quotes| - 1], floor)
    ensures Valuation(Execute(l, quotes, decision), quotes) - Valuation(l, quotes)
      == Valuation(Execute(l, quotes[..|quotes| - 1], decision), quotes[..|quotes| - 1]) - Valuation(l, quotes[..|quotes| - 1])
  {
    var last := |quotes| - 1;
    var init := quotes[..last];
    var q := quotes[last];
    assert AllTradable(init) by {
      forall k | 0 <= k < |init| ensures init[k].Tradable() {
        assert init[k] == quotes[k];
      }
    }
    LastSymbolFresh(quotes);
    ExecuteLastFits(l, quotes, decision, floor);
    var mid := Execute(l, init, decision);
    assert Valuation(Execute(l, quotes, decision), quotes) == Valuation(mid, quotes) by {
      ExecuteOneKeepsValuation(mid, quotes, decision);
    }
    assert StockTotalValue(mid.portfolio, q) == StockTotalValue(l.portfolio, q) by {
      ExecuteOnlyMarketSymbols(l, init, decision, q.symbol);
    }
    assert Valuation(mid, quotes) == Valuation(mid, init) + StockTotalValue(mid.portfolio, q);
    assert Valuation(l, quotes) == Valuation(l, init) + StockTotalValue(l.portfolio, q);
  }

  /** When the buys of a list fit, so do those of all but its last stock, and then the last buy. */
  lemma {:induction false} ExecuteLastFits(l: Ledger, quotes: seq<Quote>, decision: Decision, floor: real)
    requires quotes != [] && AllTradable(quotes) && BuysFit(l, quotes, floor)
    ensures AllTradable(quotes[..|quotes| - 1]) && BuysFit(l, quotes[..|quotes| - 1], floor)
    ensures var q := quotes[|quotes| - 1];
      Amount(decision, q.symbol) > 0.0 ==>
        BuyFits(Execute(l, quotes[..|quotes| - 1], decision), q.symbol, q.Price(), Amount(decision, q.symbol))
  {
    var init := quotes[..|quotes| - 1];
    var q := quotes[|quotes| - 1];
    SymbolsSnoc(quotes);
    assert AllTradable(init) && PriceFloor(init, floor) by {
      forall k | 0 <= k < |init| ensures init[k].Tradable() && floor <= init[k].Price() {
        assert init[k] == quotes[k];
      }
    }
    ExecuteMonotone(l, init, decision, floor, Symbols(quotes));
    if Amount(decision, q.symbol) > 0.0 {
      BuyWithinHeadroom(Execute(l, init, decision), q.symbol, q.Price(), Amount(decision, q.symbol), floor, Symbols(quotes));
    }
  }

  /** Buying the last stock of the list at its price, without a wrap, keeps the valuation over the list. */
  lemma {:induction false} ExecuteOneKeepsValuation(mid: Ledger, quotes: seq<Quote>, decision: Decision)
    requires quotes != [] && AllTradable(quotes) && DistinctSymbols(quotes)
    requires var q := quotes[|quotes| - 1];
      Amount(decision, q.symbol) > 0.0 ==> BuyFits(mid, q.symbol, q.Price(), Amount(decision, q.symbol))
    ensures Valuation(ExecuteOne(mid, quotes[|quotes| - 1], decision), quotes) == Valuation(mid, quotes)
  {
    var last := |quotes| - 1;
    var q := quotes[last];
    var r := ExecuteOne(mid, q, decision);
    var delta := Held(r.portfolio, q.symbol) - Held(mid.portfolio, q.symbol);
    HoldingsValueShift(mid.portfolio, r.portfolio, quotes, delta);
    var dv := delta as real * q.Price();
    assert r.cash + dv == mid.cash by {
      ScaledHolding(q.Price(), Held(mid.portfolio, q.symbol), delta);
    }
  }
}

/** Sums of decision amounts over a market list. */
module DecisionTotals {
  import opened Stocks
  import opened Ledgers

  /** The amounts a decision gives the market's symbols, summed in list order. */
  function Total(decision: Decision, quotes: seq<Quote>): real {
    if quotes == [] then 0.0
    else Total(decision, quotes[..|quotes| - 1]) + Amount(decision, quotes[|quotes| - 1].symbol)
  }

  /** When every market symbol gets the same amount a, the total is n * a. */
  lemma {:induction false} TotalUniform(decision: Decision, quotes: seq<Quote>, a: real)
    requires forall k :: 0 <= k < |quotes| ==> Amount(decision, quotes[k].symbol) == a
    ensures Total(decision, quotes) == |quotes| as real * a
  {
    if quotes != [] {
      TotalUniform(decision, quotes[..|quotes| - 1], a);
    }
  }

  /** n copies of cash / n add up to cash. */
  lemma {:induction false} EvenShares(n: nat, cash: real, share: real)
    requires n > 0 && share == cash / n as real
    ensures n as real * share == cash
  {
  }
}
