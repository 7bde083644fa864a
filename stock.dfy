/**
 * A stock: an immutable price history and a cursor that marks "today" in
 * simulated time, with trailing-window indicators computed relative to the
 * cursor (src/main/java/com/model/Stock.java and StockData.java).
 */
module Stocks {
  import opened Wrappers

  /** One closing price; dates are day numbers. */
  datatype StockData = StockData(date: int, price: real)

  /** The ta4j RSI value for (closing prices, bar index, period), a library this model does not contain. */
  type RsiOracle = (seq<real>, nat, int) -> real

  /** The RSI period ta4j is configured with when a stock is built. */
  const DefaultRsiPeriod: int := 14

  /** The neutral RSI returned while too few bars precede the cursor. */
  const NeutralRsi: real := 50.0

  /** Value view of a Stock object: symbol, history and cursor. */
  datatype Quote = Quote(symbol: string, history: seq<StockData>, index: nat) {

    /** The cursor is inside the history, or 0 on an empty history. */
    predicate InRange() {
      if |history| == 0 then index == 0 else index < |history|
    }

    /** A stock that can take part in trading: non-empty history. */
    predicate Listed() {
      index < |history|
    }

    /** Listed, and every price of the history is positive. */
    predicate Tradable() {
      Listed() && forall k :: 0 <= k < |history| ==> history[k].price > 0.0
    }

    /** The price at the cursor; 0 on an empty history, as the constructor leaves it. */
    function Price(): real {
      if Listed() then history[index].price else 0.0
    }

    /** The last index the cursor can reach. */
    function LastIndex(): nat {
      if |history| == 0 then 0 else |history| - 1
    }
  }

  /** Every stock of the list has a non-empty history. */
  ghost predicate AllListed(quotes: seq<Quote>) {
    forall k :: 0 <= k < |quotes| ==> quotes[k].Listed()
  }

  ghost predicate AllTradable(quotes: seq<Quote>) {
    forall k :: 0 <= k < |quotes| ==> quotes[k].Tradable()
  }

  function Prices(h: seq<StockData>): (p: seq<real>)
    ensures |p| == |h| && forall k :: 0 <= k < |h| ==> p[k] == h[k].price
  {
    seq(|h|, k requires 0 <= k < |h| => h[k].price)
  }

  function Min(a: int, b: int): int {
    if a <= b then a else b
  }

  /** Math.max(0, index - days). */
  function WindowStart(index: nat, days: nat): nat {
    if index >= days then index - days else 0
  }

  /** The prices at indices WindowStart .. index inclusive. */
  function Window(q: Quote, days: nat): (w: seq<real>)
    requires q.Listed()
    ensures |w| == q.index - WindowStart(q.index, days) + 1
  {
    Prices(q.history)[WindowStart(q.index, days)..q.index + 1]
  }

  /** Sum of a sequence, accumulated from the left as the source's loops do. */
  function Sum(s: seq<real>): real {
    if s == [] then 0.0 else Sum(s[..|s| - 1]) + s[|s| - 1]
  }

  /** Sum of squared deviations from m, accumulated from the left. */
  function SumSquares(s: seq<real>, m: real): real {
    if s == [] then 0.0
    else SumSquares(s[..|s| - 1], m) + (s[|s| - 1] - m) * (s[|s| - 1] - m)
  }

  function Mean(s: seq<real>): real
    requires |s| > 0
  {
    Sum(s) / |s| as real
  }

  /** calculateMovingAverage: the mean of the window ending at the cursor. */
  function MovingAverage(q: Quote, days: nat): real
    requires q.Listed()
  {
    Mean(Window(q, days))
  }

  /**
   * A standard deviation, represented by its square because the model has no
   * square root; NotANumber is the 0/0 of a one-point window.
   */
  datatype StdDev = NotANumber | OfVariance(variance: real) {
    /** x is the value Math.sqrt would return for this deviation. */
    ghost predicate RootIs(x: real) {
      OfVariance? && x >= 0.0 && x * x == variance
    }
  }

  /**
   * calculateStandardDeviation: squared deviations from the window's mean,
   * divided by the number of points minus one.
   */
  function StandardDeviation(q: Quote, days: nat): StdDev
    requires q.Listed()
  {
    var w := Window(q, days);
    if |w| == 1 then NotANumber
    else OfVariance(SumSquares(w, Mean(w)) / (|w| - 1) as real)
  }

  /** calculateRSI: neutral 50 below the period, otherwise ta4j's value. */
  function Rsi(q: Quote, period: int, ta4j: RsiOracle): real {
    if q.index < period then NeutralRsi else ta4j(Prices(q.history), q.index, period)
  }

  /** updatePrice: one step forward unless at the last index. */
  function Advance(q: Quote): Quote {
    if q.index < |q.history| - 1 then q.(index := q.index + 1) else q
  }

  function AdvanceTimes(q: Quote, k: nat): Quote {
    if k == 0 then q else Advance(AdvanceTimes(q, k - 1))
  }

  // ---------------------------------------------------------------------------
  // Properties of the cursor

  lemma {:induction false} AdvanceStep(q: Quote)
    requires q.InRange()
    ensures Advance(q).InRange()
    ensures Advance(q).symbol == q.symbol && Advance(q).history == q.history
    ensures Advance(q).index == Min(q.index + 1, q.LastIndex())
    ensures q.index <= Advance(q).index
  {
  }

  /** After k steps the cursor is at min(index + k, last index). */
  lemma {:induction false} AdvanceTimesIndex(q: Quote, k: nat)
    requires q.InRange()
    ensures AdvanceTimes(q, k).InRange()
    ensures AdvanceTimes(q, k).symbol == q.symbol && AdvanceTimes(q, k).history == q.history
    ensures AdvanceTimes(q, k).index == Min(q.index + k, q.LastIndex())
  {
    if k > 0 {
      AdvanceTimesIndex(q, k - 1);
      AdvanceStep(AdvanceTimes(q, k - 1));
    }
  }

  // ---------------------------------------------------------------------------
  // Properties of the window statistics

  /** The window holds days+1 prices once the cursor reaches days, the whole prefix before. */
  lemma {:induction false} WindowShape(q: Quote, days: nat)
    requires q.Listed()
    ensures |Window(q, days)| == if q.index >= days then days + 1 else q.index + 1
    ensures forall k :: 0 <= k < |Window(q, days)| ==>
      Window(q, days)[k] == q.history[WindowStart(q.index, days) + k].price
  {
  }

  /** The statistics read no price after the cursor. */
  lemma {:induction false} NoLookAhead(q: Quote, h: seq<StockData>, days: nat)
    requires q.Listed() && q.index < |h|
    requires forall k :: 0 <= k <= q.index ==> h[k].price == q.history[k].price
    ensures MovingAverage(q.(history := h), days) == MovingAverage(q, days)
    ensures StandardDeviation(q.(history := h), days) == StandardDeviation(q, days)
  {
    assert Window(q.(history := h), days) == Window(q, days);
  }

  lemma {:induction false} SumBounds(s: seq<real>, lo: real, hi: real)
    requires forall k :: 0 <= k < |s| ==> lo <= s[k] <= hi
    ensures |s| as real * lo <= Sum(s) <= |s| as real * hi
  {
    if s != [] {
      SumBounds(s[..|s| - 1], lo, hi);
    }
  }

  /** The moving average lies between the least and the greatest price of its window. */
  lemma {:induction false} MovingAverageBounds(q: Quote, days: nat, lo: real, hi: real)
    requires q.Listed()
    requires forall k :: WindowStart(q.index, days) <= k <= q.index ==> lo <= q.history[k].price <= hi
    ensures lo <= MovingAverage(q, days) <= hi
  {
    var w := Window(q, days);
    SumBounds(w, lo, hi);
    QuotientBounds(Sum(w), |w| as real, lo, hi);
  }

  lemma {:induction false} QuotientBounds(a: real, n: real, lo: real, hi: real)
    requires n > 0.0 && n * lo <= a <= n * hi
    ensures lo <= a / n <= hi
  {
    var m := a / n;
    assert m * n == a;
  }

  lemma {:induction false} SumConstant(s: seq<real>, c: real)
    requires forall k :: 0 <= k < |s| ==> s[k] == c
    ensures Sum(s) == |s| as real * c
  {
    if s != [] {
      SumConstant(s[..|s| - 1], c);
    }
  }

  lemma {:induction false} SumSquaresOfConstant(s: seq<real>, c: real)
    requires forall k :: 0 <= k < |s| ==> s[k] == c
    ensures SumSquares(s, c) == 0.0
  {
    if s != [] {
      SumSquaresOfConstant(s[..|s| - 1], c);
    }
  }

  lemma {:induction false} SumSquaresNonNegative(s: seq<real>, m: real)
    ensures SumSquares(s, m) >= 0.0
  {
    if s != [] {
      SumSquaresNonNegative(s[..|s| - 1], m);
      var d := s[|s| - 1] - m;
      assert d * d >= 0.0;
    }
  }

  /** A window of equal prices has that price as its mean and zero deviation. */
  lemma {:induction false} ConstantWindow(q: Quote, days: nat, c: real)
    requires q.Listed()
    requires forall k :: WindowStart(q.index, days) <= k <= q.index ==> q.history[k].price == c
    ensures MovingAverage(q, days) == c
    ensures StandardDeviation(q, days) == NotANumber || StandardDeviation(q, days) == OfVariance(0.0)
  {
    var w := Window(q, days);
    SumConstant(w, c);
    var n := |w| as real;
    QuotientBounds(Sum(w), n, c, c);
    SumSquaresOfConstant(w, c);
  }

  /** The deviation is undefined exactly when the cursor or the day count is 0. */
  lemma {:induction false} StdDevUndefinedIff(q: Quote, days: nat)
    requires q.Listed()
    ensures StandardDeviation(q, days).NotANumber? <==> (q.index == 0 || days == 0)
  {
  }

  lemma {:induction false} StdDevNonNegative(q: Quote, days: nat)
    requires q.Listed()
    ensures StandardDeviation(q, days).OfVariance? ==> StandardDeviation(q, days).variance >= 0.0
  {
    var w := Window(q, days);
    SumSquaresNonNegative(w, Mean(w));
  }

  /** Below the period the RSI is exactly the neutral 50. */
  lemma {:induction false} RsiNeutralBelowPeriod(q: Quote, period: int, ta4j: RsiOracle)
    requires q.index < period
    ensures Rsi(q, period, ta4j) == 50.0
  {
  }

  // ---------------------------------------------------------------------------
  // The Stock object

  /** One more element of a slice adds it to the sum. */
  lemma {:induction false} SumStep(p: seq<real>, a: nat, i: nat)
    requires a <= i < |p|
    ensures Sum(p[a..i + 1]) == Sum(p[a..i]) + p[i]
  {
    assert p[a..i + 1][..i - a] == p[a..i];
  }

  /** One more element of a slice adds its squared deviation. */
  lemma {:induction false} SumSquaresStep(p: seq<real>, a: nat, i: nat, m: real)
    requires a <= i < |p|
    ensures SumSquares(p[a..i + 1], m) == SumSquares(p[a..i], m) + (p[i] - m) * (p[i] - m)
  {
    assert p[a..i + 1][..i - a] == p[a..i];
  }

  /**
   * The period of the RSI indicator calculateRSI reads, given the period of
   * the cached indicator (None when there is none), with the cache test as
   * written: the cache is rebuilt only when absent or when the requested
   * period differs from the default, so a request for the default period
   * keeps an indicator built earlier for another period.
   */
  function IndicatorPeriodAsWritten(cached: Option<int>, period: int): (p: int)
    ensures p == period || (period == DefaultRsiPeriod && cached == Some(p))
  {
    if cached.None? || period != DefaultRsiPeriod then period else cached.value
  }

  /** After a request for period 10, a request for period 14 reads the period-10 indicator. */
  lemma {:induction false} StaleIndicatorAsWritten()
    ensures IndicatorPeriodAsWritten(Some(10), 10) == 10
    ensures IndicatorPeriodAsWritten(Some(10), DefaultRsiPeriod) == 10
  {
  }

  /** The cache test as intended: the cached indicator is reused only when it has the requested period. */
  function IndicatorPeriod(cached: Option<int>, period: int): (p: int)
    ensures p == period
    ensures cached == Some(period) ==> p == cached.value
  {
    if cached == Some(period) then cached.value else period
  }

  /**
   * The cache test as written reads the requested period exactly when there
   * is no cache, the request is not for the default period, or the cache
   * already has the default period; so on a stock asked only for the default
   * period the two tests agree.
   */
  lemma {:induction false} IndicatorPeriodAgreement(cached: Option<int>, period: int)
    ensures IndicatorPeriodAsWritten(cached, period) == IndicatorPeriod(cached, period)
      <==> cached.None? || period != DefaultRsiPeriod || cached.value == DefaultRsiPeriod
  {
  }

  class Stock {
    const symbol: string
    const historicalData: seq<StockData>
    var currentPrice: real
    var index: nat
    /** The period of the cached ta4j RSI indicator; None when none was built. */
    var rsiPeriod: Option<int>

    /** The cursor is in range and currentPrice is the price at the cursor (0 on an empty history). */
    ghost predicate Valid()
      reads this
    {
      && View().InRange()
      && currentPrice == (if |historicalData| == 0 then 0.0 else historicalData[index].price)
    }

    function View(): Quote
      reads this
    {
      Quote(symbol, historicalData, index)
    }

    constructor (symbol: string, historicalData: seq<StockData>)
      ensures Valid()
      ensures View() == Quote(symbol, historicalData, 0)
      ensures |historicalData| > 0 ==> currentPrice == historicalData[0].price
      ensures rsiPeriod == (if |historicalData| == 0 then None else Some(DefaultRsiPeriod))
    {
      this.symbol := symbol;
      this.historicalData := historicalData;
      this.index := 0;
      this.currentPrice := if |historicalData| == 0 then 0.0 else historicalData[0].price;
      this.rsiPeriod := if |historicalData| == 0 then None else Some(DefaultRsiPeriod);
    }

    function GetCurrentPrice(): (p: real)
      requires Valid()
      reads this
      ensures p == View().Price()
    {
      currentPrice
    }

    method UpdatePrice()
      requires Valid()
      modifies this
      ensures Valid()
      ensures View() == Advance(old(View()))
      ensures rsiPeriod == old(rsiPeriod)
    {
      if index < |historicalData| - 1 {
        index := index + 1;
        currentPrice := historicalData[index].price;
      }
    }

    method CalculateMovingAverage(days: nat) returns (average: real)
      requires Valid() && View().Listed()
      ensures average == MovingAverage(View(), days)
    {
      var startIndex := if index >= days then index - days else 0;
      ghost var p := Prices(historicalData);
      var sum := 0.0;
      var i := startIndex;
      while i <= index
        invariant startIndex <= i <= index + 1
        invariant sum == Sum(p[startIndex..i])
      {
        SumStep(p, startIndex, i);
        sum := sum + historicalData[i].price;
        i := i + 1;
      }
      average := sum / (index - startIndex + 1) as real;
      assert Window(View(), days) == p[startIndex..index + 1];
    }

    method CalculateVolatility(days: nat) returns (volatility: StdDev)
      requires Valid() && View().Listed()
      ensures volatility == StandardDeviation(View(), days)
    {
      volatility := CalculateStandardDeviation(days);
    }

    method CalculateRSI(period: int, ta4j: RsiOracle) returns (rsi: real)
      modifies this
      ensures rsi == Rsi(View(), period, ta4j)
      ensures index < period ==> rsi == 50.0
      ensures rsiPeriod == Some(period)
      ensures View() == old(View()) && currentPrice == old(currentPrice)
    {
      var indicatorPeriod := IndicatorPeriod(rsiPeriod, period);
      rsiPeriod := Some(indicatorPeriod);
      if index < period {
        rsi := NeutralRsi;
      } else {
        rsi := ta4j(Prices(historicalData), index, indicatorPeriod);
      }
    }

    method CalculateStandardDeviation(days: nat) returns (deviation: StdDev)
      requires Valid() && View().Listed()
      ensures deviation == StandardDeviation(View(), days)
    {
      var startIndex := if index >= days then index - days else 0;
      var mean := CalculateMovingAverage(days);
      var sumSquaredDifferences := SquaredDifferences(startIndex, mean);
      assert Window(View(), days) == Prices(historicalData)[startIndex..index + 1];
      if index == startIndex {
        deviation := NotANumber;
      } else {
        deviation := OfVariance(sumSquaredDifferences / (index - startIndex) as real);
      }
    }

    /** The loop of calculateStandardDeviation: squared deviations from mean over startIndex .. index. */
    method SquaredDifferences(startIndex: nat, mean: real) returns (total: real)
      requires Valid() && View().Listed() && startIndex <= index
      ensures total == SumSquares(Prices(historicalData)[startIndex..index + 1], mean)
    {
      ghost var p := Prices(historicalData);
      total := 0.0;
      var i := startIndex;
      while i <= index
        invariant startIndex <= i <= index + 1
        invariant total == SumSquares(p[startIndex..i], mean)
      {
        SumSquaresStep(p, startIndex, i, mean);
        var diff := historicalData[i].price - mean;
        total := total + diff * diff;
        i := i + 1;
      }
    }
  }

  /** The value views of a list of stocks. */
  function Views(market: seq<Stock>): (qs: seq<Quote>)
    reads market
    ensures |qs| == |market| && forall k :: 0 <= k < |market| ==> qs[k] == market[k].View()
  {
    seq(|market|, k reads market requires 0 <= k < |market| => market[k].View())
  }

  /** Every stock of the market is consistent and has a non-empty history. */
  ghost predicate MarketListed(market: seq<Stock>)
    reads market
  {
    forall k :: 0 <= k < |market| ==> market[k].Valid() && market[k].View().Listed()
  }

  /** calculateRSI on one stock of a market list: only that stock's indicator cache changes. */
  method MarketRsi(market: seq<Stock>, i: nat, period: int, ta4j: RsiOracle) returns (rsi: real)
    requires MarketListed(market) && i < |market|
    modifies market[i]
    ensures MarketListed(market) && Views(market) == old(Views(market))
    ensures rsi == Rsi(market[i].View(), period, ta4j)
  {
    rsi := market[i].CalculateRSI(period, ta4j);
  }

  /** updatePrice on the i-th stock of a market whose stocks are distinct objects. */
  method AdvanceAt(market: seq<Stock>, i: nat)
    requires MarketReady(market) && i < |market|
    requires forall j :: 0 <= j < |market| && j != i ==> market[j] != market[i]
    modifies market[i]
    ensures MarketReady(market)
    ensures Views(market) == old(Views(market))[i := Advance(old(Views(market))[i])]
  {
    market[i].UpdatePrice();
  }

  /** Every cursor one step forward; tradable stocks stay tradable. */
  function AdvanceAll(quotes: seq<Quote>): (r: seq<Quote>)
    ensures |r| == |quotes| && forall k :: 0 <= k < |quotes| ==> r[k] == Advance(quotes[k])
    ensures AllTradable(quotes) ==> AllTradable(r)
  {
    seq(|quotes|, k requires 0 <= k < |quotes| => Advance(quotes[k]))
  }

  /** No stock object appears twice in the list. */
  ghost predicate DistinctStocks(market: seq<Stock>) {
    forall i, j :: 0 <= i < |market| && 0 <= j < |market| && i != j ==> market[i] != market[j]
  }

  /** updateStocks' loop: updatePrice on every stock of a market of distinct stocks, in list order. */
  method AdvanceMarket(market: seq<Stock>)
    requires MarketReady(market) && DistinctStocks(market)
    modifies market
    ensures MarketReady(market)
    ensures Views(market) == AdvanceAll(old(Views(market)))
  {
    ghost var quotes := Views(market);
    ghost var advanced := AdvanceAll(quotes);
    var i := 0;
    while i < |market|
      invariant 0 <= i <= |market|
      invariant MarketReady(market)
      invariant |Views(market)| == |quotes|
      invariant forall k :: 0 <= k < i ==> Views(market)[k] == advanced[k]
      invariant forall k :: i <= k < |market| ==> Views(market)[k] == quotes[k]
    {
      AdvanceAt(market, i);
      i := i + 1;
    }
  }

  /** Every stock of the market is consistent and tradable. */
  ghost predicate MarketReady(market: seq<Stock>)
    reads market
  {
    MarketListed(market) && AllTradable(Views(market))
  }
}
