# Stock market simulator: a verified model of its core

StockMarketSimulator replays historical daily closing prices. A list of
traders, each driven by one trading strategy, buys whole shares day by day.
On the first day of every month the exchange records what each trader's cash
and holdings are worth.

This project models the core of the program in Dafny:

- the `Stock` object: its price history, a cursor that marks "today", and
  the moving-average, standard-deviation and RSI indicators, all computed
  relative to the cursor;
- the `Trader` object: cash, a symbol -> shares portfolio, the whole-share
  buy rule, and execution of a strategy's decision over the market list;
- the `StockExchange` object: the daily loop of `runSimulation`,
  `updateDate`, `updateStocks` and the portfolio valuation;
- the five strategies (buy-and-hold evenly, random, moving-average
  crossover, RSI thresholds, mean reversion) and the `StrategyFactory`.

Each Java class whose fields change becomes a Dafny `class`, with the same
fields and loops (`Stocks.Stock`, `Traders.Trader`,
`Simulation.StockExchange`, `BuyAndHold.BuyAndHoldEvenly`,
`RandomPick.RandomStrategy`). Each class has a value view:

| class | value view |
|---|---|
| `Stock` | `Quote` |
| `Trader` | `Ledger` and `Account` |
| strategy object | `Policy` |
| `StockExchange` | `World` |

Every method is proved equal to a function on these views. The properties
the program relies on are proved as lemmas about those functions.

Modules, one per component:

- `Stocks` (stock.dfy): the stock and its indicators.
- `Ledgers` and `DecisionTotals` (ledger.dfy): buying, executing a decision, valuation.
- `EvenSplit` (even_split.dfy): the sell / count / split-the-cash loops shared by the crossover and RSI rules.
- `MovingAverageCrossover`, `RsiThresholds`, `MeanReversion`, `BuyAndHold`, `RandomPick`: one module per rule.
- `Strategies` (strategy.dfy): dispatch over the five rules.
- `Factory` (strategy_factory.dfy): the strategy factory.
- `Traders` (trader.dfy): the trader.
- `Simulation` (stock_exchange.dfy): the exchange and its run.

Modelling choices:

- Prices and cash are `real`.
- Java's `(int)` cast of a non-negative double is the floor, saturating at
  `Integer.MAX_VALUE` (`Ledgers.Quantity`).
- A holding is a Java `int`, and `buyStock` adds the quantity to it with int
  arithmetic, which wraps (`Ledgers.Wrap32`). With `Integer.MAX_VALUE` cash,
  one share held and a buy of `Integer.MAX_VALUE` dollars at price 1, the
  holding wraps to `Integer.MIN_VALUE` (`Ledgers.BuyWraps`). So "a buy never
  lowers a holding" holds only while the sum fits in an int. The lemmas about
  holdings assume a price floor `floor > 0` and room to buy
  (`Ledgers.RoomToBuy`): for every market stock, holding * floor + cash is at
  most `Integer.MAX_VALUE` * floor. Under these assumptions no buy can wrap,
  and the room is kept from day to day.
- Dates are day numbers. `LocalDate.now()` and the first-of-month test are
  parameters of the run.
- `calculateStandardDeviation` divides the squared deviations by the number
  of points minus one (a sample deviation). The model follows the code.
  `Math.sqrt` is not modelled: a deviation is kept as its square
  (`Stocks.StdDev`). The mean-reversion band test compares squared gaps.
  `MeanReversion.BeyondBandMeaning` proves this equal to comparing against
  the square root.
- A one-point window gives 0/0 in Java, which is NaN. NaN fails every
  comparison, so it is the `NotANumber` case, which never triggers a band.
- The RSI value computed by the ta4j library is an oracle parameter of type
  `RsiOracle`.
- `java.util.Random` becomes a stream of draws (`RandomPick.Draw`) plus a
  counter of consumed calls.
- `Trader.makeDecision` only buys: amounts that are zero or negative are
  ignored. So the "sell" signals of the strategies never lower a holding of
  a trader with room to buy (`Simulation.RunNeverSells`). The random rule's "sell" is a positive
  fraction of a share count, so the trader executes it as a buy of that many
  dollars (`RandomPick.SellExecutesAsBuy`).

## Model

| member | source | states |
|---|---|---|
| Stocks.Prices | src/main/java/com/model/StockData.java:41-43 | the closing-price list has one entry per history record, each that record's price |
| Stocks.Window | src/main/java/com/model/Stock.java:85-92 | the averaging window holds index - max(0, index - days) + 1 prices |
| Stocks.AdvanceStep | src/main/java/com/model/Stock.java:70-77 | updatePrice keeps the cursor inside the history, keeps symbol and history, moves the cursor by one unless it is at the last index, and never moves it back |
| Stocks.AdvanceTimesIndex | src/main/java/com/model/Stock.java:70-77 | after k updates the cursor is at min(index + k, last index) and still inside the history |
| Stocks.WindowShape | src/main/java/com/model/Stock.java:85-92 | the window has days + 1 prices once index >= days, otherwise index + 1; its k-th entry is the price at start + k |
| Stocks.NoLookAhead | src/main/java/com/model/Stock.java:85-92 | the moving average and the deviation depend only on prices at or before the cursor, not on future prices |
| Stocks.SumBounds | src/main/java/com/model/Stock.java:87-90 | a sum of n prices that lie in [lo, hi] lies in [n * lo, n * hi] |
| Stocks.MovingAverageBounds | src/main/java/com/model/Stock.java:85-92 | the moving average lies between the lowest and the highest price of its window |
| Stocks.SumConstant | src/main/java/com/model/Stock.java:87-90 | proof helper: the sum of n equal prices c is n * c |
| Stocks.SumSquaresOfConstant | src/main/java/com/model/Stock.java:151-156 | the squared deviations of equal prices from their common value sum to zero |
| Stocks.SumSquaresNonNegative | src/main/java/com/model/Stock.java:151-156 | a sum of squared deviations is never negative |
| Stocks.ConstantWindow | src/main/java/com/model/Stock.java:85-159 | on a window of constant prices, the average is that price and the deviation is zero or undefined |
| Stocks.StdDevUndefinedIff | src/main/java/com/model/Stock.java:148-159 | the deviation is 0/0 exactly when the window has one point, that is when index == 0 or days == 0 |
| Stocks.StdDevNonNegative | src/main/java/com/model/Stock.java:148-159 | a defined variance is never negative, so its square root exists |
| Stocks.RsiNeutralBelowPeriod | src/main/java/com/model/Stock.java:135-137 | while the cursor is below the period, the RSI is the neutral 50 whatever ta4j would say |
| Stocks.SumStep | src/main/java/com/model/Stock.java:88-90 | one more loop iteration adds the next price to the running sum |
| Stocks.SumSquaresStep | src/main/java/com/model/Stock.java:153-156 | one more loop iteration adds the next squared deviation |
| Stocks.StaleIndicatorAsWritten | src/main/java/com/model/Stock.java:130-133 | with the cache test as written, a request for period 14 after a request for period 10 reads the 10-period indicator |
| Stocks.IndicatorPeriod | src/main/java/com/model/Stock.java:129-133 | the corrected cache test: the indicator read always has the requested period |
| Stocks.IndicatorPeriodAsWritten | src/main/java/com/model/Stock.java:130-133 | the cache test as written: the indicator read has the requested period, or it is the cached one reused for a request of the default period 14 |
| Stocks.IndicatorPeriodAgreement | src/main/java/com/model/Stock.java:130-133 | the test as written and the corrected test read the same period exactly when there is no cache, the request is not for 14, or the cache already has period 14 |
| Stocks.Stock.constructor | src/main/java/com/model/Stock.java:32-47 | a new stock has its cursor at 0 and the first price as current price (0 on an empty history); the RSI indicator is built with period 14 exactly when the history is non-empty |
| Stocks.Stock.GetCurrentPrice | src/main/java/com/model/Stock.java:54-56 | the current price is the price at the cursor |
| Stocks.Stock.UpdatePrice | src/main/java/com/model/Stock.java:70-77 | the stock becomes Advance of its old view, and the current price follows the cursor |
| Stocks.Stock.CalculateMovingAverage | src/main/java/com/model/Stock.java:85-92 | the loop returns the mean of the trailing window ending at the cursor |
| Stocks.Stock.CalculateVolatility | src/main/java/com/model/Stock.java:100-102 | the volatility is the standard deviation over the same days |
| Stocks.Stock.CalculateRSI | src/main/java/com/model/Stock.java:129-140 | the RSI is 50 below the period and ta4j's value at the cursor otherwise; the cached indicator ends with the requested period; the price state is unchanged; the cache test used is the corrected one, which agrees with the program for the default period 14 |
| Stocks.Stock.CalculateStandardDeviation | src/main/java/com/model/Stock.java:148-159 | the loop returns the sum of squared deviations from the window mean divided by count - 1, or NaN for a one-point window |
| Stocks.Stock.SquaredDifferences | src/main/java/com/model/Stock.java:151-156 | the second loop sums the squared deviations of the window's prices from the mean |
| Stocks.Views | src/main/java/com/simulation/StockExchange.java:25 | the market view lists each stock's view, in list order |
| Stocks.MarketRsi | src/main/java/com/strategy/RSIStrategy.java:24 | asking one stock of the market for its RSI leaves every stock's price state unchanged |
| Stocks.AdvanceAt | src/main/java/com/simulation/StockExchange.java:45 | updating one stock of a market of distinct stocks advances that stock only |
| Stocks.AdvanceAll | src/main/java/com/simulation/StockExchange.java:43-47 | every stock advances by one step, and tradable stocks stay tradable |
| Stocks.AdvanceMarket | src/main/java/com/simulation/StockExchange.java:43-47 | the loop leaves the market equal to AdvanceAll of its old views |
| Ledgers.Quantity | src/main/java/com/model/Trader.java:68 | the (int) cast: the largest whole number of shares the amount pays for, saturating at Integer.MAX_VALUE |
| Ledgers.Buy | src/main/java/com/model/Trader.java:66-75 | a buy changes only the bought symbol, never raises the cash and keeps non-negative cash non-negative, and keeps every holding an int; when the sum fits in an int it adds exactly the purchased shares, pays quantity * price, keeps cash + holding * price and keeps holdings positive |
| Ledgers.BuyOutcome | src/main/java/com/model/Trader.java:68-74 | a buy takes place exactly when at least one share is affordable; it then pays quantity * price and the holding becomes the int sum of the old holding and the quantity, wrapped |
| Ledgers.BuyExample | src/main/java/com/model/Trader.java:66-75 | 65 dollars at price 30 buys 2 shares out of 100 cash and leaves 40 |
| Ledgers.Wrap32 | src/main/java/com/model/Trader.java:72-73 | Java int addition: the result is always an int, equals the exact sum when that fits, and Integer.MAX_VALUE + 1 wraps to Integer.MIN_VALUE |
| Ledgers.Purchase | src/main/java/com/model/Trader.java:68-71 | the shares a buy adds: Quantity when at least one share is affordable and the cash covers them, otherwise none |
| Ledgers.BuyWraps | src/main/java/com/model/Trader.java:68-74 | with Integer.MAX_VALUE cash and one share held, a buy of Integer.MAX_VALUE dollars at price 1 spends all the cash and wraps the holding to Integer.MIN_VALUE |
| Ledgers.ExecuteStaysInRange | src/main/java/com/model/Trader.java:46-75 | executing any decision never raises the cash, keeps non-negative cash non-negative and keeps every holding an int |
| Ledgers.BuyWithinHeadroom | src/main/java/com/model/Trader.java:68-74 | with room to buy and a price at least the floor, a buy does not wrap |
| Ledgers.BuyKeepsHeadroom | src/main/java/com/model/Trader.java:68-74 | a buy that does not wrap, at a price at least the floor, keeps the room to buy |
| Ledgers.ExecuteLastFits | src/main/java/com/model/Trader.java:49-56 | when the buys over a market fit, so do those over its prefix, and then the last buy |
| Ledgers.PositivePart | src/main/java/com/model/Trader.java:53 | a symbol is acted on exactly when its decided amount is positive |
| Ledgers.SymbolsSnoc | src/main/java/com/model/Trader.java:49 | the market's symbols are those of its prefix plus the last one |
| Ledgers.LastSymbolFresh | src/main/java/com/model/Trader.java:49 | with distinct symbols, the last symbol is not in the prefix |
| Ledgers.ExecuteIgnoresNonBuys | src/main/java/com/model/Trader.java:46-57 | two decisions that agree on the positive amounts of the market symbols execute identically |
| Ledgers.ExecuteMonotone | src/main/java/com/model/Trader.java:46-75 | with a price floor and room to buy, executing a decision keeps the room and every holding an int, never lowers a holding, and keeps holdings positive |
| Ledgers.ExecuteOnlyMarketSymbols | src/main/java/com/model/Trader.java:49-55 | a symbol outside the market is never bought |
| Ledgers.HoldingsValueFrame | src/main/java/com/simulation/StockExchange.java:91-93 | the holdings value depends only on the holdings of the market symbols |
| Ledgers.HoldingsValueShift | src/main/java/com/simulation/StockExchange.java:91-93 | adding delta shares of the last stock raises the holdings value by delta times its price |
| Ledgers.ExecutePreservesValuation | src/main/java/com/simulation/StockExchange.java:89-95 | with distinct symbols and buys that fit in an int, executing a decision keeps cash + holdings value at the prices paid: buying only converts cash into shares |
| Ledgers.ExecuteValuationStep | src/main/java/com/model/Trader.java:49-56 | when the buys fit, the change in valuation over the whole market equals the change over the prefix, once the last buy is accounted for |
| Ledgers.ExecuteOneKeepsValuation | src/main/java/com/model/Trader.java:53-55 | one buy that does not wrap keeps the valuation at the prices paid |
| DecisionTotals.TotalUniform | src/main/java/com/strategy/BuyAndHoldEvenly.java:22-24 | a decision that gives every stock the same amount a totals N * a |
| DecisionTotals.EvenShares | src/main/java/com/strategy/BuyAndHoldEvenly.java:20 | proof helper: N shares of cash / N add back to cash |
| BuyAndHold.SpreadEntries | src/main/java/com/strategy/BuyAndHoldEvenly.java:22-24 | the loop maps exactly the market symbols, each to the per-stock amount |
| BuyAndHold.AllocationEntries | src/main/java/com/strategy/BuyAndHoldEvenly.java:17-26 | the first call on a non-empty market gives every stock cash / N and no other symbol anything |
| BuyAndHold.AllocationEmpty | src/main/java/com/strategy/BuyAndHoldEvenly.java:17 | after the first call, or on an empty market, the decision is empty |
| BuyAndHold.AllocationSumsToCash | src/main/java/com/strategy/BuyAndHoldEvenly.java:18-24 | with distinct symbols, the first allocation adds up to exactly the trader's cash |
| BuyAndHold.TraderTestExample | src/test/java/TraderTest.java:41-49 | 1000 cash over AAPL at 150 and GOOG at 200 buys 3 and 2 shares and leaves 150 |
| BuyAndHold.BuyAndHoldEvenly.constructor | src/main/java/com/strategy/BuyAndHoldEvenly.java:11 | a new strategy has not bought yet |
| BuyAndHold.BuyAndHoldEvenly.MakeDecision | src/main/java/com/strategy/BuyAndHoldEvenly.java:14-32 | the decision is the allocation for the cash and the old flag; afterwards the flag is set, even on an empty market |
| EvenSplit.CountTrue | src/main/java/com/strategy/MovingAverageStrategy.java:30-42 | the count of stocks to buy never exceeds the number of stocks |
| EvenSplit.SellPassStep | src/main/java/com/strategy/MovingAverageStrategy.java:19-27 | proof helper: one more iteration of the sell loop extends the specification by one stock |
| EvenSplit.CountTrueStep | src/main/java/com/strategy/MovingAverageStrategy.java:34-42 | proof helper: one more iteration of the counting loop extends the count by one flag |
| EvenSplit.BuyPassStep | src/main/java/com/strategy/MovingAverageStrategy.java:49-56 | proof helper: one more iteration of the allocation loop extends the specification by one stock |
| EvenSplit.CountTruePositive | src/main/java/com/strategy/MovingAverageStrategy.java:45 | one flagged stock makes the count positive |
| EvenSplit.CountTrueZero | src/main/java/com/strategy/MovingAverageStrategy.java:45 | no flagged stock gives a zero count |
| EvenSplit.SellPassEntries | src/main/java/com/strategy/MovingAverageStrategy.java:19-27 | the sell loop puts minus the holding's value on exactly the flagged stocks and nothing elsewhere |
| EvenSplit.BuyPassEntries | src/main/java/com/strategy/MovingAverageStrategy.java:49-56 | the allocation loop overwrites exactly the flagged stocks with the amount and keeps other entries |
| EvenSplit.SplitDecisionEntries | src/main/java/com/strategy/MovingAverageStrategy.java:15-60 | a buy-flagged stock gets cash / count, a stock flagged only to sell gets minus its value, the rest get nothing |
| EvenSplit.SellAmountNonPositive | src/main/java/com/strategy/MovingAverageStrategy.java:25 | while every holding is positive, a sell entry is never positive, so the trader never acts on it |
| EvenSplit.TotalOfFlagged | src/main/java/com/strategy/MovingAverageStrategy.java:49-56 | amounts a on the flagged stocks and 0 elsewhere total count * a |
| EvenSplit.RepeatIsProduct | src/main/java/com/strategy/MovingAverageStrategy.java:46 | proof helper: adding a to itself n times gives n * a |
| EvenSplit.TotalOfFlaggedRepeat | src/main/java/com/strategy/MovingAverageStrategy.java:49-56 | amounts a on the flagged stocks total a added count times |
| EvenSplit.SplitPositiveEntries | src/main/java/com/strategy/MovingAverageStrategy.java:45-57 | while every holding is positive and the cash is positive, the amounts the trader acts on are cash / count on the buy-flagged stocks and 0 elsewhere |
| EvenSplit.FlaggedSharesTotal | src/main/java/com/strategy/MovingAverageStrategy.java:46-56 | count shares whose product is the cash total the cash |
| EvenSplit.FlaggedSharesSumToCash | src/main/java/com/strategy/MovingAverageStrategy.java:46-56 | cash / count on each of count flagged stocks totals the cash |
| EvenSplit.SplitBuysSumToCash | src/main/java/com/strategy/MovingAverageStrategy.java:44-57 | while every holding is positive and the cash is positive, when any stock is flagged to buy, the amounts acted on add up to exactly the trader's cash |
| EvenSplit.SplitNoBuyNoPositive | src/main/java/com/strategy/MovingAverageStrategy.java:44-57 | while every holding is positive, when no stock is flagged to buy, the trader acts on nothing |
| MovingAverageCrossover.CrossSells | src/main/java/com/strategy/MovingAverageStrategy.java:19-24 | a stock is flagged to sell exactly when its 50-day average is below its 200-day average |
| MovingAverageCrossover.CrossBuys | src/main/java/com/strategy/MovingAverageStrategy.java:34-39 | a stock is flagged to buy exactly when its 50-day average is above its 200-day average |
| MovingAverageCrossover.CrossoverEntries | src/main/java/com/strategy/MovingAverageStrategy.java:15-60 | per stock: short > long gets cash / count, short < long gets minus its value, equal averages get nothing |
| MovingAverageCrossover.EarlyAveragesAgree | src/main/java/com/strategy/MovingAverageStrategy.java:20-21 | within the first 50 days both averages cover the same window and are equal |
| MovingAverageCrossover.EarlyStockNoEntry | src/main/java/com/strategy/MovingAverageStrategy.java:15-60 | a stock within its first 50 days never appears in the decision |
| MovingAverageCrossover.CrossoverBuysSumToCash | src/main/java/com/strategy/MovingAverageStrategy.java:44-57 | while every holding is positive and the cash is positive, the amounts acted on total the whole cash when any stock crosses upward, and nothing otherwise |
| MovingAverageCrossover.Averages | src/main/java/com/strategy/MovingAverageStrategy.java:20-21 | the two averages are the 50- and 200-day moving averages |
| MovingAverageCrossover.SellSignals | src/main/java/com/strategy/MovingAverageStrategy.java:19-27 | the first loop builds the sell pass over the crossover sell flags |
| MovingAverageCrossover.SellSignal | src/main/java/com/strategy/MovingAverageStrategy.java:20-26 | one iteration of the first loop |
| MovingAverageCrossover.CountBuySignals | src/main/java/com/strategy/MovingAverageStrategy.java:30-42 | the second loop counts the stocks flagged to buy |
| MovingAverageCrossover.AllocateBuys | src/main/java/com/strategy/MovingAverageStrategy.java:45-57 | the third loop puts the per-stock amount on the flagged stocks over the sell entries |
| MovingAverageCrossover.MakeDecision | src/main/java/com/strategy/MovingAverageStrategy.java:15-60 | the method returns the crossover decision of the market views |
| RsiThresholds.RsiSells | src/main/java/com/strategy/RSIStrategy.java:22-29 | a stock is flagged to sell exactly when its 14-period RSI exceeds 70 |
| RsiThresholds.RsiBuys | src/main/java/com/strategy/RSIStrategy.java:37-42 | a stock is flagged to buy exactly when its 14-period RSI is below 30 |
| RsiThresholds.RsiEntries | src/main/java/com/strategy/RSIStrategy.java:17-60 | per stock: RSI < 30 gets cash / count, RSI > 70 gets minus its value, the rest get nothing |
| RsiThresholds.YoungStockNoEntry | src/main/java/com/strategy/RSIStrategy.java:17-60 | a stock with fewer than 14 bars before the cursor has neutral RSI and never appears in the decision |
| RsiThresholds.RsiBuysSumToCash | src/main/java/com/strategy/RSIStrategy.java:45-57 | while every holding is positive and the cash is positive, the amounts acted on total the whole cash when any stock is oversold, and nothing otherwise |
| RsiThresholds.SellSignals | src/main/java/com/strategy/RSIStrategy.java:21-30 | the first loop builds the sell pass over the overbought flags and leaves the prices unchanged |
| RsiThresholds.CountBuySignals | src/main/java/com/strategy/RSIStrategy.java:33-43 | the second loop counts the oversold stocks |
| RsiThresholds.AllocateBuys | src/main/java/com/strategy/RSIStrategy.java:45-57 | the third loop puts the per-stock amount on the oversold stocks over the sell entries |
| RsiThresholds.MakeDecision | src/main/java/com/strategy/RSIStrategy.java:17-60 | the method returns the RSI decision of the market views and leaves the prices unchanged |
| MeanReversion.PositiveProduct | src/main/java/com/strategy/MeanReversionStrategy.java:25 | proof helper: a product of positive numbers is positive |
| MeanReversion.SquareMonotone | src/main/java/com/strategy/MeanReversionStrategy.java:25 | squaring is monotone on non-negative numbers |
| MeanReversion.BeyondBandMeaning | src/main/java/com/strategy/MeanReversionStrategy.java:25-32 | the squared band test holds exactly when the gap exceeds 1.0 times the square root of the variance |
| MeanReversion.BandsExclusive | src/main/java/com/strategy/MeanReversionStrategy.java:25-35 | the upper and lower bands never fire together, and neither fires on the first day |
| MeanReversion.ReversionPassStep | src/main/java/com/strategy/MeanReversionStrategy.java:18-36 | one more iteration of the loop |
| MeanReversion.ReversionPassEntries | src/main/java/com/strategy/MeanReversionStrategy.java:18-36 | the loop's decision holds only market symbols, each with its own stock's entry |
| MeanReversion.ReversionEntries | src/main/java/com/strategy/MeanReversionStrategy.java:15-39 | per stock: below the band gets cash / N, above the band and held gets minus its value, otherwise nothing |
| MeanReversion.BuyFlags | src/main/java/com/strategy/MeanReversionStrategy.java:32 | a stock is flagged to buy exactly when its price is below the lower band |
| MeanReversion.ReversionPositiveEntries | src/main/java/com/strategy/MeanReversionStrategy.java:25-35 | while every holding is positive and the cash is positive, the amounts acted on are cash / N on the stocks below the band and 0 elsewhere |
| MeanReversion.FewerShares | src/main/java/com/strategy/MeanReversionStrategy.java:33 | proof helper: at most N shares of cash / N stay within the cash |
| MeanReversion.FlaggedSharesWithinCash | src/main/java/com/strategy/MeanReversionStrategy.java:32-35 | cash / N on some of N stocks totals at most the cash |
| MeanReversion.FlaggedWithinCash | src/main/java/com/strategy/MeanReversionStrategy.java:32-35 | a share of cash / N on some of N stocks totals at most the cash |
| MeanReversion.ReversionBuysWithinCash | src/main/java/com/strategy/MeanReversionStrategy.java:15-39 | while every holding is positive and the cash is positive, the amounts acted on never exceed the trader's cash |
| MeanReversion.MakeDecision | src/main/java/com/strategy/MeanReversionStrategy.java:15-39 | the method returns the mean-reversion decision of the market views |
| MeanReversion.Visit | src/main/java/com/strategy/MeanReversionStrategy.java:19-35 | one iteration of the loop |
| RandomPick.Action | src/main/java/com/strategy/RandomStrategy.java:28 | nextInt(3) - 1 is -1, 0 or 1 |
| RandomPick.FractionBelow | src/main/java/com/strategy/RandomStrategy.java:31-35 | a fraction in [0, 1) of a non-negative quantity is non-negative, and below it when it is positive |
| RandomPick.RandomAmount | src/main/java/com/strategy/RandomStrategy.java:29-36 | hold gives 0; buy, for non-negative cash, gives a fraction in [0, cash], strictly below the cash when it is positive; "sell", for a non-negative holding, gives a fraction in [0, held], strictly below the holding when it is positive |
| RandomPick.RandomDecision | src/main/java/com/strategy/RandomStrategy.java:16-39 | the decision is empty exactly on an empty market; otherwise its only key is the stock at the drawn position, with the random amount for that stock |
| RandomPick.SellExecutesAsBuy | src/main/java/com/strategy/RandomStrategy.java:34-35 | a "sell" of a held stock with a non-zero fraction is a positive amount, which the trader executes as a buy |
| RandomPick.RandomStrategy.constructor | src/main/java/com/strategy/RandomStrategy.java:13 | a new strategy has consumed no draws |
| RandomPick.RandomStrategy.MakeDecision | src/main/java/com/strategy/RandomStrategy.java:16-39 | the decision is the random decision for the next draw; a draw is consumed only on a non-empty market |
| Strategies.Decide | src/main/java/com/strategy/Strategy.java:16 | each rule's decision keeps the rule's kind |
| Strategies.StatelessRulesKeepPolicy | src/main/java/com/strategy/MovingAverageStrategy.java:15-60 | the crossover, RSI and mean-reversion rules carry no state between calls |
| Strategies.BuyAndHoldFiresOnce | src/main/java/com/strategy/BuyAndHoldEvenly.java:17-28 | a second buy-and-hold decision is empty, whatever the market and the cash |
| Strategies.MakeDecision | src/main/java/com/model/Trader.java:47 | the strategy object's call returns Decide of its old state and ends in Decide's next state, leaving prices unchanged |
| Strategies.BuyAndHoldMakeDecision | src/main/java/com/strategy/BuyAndHoldEvenly.java:14-32 | the buy-and-hold object's call agrees with Decide on its flag |
| Strategies.RandomMakeDecision | src/main/java/com/strategy/RandomStrategy.java:16-39 | the random object's call agrees with Decide on its draw counter |
| Factory.ListedNamesCreate | src/main/java/com/strategy/StrategyFactory.java:11-53 | each of the five listed names creates its own rule, in list order |
| Factory.LookupAcceptsListedNames | src/main/java/com/strategy/StrategyFactory.java:38-53 | create succeeds exactly for the names in the list |
| Factory.LookupInjective | src/main/java/com/strategy/StrategyFactory.java:39-51 | two names that create the same rule are the same name |
| Factory.VariantsRejected | src/main/java/com/strategy/StrategyFactory.java:50-51 | the match is exact: other case, extra spaces and the empty name give null |
| Factory.JoinCons | src/main/java/com/strategy/StrategyFactory.java:29 | joining two or more names puts the separator after the first |
| Factory.AvailableStrategiesNamesText | src/main/java/com/strategy/StrategyFactory.java:28-30 | the text is "[" + the five names separated by ", " + "]" |
| Factory.InitialPolicy | src/main/java/com/strategy/StrategyFactory.java:40-49 | a fresh rule of each kind starts in that kind's initial state |
| Factory.Create | src/main/java/com/strategy/StrategyFactory.java:38-53 | null exactly for unknown names; otherwise a fresh object of the named rule in its initial state |
| Traders.Trade | src/main/java/com/model/Trader.java:46-57 | a trade keeps the trader's name and the kind of its rule |
| Traders.TradeKeepsLedgerSound | src/main/java/com/model/Trader.java:46-75 | a trade never raises the cash, keeps it non-negative and keeps every holding an int; when the buys fit it keeps them fitting, never lowers a holding, keeps holdings positive, and with distinct symbols keeps the valuation at the prices used |
| Traders.UnheldStockWorthNothing | src/main/java/com/model/Trader.java:110-113 | an unheld stock is worth 0 to the trader |
| Traders.TradeOf | src/main/java/com/model/Trader.java:46-57 | a trade is the execution of whatever the rule decided |
| Traders.Trader.constructor | src/main/java/com/model/Trader.java:33-38 | a new trader holds the given cash and no shares, and is named after the strategy's class and the cash |
| Traders.Trader.MakeDecision | src/main/java/com/model/Trader.java:46-57 | the trader becomes Trade of its old view, its holdings stay ints, and prices are unchanged |
| Traders.Trader.ExecuteDecision | src/main/java/com/model/Trader.java:49-56 | the loop applies the decision to the ledger in market order |
| Traders.Trader.BuyStock | src/main/java/com/model/Trader.java:66-75 | the ledger becomes Buy of the old ledger at the stock's current price, with the int addition of the holding |
| Traders.Trader.GetStockTotalValue | src/main/java/com/model/Trader.java:110-113 | the value is the current price times the shares held, 0 when none are held |
| Traders.Accounts | src/main/java/com/simulation/StockExchange.java:26 | the trader list's views, in list order |
| Simulation.TradeAll | src/main/java/com/simulation/StockExchange.java:60-63 | each trader in turn trades against the same prices |
| Simulation.Step | src/main/java/com/simulation/StockExchange.java:55-77 | a day keeps every stock tradable |
| Simulation.StepTimes | src/main/java/com/simulation/StockExchange.java:55-77 | n days keep every stock tradable |
| Simulation.RunSteps | src/main/java/com/simulation/StockExchange.java:55-77 | the run performs exactly one day per date from the start through today |
| Simulation.StepTimesShape | src/main/java/com/simulation/StockExchange.java:55-77 | after n days the date has moved n, the traders keep their names and every cursor is at min(index + n, last index) |
| Simulation.RunEnd | src/main/java/com/simulation/StockExchange.java:50-87 | the run ends on the day after today (or at once when the start is after today), with every cursor advanced by the number of days |
| Simulation.RunRecordKeys | src/main/java/com/simulation/StockExchange.java:66-73 | the record holds the earlier keys plus exactly the first-of-month days in [start, today] |
| Simulation.RunKeepsRecord | src/main/java/com/simulation/StockExchange.java:66-73 | an earlier entry on a day the run does not visit is kept |
| Simulation.RunRecordValue | src/main/java/com/simulation/StockExchange.java:66-73 | the entry of a visited first of month is the valuation after that day's trades at that day's prices |
| Simulation.RunRecordDates | src/main/java/com/simulation/StockExchange.java:50-87 | a run from an empty record records exactly the first-of-month days in [start, today] |
| Simulation.SnapshotKeys | src/main/java/com/simulation/StockExchange.java:67-71 | the monthly map has exactly the traders' names as keys |
| Simulation.SnapshotLastNameWins | src/main/java/com/simulation/StockExchange.java:68-71 | for traders sharing a name, the last one's valuation is kept |
| Simulation.StepTimesKeepsLedgersSound | src/main/java/com/simulation/StockExchange.java:55-77 | over any number of days no cash rises, non-negative cash stays non-negative and holdings stay ints; with a floor under every price of the histories, a trader with room to buy keeps it, no holding of theirs falls, and holdings stay positive |
| Simulation.HistoryFloorStep | src/main/java/com/simulation/StockExchange.java:74-75 | a floor under every price of the histories is under today's prices, and stays under them after the stocks advance, with the same symbols |
| Simulation.RunNeverSells | src/main/java/com/simulation/StockExchange.java:50-87 | over a whole run no cash rises or turns negative; with a floor under every price of the histories, no holding of a trader with room to buy falls |
| Simulation.TradeAllKeepsValuations | src/main/java/com/simulation/StockExchange.java:60-63 | with distinct symbols, a day's trades keep the valuation, at that day's prices, of every trader whose buys fit in an int |
| Simulation.StockExchange.constructor | src/main/java/com/simulation/StockExchange.java:30-35 | an exchange of distinct ready stocks and separate valid traders starts valid, at its start date, with the given stocks and traders |
| Simulation.StockExchange.UpdateDate | src/main/java/com/simulation/StockExchange.java:38-40 | the date moves one day on and nothing else changes |
| Simulation.StockExchange.UpdateStocks | src/main/java/com/simulation/StockExchange.java:43-47 | every stock advances one step and nothing else changes |
| Simulation.StockExchange.GetPortfolioValue | src/main/java/com/simulation/StockExchange.java:89-95 | the value is the trader's cash plus the value of its holdings at current prices |
| Simulation.StockExchange.MonthlyValues | src/main/java/com/simulation/StockExchange.java:67-71 | the monthly map is the snapshot of the traders' views at current prices |
| Simulation.StockExchange.TradeRound | src/main/java/com/simulation/StockExchange.java:60-63 | every trader trades in list order, and prices and date are unchanged |
| Simulation.StockExchange.TradeOne | src/main/java/com/simulation/StockExchange.java:62 | one trader trades and every other trader is unchanged |
| Simulation.StockExchange.RunSimulation | src/main/java/com/simulation/StockExchange.java:50-87 | the loop ends in the state and with the record that Run computes from the start state |
| Simulation.StockExchange.TradeAndRecord | src/main/java/com/simulation/StockExchange.java:59-73 | a day's trades followed by the monthly record of that day |
| Simulation.StockExchange.RecordDay | src/main/java/com/simulation/StockExchange.java:66-73 | on a first of month the day's snapshot is added; otherwise the record is unchanged |
| Simulation.StockExchange.AdvanceDay | src/main/java/com/simulation/StockExchange.java:74-75 | the date moves one day on and every stock advances one step |

## Left out

- Printing, the CSV file, the plot, the console text and `getTransactionsHistory` are output only. Their text is not modelled.
- `LocalDate.now()` and `getDayOfMonth() == 1` are I/O and calendar arithmetic. They become the run's `today` and `isFirstOfMonth` parameters, and dates are day numbers.
- ta4j's RSI computation is a foreign library. It is the `RsiOracle` parameter, and only the neutral-50 guard and the cache are modelled.
- `java.util.Random`'s generator is replaced by a stream of draws. `nextInt(n)` is a natural reduced modulo n, so the distribution is not modelled.
- IEEE doubles are not modelled: prices and cash are exact reals, without rounding, infinities or NaN propagation.
- `Math.sqrt` is not modelled: deviations are kept as variances, and the band test compares squares.
- The text of `initialCash` inside the trader's name (Java's double-to-string formatting) is the constructor's `cashText` parameter.
- `setCurrentPrice` has no caller in the core. It would break the link between the current price and the cursor, so it is not modelled.
- `Strategy.getName` and the name constants of each rule are display text only. The `Strategy` interface is the `Strategies.Strategy` datatype over the five rule objects.
- A `null` strategy name (the factory's `switch` throws `NullPointerException`) cannot be expressed on `string`.
- A trader with a `null` strategy, as `create` returns for an unknown name, is not modelled: `Traders.Trader.constructor` takes an existing strategy.
- Simulation.StockExchange.UpdateStocks: requires the stocks of the list to be distinct objects and every stock to have a non-empty history of positive prices. The Java loop would call `updatePrice` twice on a repeated object. A zero price does not throw in Java: amount / 0.0 is Infinity, the (int) cast gives `Integer.MAX_VALUE`, and 2147483647 shares are bought for nothing. The model does not cover that case.
- Traders.Trader.MakeDecision: requires a market of non-empty histories with positive prices (`MarketReady`) and traders whose strategy objects are not shared. An empty history does not throw in Java: `updatePrice` does nothing and the current price stays 0.0. A buy-and-hold or random buy of such a stock then gets `Integer.MAX_VALUE` shares for nothing, as above. The model does not cover that case.
- Stocks.Stock.CalculateRSI: uses the corrected cache test (`Stocks.IndicatorPeriod`) rather than the one as written. The two read the same indicator whenever the cache is empty or has period 14 and 14 is requested (`Stocks.IndicatorPeriodAgreement`). The program always calls `calculateRSI(14)`, and the constructor builds a 14-period indicator, so this is the program's only case.
- Simulation.StockExchange.constructor: requires distinct stocks with ready histories, distinct trader objects with disjoint strategy footprints, and valid traders, so that the exchange starts `Valid()`. The command-line driver builds a new trader and a new strategy for each entry, which meets this.
- Ledgers.ExecuteMonotone, Traders.TradeKeepsLedgerSound, Simulation.StepTimesKeepsLedgersSound, Simulation.RunNeverSells: "no holding falls" is proved only under a price floor and room to buy (`Ledgers.RoomToBuy`). Without that room the int sum of a holding can wrap negative (`Ledgers.BuyWraps`). The cash and int-range facts hold unconditionally.
- EvenSplit.SellAmountNonPositive, EvenSplit.SplitPositiveEntries, EvenSplit.SplitBuysSumToCash, EvenSplit.SplitNoBuyNoPositive, MovingAverageCrossover.CrossoverBuysSumToCash, RsiThresholds.RsiBuysSumToCash, MeanReversion.ReversionPositiveEntries, MeanReversion.ReversionBuysWithinCash: hold only while every holding is positive, and all but EvenSplit.SellAmountNonPositive and EvenSplit.SplitNoBuyNoPositive also need positive cash. A holding that has wrapped negative (`Ledgers.BuyWraps`) makes a sell entry, minus price times holding, positive, and the trader then executes it as a buy. A run that starts with positive holdings, a price floor under the histories and room to buy keeps every holding positive (`Simulation.StepTimesKeepsLedgersSound`), so the holding condition holds on every day of such a run.
- RandomPick.RandomAmount: its bounds are stated only for non-negative cash and a non-negative holding. A holding that has wrapped negative (`Ledgers.BuyWraps`) makes the "sell" amount negative, and the trader then ignores it.
- Ledgers.ExecutePreservesValuation, Simulation.TradeAllKeepsValuations: stated for buys that fit in an int (`Ledgers.BuysFit`). A wrapped holding breaks cash + holdings value.
- Stocks.Stock.CalculateMovingAverage: requires a non-empty history. On an empty one the Java loop throws `IndexOutOfBoundsException`.
- `days` is a `nat` in the averaging and deviation methods. The Java code accepts a negative `int`, but no caller passes one.
- Ledgers.HoldingsValueShift: stated only for a change to the last stock of the list, the only case the proofs need.

## Findings

| source | as written | input that shows it | evidently intended | confidence | as-written member | corrected member |
|---|---|---|---|---|---|---|
| src/main/java/com/model/Stock.java:130-133 | the cached RSI indicator is rebuilt only when there is none or the requested period differs from 14, so a request for 14 reuses whatever indicator was built last | `calculateRSI(10)` followed by `calculateRSI(14)`: the second call reads the 10-period indicator | the indicator read always has the requested period | not executed | Stocks.StaleIndicatorAsWritten | Stocks.IndicatorPeriod |
