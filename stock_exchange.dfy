/**
 * The exchange (src/main/java/com/simulation/StockExchange.java): a market of
 * stocks, a list of traders and a date. Each simulated day every trader
 * decides and buys at that day's prices, a valuation of every trader is
 * recorded on the first day of a month, and then the date and every stock
 * advance by one step. Dates are day numbers; "today" and the first-of-month
 * test are parameters.
 */
module Simulation {
  import opened Stocks
  import opened Ledgers
  import opened Strategies
  import opened Traders

  /** Trader name -> portfolio value on one day. */
  type Valuations = map<string, real>

  /** Date -> the valuations recorded that day. */
  type History = map<int, Valuations>

  /** The exchange as a value: date, stock views and trader views. */
  datatype World = World(date: int, quotes: seq<Quote>, accounts: seq<Account>)

  /** Every trader makes one decision against the same market views, in list order. */
  function TradeAll(quotes: seq<Quote>, accounts: seq<Account>, ta4j: RsiOracle): (r: seq<Account>)
    requires AllTradable(quotes)
    ensures |r| == |accounts| && forall k :: 0 <= k < |accounts| ==> r[k] == Trade(accounts[k], quotes, ta4j)
  {
    seq(|accounts|, k requires 0 <= k < |accounts| => Trade(accounts[k], quotes, ta4j))
  }

  /** The monthly map: each trader's name to its valuation, in list order, so a later equal name overwrites. */
  function Snapshot(accounts: seq<Account>, quotes: seq<Quote>): Valuations
  {
    if accounts == [] then map[]
    else
      var last := accounts[|accounts| - 1];
      Snapshot(accounts[..|accounts| - 1], quotes)[last.name := Valuation(last.ledger, quotes)]
  }

  /** The valuations of a day: after that day's trades, at that day's prices. */
  function DaySnapshot(w: World, ta4j: RsiOracle): Valuations
    requires AllTradable(w.quotes)
  {
    Snapshot(TradeAll(w.quotes, w.accounts, ta4j), w.quotes)
  }

  /** One day: all traders trade, then the date and every stock advance. */
  function Step(w: World, ta4j: RsiOracle): (r: World)
    requires AllTradable(w.quotes)
    ensures AllTradable(r.quotes)
  {
    World(w.date + 1, AdvanceAll(w.quotes), TradeAll(w.quotes, w.accounts, ta4j))
  }

  /** The day's record: its valuations on the first of a month, nothing otherwise. */
  function Record(w: World, isFirstOfMonth: int -> bool, ta4j: RsiOracle, values: History): History
    requires AllTradable(w.quotes)
  {
    if isFirstOfMonth(w.date) then values[w.date := DaySnapshot(w, ta4j)] else values
  }

  /** The runSimulation loop: a day at a time while the date is not after today. */
  function Run(w: World, today: int, isFirstOfMonth: int -> bool, ta4j: RsiOracle, values: History): (World, History)
    requires AllTradable(w.quotes)
    decreases Days(w.date, today)
  {
    if w.date > today then (w, values)
    else Run(Step(w, ta4j), today, isFirstOfMonth, ta4j, Record(w, isFirstOfMonth, ta4j, values))
  }

  /** How many days a run from start to today takes. */
  function Days(start: int, today: int): nat {
    if start <= today then today - start + 1 else 0
  }

  /** n days of the simulation. */
  function StepTimes(w: World, n: nat, ta4j: RsiOracle): (r: World)
    requires AllTradable(w.quotes)
    ensures AllTradable(r.quotes)
    decreases n
  {
    if n == 0 then w else StepTimes(Step(w, ta4j), n - 1, ta4j)
  }

  // ---------------------------------------------------------------------------
  // Properties of the run

  /** The run is Days(start, today) steps: it ends the day after today, or at once when start is after today. */
  lemma {:induction false} RunSteps(w: World, today: int, isFirstOfMonth: int -> bool, ta4j: RsiOracle, values: History)
    requires AllTradable(w.quotes)
    ensures Run(w, today, isFirstOfMonth, ta4j, values).0 == StepTimes(w, Days(w.date, today), ta4j)
    decreases Days(w.date, today)
  {
    if w.date <= today {
      RunSteps(Step(w, ta4j), today, isFirstOfMonth, ta4j, Record(w, isFirstOfMonth, ta4j, values));
    }
  }

  /** After n days the date has moved by n, the traders keep their names and each cursor is at min(index + n, last). */
  lemma {:induction false} StepTimesShape(w: World, n: nat, ta4j: RsiOracle)
    requires AllTradable(w.quotes)
    decreases n
    ensures StepTimes(w, n, ta4j).date == w.date + n
    ensures |StepTimes(w, n, ta4j).accounts| == |w.accounts|
    ensures forall k :: 0 <= k < |w.accounts| ==> StepTimes(w, n, ta4j).accounts[k].name == w.accounts[k].name
    ensures |StepTimes(w, n, ta4j).quotes| == |w.quotes|
    ensures forall k :: 0 <= k < |w.quotes| ==>
      var q, q' := w.quotes[k], StepTimes(w, n, ta4j).quotes[k];
      q'.symbol == q.symbol && q'.history == q.history && q'.index == Min(q.index + n, q.LastIndex())
  {
    if n > 0 {
      var w' := Step(w, ta4j);
      StepTimesShape(w', n - 1, ta4j);
      forall k | 0 <= k < |w.quotes|
        ensures Advance(w.quotes[k]).index == Min(w.quotes[k].index + 1, w.quotes[k].LastIndex())
      {
        AdvanceStep(w.quotes[k]);
      }
    }
  }

  /** A run from start to today ends on today + 1 (or on start if start is after today), each cursor at min(index + days, last). */
  lemma {:induction false} RunEnd(w: World, today: int, isFirstOfMonth: int -> bool, ta4j: RsiOracle)
    requires AllTradable(w.quotes)
    ensures var end := Run(w, today, isFirstOfMonth, ta4j, map[]).0;
      && end.date == (if w.date <= today then today + 1 else w.date)
      && |end.quotes| == |w.quotes|
      && forall k :: 0 <= k < |w.quotes| ==>
           end.quotes[k].index == Min(w.quotes[k].index + Days(w.date, today), w.quotes[k].LastIndex())
  {
    RunSteps(w, today, isFirstOfMonth, ta4j, map[]);
    StepTimesShape(w, Days(w.date, today), ta4j);
  }

  /** The run adds a record for exactly the first-of-month days in [start, today]. */
  lemma {:induction false} RunRecordKeys(w: World, today: int, isFirstOfMonth: int -> bool, ta4j: RsiOracle, values: History)
    requires AllTradable(w.quotes)
    ensures forall d :: d in Run(w, today, isFirstOfMonth, ta4j, values).1 <==>
      d in values || (w.date <= d <= today && isFirstOfMonth(d))
    decreases Days(w.date, today)
  {
    if w.date <= today {
      RunRecordKeys(Step(w, ta4j), today, isFirstOfMonth, ta4j, Record(w, isFirstOfMonth, ta4j, values));
    }
  }

  /** A record from before the run is kept, unless the run passes through that day and it is the first of a month. */
  lemma {:induction false} RunKeepsRecord(w: World, today: int, isFirstOfMonth: int -> bool, ta4j: RsiOracle, values: History, d: int)
    requires AllTradable(w.quotes)
    requires d in values && !(w.date <= d <= today && isFirstOfMonth(d))
    ensures d in Run(w, today, isFirstOfMonth, ta4j, values).1
    ensures Run(w, today, isFirstOfMonth, ta4j, values).1[d] == values[d]
    decreases Days(w.date, today)
  {
    if w.date <= today {
      RunKeepsRecord(Step(w, ta4j), today, isFirstOfMonth, ta4j, Record(w, isFirstOfMonth, ta4j, values), d);
    }
  }

  /** The record of a first-of-month day in [start, today] holds the valuations after that day's trades, at that day's prices. */
  lemma {:induction false} RunRecordValue(w: World, today: int, isFirstOfMonth: int -> bool, ta4j: RsiOracle, values: History, d: int)
    requires AllTradable(w.quotes)
    requires w.date <= d <= today && isFirstOfMonth(d)
    ensures d in Run(w, today, isFirstOfMonth, ta4j, values).1
    ensures Run(w, today, isFirstOfMonth, ta4j, values).1[d] == DaySnapshot(StepTimes(w, d - w.date, ta4j), ta4j)
    decreases Days(w.date, today)
  {
    var w' := Step(w, ta4j);
    var values' := Record(w, isFirstOfMonth, ta4j, values);
    if d == w.date {
      RunKeepsRecord(w', today, isFirstOfMonth, ta4j, values', d);
    } else {
      RunRecordValue(w', today, isFirstOfMonth, ta4j, values', d);
      assert StepTimes(w, d - w.date, ta4j) == StepTimes(w', d - w'.date, ta4j);
    }
  }

  /** A run started with no records records exactly the first-of-month days in [start, today]. */
  lemma {:induction false} RunRecordDates(w: World, today: int, isFirstOfMonth: int -> bool, ta4j: RsiOracle)
    requires AllTradable(w.quotes)
    ensures forall d :: d in Run(w, today, isFirstOfMonth, ta4j, map[]).1 <==> w.date <= d <= today && isFirstOfMonth(d)
  {
    RunRecordKeys(w, today, isFirstOfMonth, ta4j, map[]);
  }

  /** The snapshot has one entry per trader name. */
  lemma {:induction false} SnapshotKeys(accounts: seq<Account>, quotes: seq<Quote>)
    requires AllListed(quotes)
    ensures forall s :: s in Snapshot(accounts, quotes) <==> exists k :: 0 <= k < |accounts| && accounts[k].name == s
  {
    if accounts != [] {
      var init := accounts[..|accounts| - 1];
      var last := accounts[|accounts| - 1];
      SnapshotKeys(init, quotes);
      forall s | s in Snapshot(accounts, quotes)
        ensures exists k :: 0 <= k < |accounts| && accounts[k].name == s
      {
        if s != last.name {
          assert s in Snapshot(init, quotes);
          var k :| 0 <= k < |init| && init[k].name == s;
          assert accounts[k].name == s;
        }
      }
      forall s | exists k :: 0 <= k < |accounts| && accounts[k].name == s
        ensures s in Snapshot(accounts, quotes)
      {
        var k :| 0 <= k < |accounts| && accounts[k].name == s;
        if k < |init| {
          assert init[k].name == s;
        }
      }
    }
  }

  /** A trader's name is valued at the last trader of that name: equal names overwrite. */
  lemma {:induction false} SnapshotLastNameWins(accounts: seq<Account>, quotes: seq<Quote>, k: nat)
    requires AllListed(quotes) && k < |accounts|
    requires forall j :: k < j < |accounts| ==> accounts[j].name != accounts[k].name
    ensures accounts[k].name in Snapshot(accounts, quotes)
    ensures Snapshot(accounts, quotes)[accounts[k].name] == Valuation(accounts[k].ledger, quotes)
  {
    var init := accounts[..|accounts| - 1];
    if k < |init| {
      SnapshotLastNameWins(init, quotes, k);
    }
  }

  /** Every price of every history is at least floor, a positive lower bound. */
  ghost predicate HistoryFloor(quotes: seq<Quote>, floor: real) {
    floor > 0.0 && forall k, j :: 0 <= k < |quotes| && 0 <= j < |quotes[k].history| ==> floor <= quotes[k].history[j].price
  }

  /** A floor under the histories is under today's prices and under the next day's histories, whose symbols are the same. */
  lemma {:induction false} HistoryFloorStep(quotes: seq<Quote>, floor: real)
    requires AllTradable(quotes) && HistoryFloor(quotes, floor)
    ensures PriceFloor(quotes, floor)
    ensures HistoryFloor(AdvanceAll(quotes), floor)
    ensures Symbols(AdvanceAll(quotes)) == Symbols(quotes)
  {
    var next := AdvanceAll(quotes);
    forall k | 0 <= k < |quotes| ensures floor <= quotes[k].Price() {
      assert quotes[k].Listed();
    }
    forall k | 0 <= k < |quotes| ensures next[k].symbol == quotes[k].symbol && next[k].history == quotes[k].history {
    }
    assert Symbols(next) == Symbols(quotes) by {
      forall s | s in Symbols(quotes) ensures s in Symbols(next) {
        var k :| 0 <= k < |quotes| && quotes[k].symbol == s;
        assert next[k].symbol == s;
      }
    }
  }

  /**
   * Over n days no cash rises, non-negative cash stays non-negative and every
   * holding stays an int. With a floor under every price of the histories,
   * a trader with room to buy keeps it, no holding of theirs falls, and
   * positive holdings stay positive: the traders never sell.
   */
  lemma {:induction false} StepTimesKeepsLedgersSound(w: World, n: nat, ta4j: RsiOracle, floor: real)
    requires AllTradable(w.quotes)
    decreases n
    ensures |StepTimes(w, n, ta4j).accounts| == |w.accounts|
    ensures forall k :: 0 <= k < |w.accounts| ==>
      StepTimes(w, n, ta4j).accounts[k].ledger.cash <= w.accounts[k].ledger.cash
    ensures forall k :: 0 <= k < |w.accounts| && w.accounts[k].ledger.cash >= 0.0 ==>
      StepTimes(w, n, ta4j).accounts[k].ledger.cash >= 0.0
    ensures forall k :: 0 <= k < |w.accounts| && IntHoldings(w.accounts[k].ledger.portfolio) ==>
      IntHoldings(StepTimes(w, n, ta4j).accounts[k].ledger.portfolio)
    ensures HistoryFloor(w.quotes, floor) ==>
      forall k :: 0 <= k < |w.accounts| && RoomToBuy(w.accounts[k].ledger, w.quotes, floor) ==>
        && RoomToBuy(StepTimes(w, n, ta4j).accounts[k].ledger, w.quotes, floor)
        && (forall s :: Held(StepTimes(w, n, ta4j).accounts[k].ledger.portfolio, s) >= Held(w.accounts[k].ledger.portfolio, s))
        && (PositiveHoldings(w.accounts[k].ledger.portfolio) ==>
              PositiveHoldings(StepTimes(w, n, ta4j).accounts[k].ledger.portfolio))
  {
    if n > 0 {
      var w' := Step(w, ta4j);
      StepTimesKeepsLedgersSound(w', n - 1, ta4j, floor);
      if HistoryFloor(w.quotes, floor) {
        HistoryFloorStep(w.quotes, floor);
      }
      forall k | 0 <= k < |w.accounts|
        ensures w'.accounts[k].ledger.cash <= w.accounts[k].ledger.cash
        ensures w.accounts[k].ledger.cash >= 0.0 ==> w'.accounts[k].ledger.cash >= 0.0
        ensures IntHoldings(w.accounts[k].ledger.portfolio) ==> IntHoldings(w'.accounts[k].ledger.portfolio)
        ensures HistoryFloor(w.quotes, floor) && RoomToBuy(w.accounts[k].ledger, w.quotes, floor) ==>
          && RoomToBuy(w'.accounts[k].ledger, w.quotes, floor)
          && (forall s :: Held(w'.accounts[k].ledger.portfolio, s) >= Held(w.accounts[k].ledger.portfolio, s))
          && (PositiveHoldings(w.accounts[k].ledger.portfolio) ==> PositiveHoldings(w'.accounts[k].ledger.portfolio))
      {
        TradeKeepsLedgerSound(w.accounts[k], w.quotes, ta4j, floor);
      }
    }
  }

  /**
   * Over a whole run no trader's cash rises or goes from non-negative to
   * negative; with a floor under every price of the histories, no holding
   * of a trader with room to buy falls.
   */
  lemma {:induction false} RunNeverSells(w: World, today: int, isFirstOfMonth: int -> bool, ta4j: RsiOracle, floor: real)
    requires AllTradable(w.quotes)
    ensures var end := Run(w, today, isFirstOfMonth, ta4j, map[]).0;
      && |end.accounts| == |w.accounts|
      && (forall k :: 0 <= k < |w.accounts| ==> end.accounts[k].ledger.cash <= w.accounts[k].ledger.cash)
      && (forall k :: 0 <= k < |w.accounts| && w.accounts[k].ledger.cash >= 0.0 ==> end.accounts[k].ledger.cash >= 0.0)
      && (HistoryFloor(w.quotes, floor) ==>
            forall k, s :: 0 <= k < |w.accounts| && RoomToBuy(w.accounts[k].ledger, w.quotes, floor) ==>
              Held(end.accounts[k].ledger.portfolio, s) >= Held(w.accounts[k].ledger.portfolio, s))
  {
    RunSteps(w, today, isFirstOfMonth, ta4j, map[]);
    StepTimesKeepsLedgersSound(w, Days(w.date, today), ta4j, floor);
  }

  /** With distinct symbols, a day's trades keep the valuation, at that day's prices, of every trader whose buys fit. */
  lemma {:induction false} TradeAllKeepsValuations(quotes: seq<Quote>, accounts: seq<Account>, ta4j: RsiOracle, floor: real)
    requires AllTradable(quotes) && DistinctSymbols(quotes)
    ensures forall k :: 0 <= k < |accounts| && BuysFit(accounts[k].ledger, quotes, floor) ==>
      Valuation(TradeAll(quotes, accounts, ta4j)[k].ledger, quotes) == Valuation(accounts[k].ledger, quotes)
  {
    forall k | 0 <= k < |accounts| && BuysFit(accounts[k].ledger, quotes, floor)
      ensures Valuation(Trade(accounts[k], quotes, ta4j).ledger, quotes) == Valuation(accounts[k].ledger, quotes)
    {
      TradeKeepsLedgerSound(accounts[k], quotes, ta4j, floor);
    }
  }

  /** Distinct trader objects, no two of which share a strategy object. */
  ghost predicate SeparateTraders(traders: seq<Trader>) {
    forall i, j :: 0 <= i < |traders| && 0 <= j < |traders| && i != j ==>
      traders[i] != traders[j] && traders[i].strategy.Footprint() !! traders[j].strategy.Footprint()
  }

  /** Every trader of the list is valid. */
  ghost predicate AllTradersValid(traders: seq<Trader>)
    reads traders
  {
    forall k :: 0 <= k < |traders| ==> traders[k].Valid()
  }

  class StockExchange {
    const stocks: seq<Stock>
    const traders: seq<Trader>
    const startDate: int
    var currentDate: int

    /** Distinct stocks, distinct traders, and no strategy object shared between traders. */
    ghost predicate Separated() {
      DistinctStocks(stocks) && SeparateTraders(traders)
    }

    /** Every trader's holdings are ints. */
    ghost predicate TradersValid()
      reads traders
    {
      AllTradersValid(traders)
    }

    /** Separated, with consistent and tradable stocks and valid traders. */
    ghost predicate Valid()
      reads this, stocks, traders
    {
      Separated() && MarketReady(stocks) && TradersValid()
    }

    /** The exchange as a value. */
    function View(): World
      reads this, stocks, traders, Footprints(traders)
    {
      World(currentDate, Views(stocks), Accounts(traders))
    }

    /** An exchange of distinct, ready stocks and of separate, valid traders is valid from the start. */
    constructor (stocks: seq<Stock>, traders: seq<Trader>, startDate: int)
      requires DistinctStocks(stocks) && MarketReady(stocks)
      requires SeparateTraders(traders) && AllTradersValid(traders)
      ensures Valid()
      ensures this.stocks == stocks && this.traders == traders
      ensures this.startDate == startDate && currentDate == startDate
    {
      this.stocks := stocks;
      this.traders := traders;
      this.startDate := startDate;
      this.currentDate := startDate;
    }

    method UpdateDate()
      modifies this
      ensures currentDate == old(currentDate) + 1
      ensures View() == old(View()).(date := old(View()).date + 1)
    {
      currentDate := currentDate + 1;
    }

    /** Every stock advances once. */
    method UpdateStocks()
      requires Valid()
      modifies stocks
      ensures Valid()
      ensures View() == old(View()).(quotes := AdvanceAll(old(View()).quotes))
    {
      AdvanceMarket(stocks);
    }

    /** getPortfolioValue: the trader's cash plus the value of its holdings at the current prices. */
    method GetPortfolioValue(trader: Trader) returns (result: real)
      requires MarketListed(stocks)
      ensures result == Valuation(trader.Books(), Views(stocks))
    {
      ghost var quotes := Views(stocks);
      result := trader.GetCash();
      var i := 0;
      while i < |stocks|
        invariant 0 <= i <= |stocks|
        invariant result == trader.cash + HoldingsValue(trader.portfolio, quotes[..i])
      {
        assert quotes[..i + 1][..i] == quotes[..i];
        result := result + trader.GetStockTotalValue(stocks[i]);
        i := i + 1;
      }
      assert quotes[..i] == quotes;
    }

    /** The monthly map: every trader's name to its portfolio value. */
    method MonthlyValues() returns (monthlyValues: Valuations)
      requires MarketListed(stocks)
      ensures monthlyValues == Snapshot(Accounts(traders), Views(stocks))
    {
      ghost var accounts := Accounts(traders);
      monthlyValues := map[];
      var i := 0;
      while i < |traders|
        invariant 0 <= i <= |traders|
        invariant monthlyValues == Snapshot(accounts[..i], Views(stocks))
      {
        assert accounts[..i + 1][..i] == accounts[..i];
        assert accounts[i].name == traders[i].name && accounts[i].ledger == traders[i].Books();
        var portfolioValue := GetPortfolioValue(traders[i]);
        monthlyValues := monthlyValues[traders[i].name := portfolioValue];
        i := i + 1;
      }
      assert accounts[..i] == accounts == Accounts(traders);
    }

    /** Every trader makes its move, in list order, at the current prices. */
    method TradeRound(ta4j: RsiOracle)
      requires Valid()
      modifies traders, Footprints(traders), stocks
      ensures Valid()
      ensures View() == old(View()).(accounts := TradeAll(old(View()).quotes, old(View()).accounts, ta4j))
    {
      ghost var quotes := Views(stocks);
      ghost var accounts := Accounts(traders);
      var i := 0;
      while i < |traders|
        invariant 0 <= i <= |traders|
        invariant MarketReady(stocks) && TradersValid() && Views(stocks) == quotes
        invariant forall k :: 0 <= k < i ==> traders[k].View() == Trade(accounts[k], quotes, ta4j)
        invariant forall k :: i <= k < |traders| ==> traders[k].View() == accounts[k]
      {
        TradeOne(i, ta4j);
        i := i + 1;
      }
    }

    /** The i-th trader's move; every other trader is left as it was. */
    method TradeOne(i: nat, ta4j: RsiOracle)
      requires i < |traders| && Valid()
      modifies traders[i], traders[i].strategy.Footprint(), stocks
      ensures Valid()
      ensures Views(stocks) == old(Views(stocks))
      ensures traders[i].View() == Trade(old(traders[i].View()), Views(stocks), ta4j)
      ensures forall k :: 0 <= k < |traders| && k != i ==> traders[k].View() == old(traders[k].View())
    {
      traders[i].MakeDecision(stocks, ta4j);
      forall k | 0 <= k < |traders| && k != i
        ensures traders[k].View() == old(traders[k].View()) && traders[k].Valid()
      {
        assert traders[k] != traders[i];
        assert traders[k].strategy.Footprint() !! traders[i].strategy.Footprint();
      }
    }

    /** runSimulation: trade, record on the first of a month, advance, while the date is not after today. */
    method RunSimulation(today: int, isFirstOfMonth: int -> bool, ta4j: RsiOracle) returns (portfolioValues: History)
      requires Valid()
      modifies this, stocks, traders, Footprints(traders)
      ensures Valid()
      ensures (View(), portfolioValues) == Run(old(View()), today, isFirstOfMonth, ta4j, map[])
    {
      portfolioValues := map[];
      while currentDate <= today
        invariant Valid()
        invariant Run(View(), today, isFirstOfMonth, ta4j, portfolioValues) == Run(old(View()), today, isFirstOfMonth, ta4j, map[])
        decreases today - currentDate
      {
        ghost var w := View();
        portfolioValues := TradeAndRecord(isFirstOfMonth, ta4j, portfolioValues);
        AdvanceDay();
        assert View() == Step(w, ta4j);
      }
    }

    /** The first part of a day: every trader's move, then the record if it is the first of a month. */
    method TradeAndRecord(isFirstOfMonth: int -> bool, ta4j: RsiOracle, portfolioValues: History) returns (recorded: History)
      requires Valid()
      modifies traders, Footprints(traders), stocks
      ensures Valid()
      ensures View() == old(View()).(accounts := TradeAll(old(View()).quotes, old(View()).accounts, ta4j))
      ensures recorded == Record(old(View()), isFirstOfMonth, ta4j, portfolioValues)
    {
      TradeRound(ta4j);
      recorded := RecordDay(isFirstOfMonth, portfolioValues);
    }

    /** The record of a day: on the first of a month, every trader's current value under the current date. */
    method RecordDay(isFirstOfMonth: int -> bool, portfolioValues: History) returns (recorded: History)
      requires MarketListed(stocks)
      ensures View() == old(View())
      ensures recorded == if isFirstOfMonth(currentDate)
        then portfolioValues[currentDate := Snapshot(View().accounts, View().quotes)]
        else portfolioValues
    {
      recorded := portfolioValues;
      if isFirstOfMonth(currentDate) {
        var monthlyValues := MonthlyValues();
        assert unchanged(this, stocks, traders, Footprints(traders));
        recorded := recorded[currentDate := monthlyValues];
      }
    }

    /** The end of a day: updateDate, then updateStocks. */
    method AdvanceDay()
      requires Valid()
      modifies this, stocks
      ensures Valid()
      ensures View() == old(View()).(date := old(View()).date + 1, quotes := AdvanceAll(old(View()).quotes))
    {
      UpdateDate();
      UpdateStocks();
    }
  }
}
