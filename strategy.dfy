/**
 * The Strategy interface (src/main/java/com/strategy/Strategy.java): one of
 * the five decision rules, with the object that holds its state where it
 * has any, a value view of that state, and dispatch of makeDecision.
 */
module Strategies {
  import opened Stocks
  import opened Ledgers
  import opened BuyAndHold
  import opened RandomPick
  import opened MovingAverageCrossover
  import opened RsiThresholds
  import opened MeanReversion

  /** Which of the five rules. */
  datatype Kind = BuyAndHoldKind | RandomKind | MovingAverageKind | RsiKind | MeanReversionKind

  /** A strategy instance; the stateless rules carry no object. */
  datatype Strategy =
    | BuyAndHoldStrategy(buyAndHold: BuyAndHoldEvenly)
    | RandomChoice(random: RandomStrategy)
    | MovingAverageStrategy
    | RsiStrategy
    | MeanReversionStrategy
  {
    function Kind(): Kind {
      match this
      case BuyAndHoldStrategy(_) => BuyAndHoldKind
      case RandomChoice(_) => RandomKind
      case MovingAverageStrategy => MovingAverageKind
      case RsiStrategy => RsiKind
      case MeanReversionStrategy => MeanReversionKind
    }

    /** The objects a decision may update. */
    function Footprint(): set<object> {
      match this
      case BuyAndHoldStrategy(b) => {b}
      case RandomChoice(r) => {r}
      case _ => {}
    }

    /** The strategy's state as a value. */
    function Policy(): Policy
      reads Footprint()
    {
      match this
      case BuyAndHoldStrategy(b) => BuyAndHoldPolicy(b.hasBought)
      case RandomChoice(r) => RandomPolicy(r.rng, r.draws)
      case MovingAverageStrategy => CrossoverPolicy
      case RsiStrategy => RsiPolicy
      case MeanReversionStrategy => ReversionPolicy
    }
  }

  /** Value view of a strategy's state. */
  datatype Policy =
    | BuyAndHoldPolicy(hasBought: bool)
    | RandomPolicy(rng: nat -> Draw, draws: nat)
    | CrossoverPolicy
    | RsiPolicy
    | ReversionPolicy
  {
    function Kind(): Kind {
      match this
      case BuyAndHoldPolicy(_) => BuyAndHoldKind
      case RandomPolicy(_, _) => RandomKind
      case CrossoverPolicy => MovingAverageKind
      case RsiPolicy => RsiKind
      case ReversionPolicy => MeanReversionKind
    }
  }

  /** A decision and the strategy state it leaves behind. */
  datatype Outcome = Outcome(next: Policy, decision: Decision)

  /** makeDecision of each rule, on values. */
  function Decide(p: Policy, quotes: seq<Quote>, trader: Ledger, ta4j: RsiOracle): (o: Outcome)
    requires AllListed(quotes)
    ensures o.next.Kind() == p.Kind()
  {
    match p
    case BuyAndHoldPolicy(hasBought) =>
      Outcome(BuyAndHoldPolicy(true), Allocation(quotes, trader.cash, hasBought))
    case RandomPolicy(rng, draws) =>
      Outcome(RandomPolicy(rng, draws + (if |quotes| == 0 then 0 else 1)), RandomDecision(quotes, trader, rng(draws)))
    case CrossoverPolicy => Outcome(p, CrossoverDecision(quotes, trader))
    case RsiPolicy => Outcome(p, RsiDecision(quotes, trader, ta4j))
    case ReversionPolicy => Outcome(p, ReversionDecision(quotes, trader))
  }

  /** Only the buy-and-hold and random rules have state, and each decision keeps the rule. */
  lemma {:induction false} StatelessRulesKeepPolicy(p: Policy, quotes: seq<Quote>, trader: Ledger, ta4j: RsiOracle)
    requires AllListed(quotes) && (p.CrossoverPolicy? || p.RsiPolicy? || p.ReversionPolicy?)
    ensures Decide(p, quotes, trader, ta4j).next == p
  {
  }

  /** A second buy-and-hold decision is empty, whatever the market and the cash. */
  lemma {:induction false} BuyAndHoldFiresOnce(quotes: seq<Quote>, trader: Ledger, later: Ledger, ta4j: RsiOracle)
    requires AllListed(quotes)
    ensures var first := Decide(BuyAndHoldPolicy(false), quotes, trader, ta4j);
      Decide(first.next, quotes, later, ta4j).decision == map[]
  {
    AllocationEmpty(quotes, later.cash, true);
  }

  /** Dispatch of makeDecision to the rule's own method. */
  method MakeDecision(s: Strategy, marketStocks: seq<Stock>, trader: Ledger, ta4j: RsiOracle)
    returns (decision: Decision)
    requires MarketListed(marketStocks)
    modifies s.Footprint(), marketStocks
    ensures MarketListed(marketStocks) && Views(marketStocks) == old(Views(marketStocks))
    ensures Outcome(s.Policy(), decision) == Decide(old(s.Policy()), Views(marketStocks), trader, ta4j)
  {
    match s
    case BuyAndHoldStrategy(b) =>
      decision := BuyAndHoldMakeDecision(b, marketStocks, trader, ta4j);
    case RandomChoice(r) =>
      decision := RandomMakeDecision(r, marketStocks, trader, ta4j);
    case MovingAverageStrategy =>
      decision := MovingAverageCrossover.MakeDecision(marketStocks, trader);
    case RsiStrategy =>
      decision := RsiThresholds.MakeDecision(marketStocks, trader, ta4j);
    case MeanReversionStrategy =>
      decision := MeanReversion.MakeDecision(marketStocks, trader);
  }

  /** The buy-and-hold case of the dispatch: only the strategy object changes. */
  method BuyAndHoldMakeDecision(b: BuyAndHoldEvenly, marketStocks: seq<Stock>, trader: Ledger, ta4j: RsiOracle)
    returns (decision: Decision)
    requires MarketListed(marketStocks)
    modifies b
    ensures MarketListed(marketStocks) && Views(marketStocks) == old(Views(marketStocks))
    ensures Outcome(BuyAndHoldPolicy(b.hasBought), decision)
      == Decide(BuyAndHoldPolicy(old(b.hasBought)), Views(marketStocks), trader, ta4j)
  {
    decision := b.MakeDecision(marketStocks, trader);
  }

  /** The random case of the dispatch: only the generator's draw count changes. */
  method RandomMakeDecision(r: RandomStrategy, marketStocks: seq<Stock>, trader: Ledger, ta4j: RsiOracle)
    returns (decision: Decision)
    requires MarketListed(marketStocks)
    modifies r
    ensures MarketListed(marketStocks) && Views(marketStocks) == old(Views(marketStocks))
    ensures Outcome(RandomPolicy(r.rng, r.draws), decision)
      == Decide(RandomPolicy(r.rng, old(r.draws)), Views(marketStocks), trader, ta4j)
  {
    decision := r.MakeDecision(marketStocks, trader);
  }
}
