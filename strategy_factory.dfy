/**
 * StrategyFactory (src/main/java/com/strategy/StrategyFactory.java): the
 * five strategy names, their display list, and creation of a fresh instance
 * by exact name.
 */
module Factory {
  import opened Wrappers
  import opened RandomPick
  import opened BuyAndHold
  import opened Strategies

  const StrategyBuyAndHold: string := "Buy and Hold"
  const StrategyRandom: string := "Random"
  const StrategyMovingAverage: string := "Moving Average"
  const StrategyRsi: string := "RSI"
  const StrategyMeanReversion: string := "Mean Reversion"

  const AllPossibleStrategies: seq<string> :=
    [StrategyBuyAndHold, StrategyRandom, StrategyMovingAverage, StrategyRsi, StrategyMeanReversion]

  /** The rule each listed name stands for, in list order. */
  const ListedKinds: seq<Kind> :=
    [BuyAndHoldKind, RandomKind, MovingAverageKind, RsiKind, MeanReversionKind]

  /** The switch of create: exact string match, None where it returns null. */
  function Lookup(name: string): Option<Kind> {
    if name == StrategyBuyAndHold then Some(BuyAndHoldKind)
    else if name == StrategyRandom then Some(RandomKind)
    else if name == StrategyMovingAverage then Some(MovingAverageKind)
    else if name == StrategyRsi then Some(RsiKind)
    else if name == StrategyMeanReversion then Some(MeanReversionKind)
    else None
  }

  /** The k-th listed name creates the k-th rule. */
  lemma {:induction false} ListedNamesCreate()
    ensures |AllPossibleStrategies| == |ListedKinds| == 5
    ensures forall k :: 0 <= k < 5 ==> Lookup(AllPossibleStrategies[k]) == Some(ListedKinds[k])
  {
  }

  /** A name is accepted exactly when it is one of the listed names. */
  lemma {:induction false} LookupAcceptsListedNames(name: string)
    ensures Lookup(name).Some? <==> name in AllPossibleStrategies
  {
  }

  /** Different accepted names create different rules. */
  lemma {:induction false} LookupInjective(a: string, b: string)
    requires Lookup(a).Some? && Lookup(a) == Lookup(b)
    ensures a == b
  {
  }

  /** Case and whitespace variants are not recognised. */
  lemma {:induction false} VariantsRejected()
    ensures Lookup("buy and hold") == None
    ensures Lookup("random") == None
    ensures Lookup("Moving average") == None
    ensures Lookup("rsi") == None
    ensures Lookup("RSI ") == None
    ensures Lookup(" Mean Reversion") == None
    ensures Lookup("") == None
  {
  }

  /** String.join(sep, names). */
  function Join(names: seq<string>, sep: string): string {
    if |names| == 0 then ""
    else if |names| == 1 then names[0]
    else names[0] + sep + Join(names[1..], sep)
  }

  /** getAvailableStrategiesNames: the listed names in brackets, separated by ", ". */
  function AvailableStrategiesNames(): string {
    "[" + Join(AllPossibleStrategies, ", ") + "]"
  }

  /** Join of two or more names: the first, the separator, then the join of the rest. */
  lemma {:induction false} JoinCons(names: seq<string>, sep: string)
    requires |names| >= 2
    ensures Join(names, sep) == names[0] + sep + Join(names[1..], sep)
  {
  }

  /** The displayed list, name by name. */
  lemma {:induction false} AvailableStrategiesNamesText()
    ensures AvailableStrategiesNames() ==
      "[" + StrategyBuyAndHold + ", " + StrategyRandom + ", " + StrategyMovingAverage + ", "
      + StrategyRsi + ", " + StrategyMeanReversion + "]"
  {
    var names := AllPossibleStrategies;
    var sep := ", ";
    JoinCons(names, sep);
    JoinCons(names[1..], sep);
    JoinCons(names[2..], sep);
    JoinCons(names[3..], sep);
    assert names[1..][1..] == names[2..];
    assert names[2..][1..] == names[3..];
    assert names[3..][1..] == names[4..];
  }

  /** The state a freshly created strategy starts in. */
  function InitialPolicy(kind: Kind, rng: nat -> Draw): (p: Policy)
    ensures p.Kind() == kind
  {
    match kind
    case BuyAndHoldKind => BuyAndHoldPolicy(false)
    case RandomKind => RandomPolicy(rng, 0)
    case MovingAverageKind => CrossoverPolicy
    case RsiKind => RsiPolicy
    case MeanReversionKind => ReversionPolicy
  }

  /**
   * create: a new instance of the named rule, or None for any other name.
   * The random rule's generator is the draw stream rng.
   */
  method Create(strategyName: string, rng: nat -> Draw) returns (strategy: Option<Strategy>)
    ensures strategy.None? <==> Lookup(strategyName).None?
    ensures strategy.Some? ==>
      && strategy.value.Kind() == Lookup(strategyName).value
      && strategy.value.Policy() == InitialPolicy(strategy.value.Kind(), rng)
      && fresh(strategy.value.Footprint())
  {
    if strategyName == StrategyBuyAndHold {
      var b := new BuyAndHoldEvenly();
      strategy := Some(BuyAndHoldStrategy(b));
    } else if strategyName == StrategyRandom {
      var r := new RandomStrategy(rng);
      strategy := Some(RandomChoice(r));
    } else if strategyName == StrategyMovingAverage {
      strategy := Some(MovingAverageStrategy);
    } else if strategyName == StrategyRsi {
      strategy := Some(RsiStrategy);
    } else if strategyName == StrategyMeanReversion {
      strategy := Some(MeanReversionStrategy);
    } else {
      strategy := None;
    }
  }
}
