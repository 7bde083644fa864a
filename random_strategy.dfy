/**
 * RandomStrategy: one randomly chosen stock, a random action among sell, hold
 * and buy, and a random amount (src/main/java/com/strategy/RandomStrategy.java).
 * The generator is a stream of draws, one per call that reaches it.
 */
module RandomPick {
  import opened Stocks
  import opened Ledgers

  /** A value of Random.nextDouble(): in [0, 1). */
  type Fraction = r: real | 0.0 <= r < 1.0

  /**
   * The random values one call consumes. nextInt(n) is modelled as an
   * arbitrary natural reduced modulo n, so every outcome in [0, n) is possible.
   */
  datatype Draw = Draw(pick: nat, roll: nat, fraction: Fraction)

  /** nextInt(3) - 1: -1 sell, 0 hold, 1 buy. */
  function Action(d: Draw): (action: int)
    ensures -1 <= action <= 1
  {
    d.roll % 3 - 1
  }

  /** A fraction of a non-negative quantity is non-negative, and below it when it is positive. */
  lemma {:induction false} FractionBelow(f: Fraction, x: real, part: real)
    requires x >= 0.0 && part == f * x
    ensures 0.0 <= part
    ensures x > 0.0 ==> part < x
  {
    if x > 0.0 {
      assert x - part == (1.0 - f) * x;
    }
  }

  /**
   * The amount put on the chosen stock: 0 on hold, a fraction of the cash on
   * buy and the same fraction of the share count on "sell"; below the cash
   * or the share count whenever that is positive.
   */
  function RandomAmount(trader: Ledger, symbol: string, d: Draw): (amount: real)
    ensures Action(d) == 0 ==> amount == 0.0
    ensures Action(d) == 1 && trader.cash >= 0.0 ==>
      0.0 <= amount && (trader.cash > 0.0 ==> amount < trader.cash)
    ensures Action(d) == -1 && Held(trader.portfolio, symbol) >= 0 ==>
      0.0 <= amount && (Held(trader.portfolio, symbol) > 0 ==> amount < Held(trader.portfolio, symbol) as real)
  {
    var held := Held(trader.portfolio, symbol) as real;
    if Action(d) == 1 then
      var part := d.fraction * trader.cash;
      if trader.cash >= 0.0 then FractionBelow(d.fraction, trader.cash, part); part else part
    else if Action(d) == -1 then
      var part := d.fraction * held;
      if held >= 0.0 then FractionBelow(d.fraction, held, part); part else part
    else 0.0
  }

  /**
   * The decision of one call: a single entry, for the stock at a uniformly
   * drawn position of the market; no entry for an empty market.
   */
  function RandomDecision(quotes: seq<Quote>, trader: Ledger, d: Draw): (decision: Decision)
    ensures |quotes| == 0 <==> decision == map[]
    ensures |quotes| > 0 ==>
      var chosen := quotes[d.pick % |quotes|].symbol;
      decision.Keys == {chosen} && decision[chosen] == RandomAmount(trader, chosen, d)
  {
    if |quotes| == 0 then map[]
    else
      var symbol := quotes[d.pick % |quotes|].symbol;
      var decision := map[symbol := RandomAmount(trader, symbol, d)];
      assert symbol in decision;
      decision
  }

  /**
   * A "sell" of a held stock with a non-zero fraction is a positive amount,
   * which the trader executes as a buy of that many dollars.
   */
  lemma {:induction false} SellExecutesAsBuy(quotes: seq<Quote>, trader: Ledger, d: Draw)
    requires |quotes| > 0 && Action(d) == -1 && d.fraction > 0.0
    requires Held(trader.portfolio, quotes[d.pick % |quotes|].symbol) > 0
    ensures Amount(RandomDecision(quotes, trader, d), quotes[d.pick % |quotes|].symbol) > 0.0
  {
    var h := Held(trader.portfolio, quotes[d.pick % |quotes|].symbol) as real;
    assert d.fraction * h > 0.0;
  }

  class RandomStrategy {
    /** The generator: the draws of the k-th call that reaches it. */
    const rng: nat -> Draw
    /** How many calls have consumed draws. */
    var draws: nat

    constructor (rng: nat -> Draw)
      ensures this.rng == rng && draws == 0
    {
      this.rng := rng;
      draws := 0;
    }

    method MakeDecision(marketStocks: seq<Stock>, trader: Ledger) returns (decisions: Decision)
      modifies this
      ensures decisions == RandomDecision(Views(marketStocks), trader, rng(old(draws)))
      ensures draws == old(draws) + (if |marketStocks| == 0 then 0 else 1)
    {
      if |marketStocks| == 0 {
        return map[];
      }
      var d := rng(draws);
      draws := draws + 1;
      var stock := marketStocks[d.pick % |marketStocks|];
      assert Views(marketStocks)[d.pick % |marketStocks|].symbol == stock.symbol;
      var symbol := stock.symbol;
      var action := Action(d);
      var amountToBuy := 0.0;
      if action == 1 {
        amountToBuy := d.fraction * trader.cash;
      } else if action == -1 {
        amountToBuy := d.fraction * Held(trader.portfolio, symbol) as real;
      }
      assert amountToBuy == RandomAmount(trader, symbol, d);
      decisions := map[symbol := amountToBuy];
    }
  }
}
