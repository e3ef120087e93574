/** The simulated arbitrage rule: a price gap between two exchanges wider than a
    fixed threshold is taken, for a profit proportional to the gap. The two
    quoted prices are inputs here instead of random draws. */
module Arbitrage {
  import opened Reals

  /** A gap strictly wider than this is an arbitrage opportunity. */
  const SpreadThreshold: real := 50.0
  /** The fraction of the gap booked as profit. */
  const ProfitRate: real := 0.01

  datatype ArbitrageCheck = ArbitrageCheck(found: bool, spread: real)

  /** The spread is the second exchange's price minus the first's; an
      opportunity is flagged exactly when its magnitude exceeds the threshold. */
  function CheckArbitrage(priceExchange1: real, priceExchange2: real): (r: ArbitrageCheck)
    ensures r.spread == priceExchange2 - priceExchange1
    ensures r.found <==> Abs(priceExchange2 - priceExchange1) > SpreadThreshold
  {
    var spread := priceExchange2 - priceExchange1;
    if Abs(spread) > SpreadThreshold then ArbitrageCheck(true, spread)
    else ArbitrageCheck(false, spread)
  }

  /** Profit booked for an arbitrage on the given spread: never negative, zero
      only for a zero spread, and below the spread's magnitude otherwise. */
  function ArbitrageProfit(spread: real): (profit: real)
    ensures profit >= 0.0
    ensures profit == 0.0 <==> spread == 0.0
    ensures spread != 0.0 ==> profit < Abs(spread)
  {
    Abs(spread) * ProfitRate
  }

  /** A flagged opportunity always books a strictly positive profit, more than
      the threshold times the profit rate. */
  lemma FlaggedArbitrageIsProfitable(priceExchange1: real, priceExchange2: real)
    requires CheckArbitrage(priceExchange1, priceExchange2).found
    ensures ArbitrageProfit(CheckArbitrage(priceExchange1, priceExchange2).spread)
            > SpreadThreshold * ProfitRate
  {
  }

  /** Quoting the two exchanges the other way round flags the same opportunity,
      with the opposite spread and the same profit. */
  lemma CheckArbitrageSymmetric(priceExchange1: real, priceExchange2: real)
    ensures CheckArbitrage(priceExchange2, priceExchange1).found
        == CheckArbitrage(priceExchange1, priceExchange2).found
    ensures CheckArbitrage(priceExchange2, priceExchange1).spread
        == -CheckArbitrage(priceExchange1, priceExchange2).spread
    ensures ArbitrageProfit(CheckArbitrage(priceExchange2, priceExchange1).spread)
        == ArbitrageProfit(CheckArbitrage(priceExchange1, priceExchange2).spread)
  {
  }
}
