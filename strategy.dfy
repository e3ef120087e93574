/** The EMA crossover strategy's decision rule. The two moving averages are
    inputs here; how they are computed is not part of this model. */
module Strategy {

  datatype Signal = Buy | Sell

  /** A signal, or none when the averages are level. */
  datatype Option<T> = None | Some(value: T)

  /** Buy when the fast average is above the slow one, sell when it is below,
      no signal when they are equal. */
  function StrategySignal(ema9: real, ema21: real): (s: Option<Signal>)
    ensures s == Some(Buy) <==> ema9 > ema21
    ensures s == Some(Sell) <==> ema9 < ema21
    ensures s == None <==> ema9 == ema21
  {
    if ema9 > ema21 then Some(Buy)
    else if ema9 < ema21 then Some(Sell)
    else None
  }

  /** Exchanging the two averages exchanges buy and sell and keeps "no signal". */
  lemma SignalAntisymmetric(ema9: real, ema21: real)
    ensures StrategySignal(ema9, ema21) == Some(Buy) <==> StrategySignal(ema21, ema9) == Some(Sell)
    ensures StrategySignal(ema9, ema21) == None <==> StrategySignal(ema21, ema9) == None
  {
  }
}
