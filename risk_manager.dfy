/** The risk management engine: current capital, per-trade position sizing,
    and a session loss ceiling that halts trading once realised losses reach it. */
module RiskManagement {
  import opened Reals

  // ---------------------------------------------------------------------
  // The session ledger: what a sequence of realised results amounts to
  // ---------------------------------------------------------------------

  /** Net total of a sequence of realised profits and losses. */
  function Sum(pnls: seq<real>): real
  {
    if pnls == [] then 0.0 else pnls[0] + Sum(pnls[1..])
  }

  /** The part of one realised result that counts towards the daily loss:
      its magnitude when it is a loss, nothing when it is a gain. */
  function LossOf(pnl: real): (loss: real)
    ensures loss >= 0.0
    ensures loss == 0.0 <==> pnl >= 0.0
    ensures loss >= -pnl
    ensures pnl < 0.0 ==> loss == -pnl
  {
    if pnl < 0.0 then Abs(pnl) else 0.0
  }

  /** Realised losses of a sequence of results. Gains never offset them, so the
      total is never negative and never less than the net loss. */
  function Losses(pnls: seq<real>): (total: real)
    ensures total >= 0.0
    ensures total >= -Sum(pnls)
  {
    if pnls == [] then 0.0 else LossOf(pnls[0]) + Losses(pnls[1..])
  }

  lemma {:induction false} SumAppend(a: seq<real>, b: seq<real>)
    ensures Sum(a + b) == Sum(a) + Sum(b)
  {
    if a == [] {
      assert a + b == b;
    } else {
      assert (a + b)[1..] == a[1..] + b;
      SumAppend(a[1..], b);
    }
  }

  lemma {:induction false} LossesAppend(a: seq<real>, b: seq<real>)
    ensures Losses(a + b) == Losses(a) + Losses(b)
  {
    if a == [] {
      assert a + b == b;
    } else {
      assert (a + b)[1..] == a[1..] + b;
      LossesAppend(a[1..], b);
    }
  }

  /** A run of winning (or flat) trades adds nothing to the realised losses. */
  lemma {:induction false} GainsAddNoLoss(gains: seq<real>)
    requires forall i :: 0 <= i < |gains| ==> gains[i] >= 0.0
    ensures Losses(gains) == 0.0
  {
    if gains != [] {
      GainsAddNoLoss(gains[1..]);
    }
  }

  /** Once the realised losses of a session have reached the ceiling, no later
      results, winning or losing, bring them back below it. */
  lemma HaltIsPermanent(history: seq<real>, later: seq<real>, maxDailyLoss: real)
    requires Losses(history) >= maxDailyLoss
    ensures Losses(history + later) >= maxDailyLoss
    ensures Losses(history + later) >= Losses(history)
  {
    LossesAppend(history, later);
  }

  /** Winning trades appended to a session leave its realised losses unchanged. */
  lemma WinsLeaveLossesUnchanged(history: seq<real>, gains: seq<real>)
    requires forall i :: 0 <= i < |gains| ==> gains[i] >= 0.0
    ensures Losses(history + gains) == Losses(history)
  {
    LossesAppend(history, gains);
    GainsAddNoLoss(gains);
  }

  // ---------------------------------------------------------------------
  // Position sizing
  // ---------------------------------------------------------------------

  /** The size of a position whose stop-loss hit loses `capital * riskFraction`;
      zero when the stop coincides with the entry. */
  function PositionSize(capital: real, riskFraction: real, entry: real, stopLoss: real): (size: real)
    ensures entry == stopLoss ==> size == 0.0
    ensures entry != stopLoss ==> size * Abs(entry - stopLoss) == capital * riskFraction
    ensures capital * riskFraction >= 0.0 ==> size >= 0.0
  {
    var riskAmount := capital * riskFraction;
    var stopDistance := Abs(entry - stopLoss);
    if stopDistance == 0.0 then 0.0 else riskAmount / stopDistance
  }

  /** Swapping entry and stop does not change the size. */
  lemma PositionSizeSymmetric(capital: real, riskFraction: real, entry: real, stopLoss: real)
    ensures PositionSize(capital, riskFraction, entry, stopLoss)
         == PositionSize(capital, riskFraction, stopLoss, entry)
  {
  }

  /** The size is linear in the capital it is computed against: scaling the
      capital by `k` scales the size by `k`. */
  lemma PositionSizeScales(capital: real, k: real, riskFraction: real, entry: real, stopLoss: real)
    ensures PositionSize(k * capital, riskFraction, entry, stopLoss)
         == k * PositionSize(capital, riskFraction, entry, stopLoss)
  {
  }

  // ---------------------------------------------------------------------
  // The engine object
  // ---------------------------------------------------------------------

  class RiskManager {
    var initialCapital: real
    var capital: real
    /** The fraction of capital risked per trade (the configured percentage / 100). */
    var riskPct: real
    var maxDailyLoss: real
    var dailyLoss: real
    /** Every result applied through UpdatePnl, in order. */
    ghost var applied: seq<real>

    /** Capital is the initial capital plus every applied result, and the daily
        loss is the realised loss of those results. */
    ghost predicate Valid()
      reads this
    {
      capital == initialCapital + Sum(applied) && dailyLoss == Losses(applied)
    }

    constructor (initial: real, riskPercent: real, maxDailyLossPercent: real)
      ensures Valid() && applied == []
      ensures initialCapital == initial && capital == initial
      ensures riskPct == riskPercent / 100.0
      ensures maxDailyLoss == initial * (maxDailyLossPercent / 100.0)
      ensures dailyLoss == 0.0
      ensures initial > 0.0 && maxDailyLossPercent > 0.0 ==> CanTrade()
    {
      initialCapital := initial;
      capital := initial;
      riskPct := riskPercent / 100.0;
      maxDailyLoss := initial * (maxDailyLossPercent / 100.0);
      dailyLoss := 0.0;
      applied := [];
      if initial > 0.0 && maxDailyLossPercent > 0.0 {
        assert initial * (maxDailyLossPercent / 100.0) > 0.0;
      }
    }

    /** The loss gate: trading is allowed exactly while the session's realised
        losses stay below the ceiling. */
    function CanTrade(): (ok: bool)
      reads this
      ensures ok <==> dailyLoss < maxDailyLoss
      ensures Valid() ==> (ok <==> Losses(applied) < maxDailyLoss)
    {
      dailyLoss < maxDailyLoss
    }

    /** Position size for a trade, computed against the current (not the initial)
        capital: a stop-loss hit loses `capital * riskPct`. */
    function CalculatePositionSize(entry: real, stopLoss: real): (size: real)
      reads this
      ensures entry == stopLoss ==> size == 0.0
      ensures entry != stopLoss ==> size * Abs(entry - stopLoss) == capital * riskPct
      ensures capital >= 0.0 && riskPct >= 0.0 ==> size >= 0.0
    {
      PositionSize(capital, riskPct, entry, stopLoss)
    }

    /** Books one realised result: capital moves by `pnl`, and a loss (never a
        gain) is added to the daily loss. */
    method UpdatePnl(pnl: real)
      requires Valid()
      modifies this
      ensures Valid()
      ensures applied == old(applied) + [pnl]
      ensures capital == old(capital) + pnl
      ensures dailyLoss == if pnl < 0.0 then old(dailyLoss) + Abs(pnl) else old(dailyLoss)
      ensures dailyLoss >= old(dailyLoss)
      ensures initialCapital == old(initialCapital) && riskPct == old(riskPct)
      ensures maxDailyLoss == old(maxDailyLoss)
      ensures !old(CanTrade()) ==> !CanTrade()
    {
      capital := capital + pnl;
      if pnl < 0.0 {
        dailyLoss := dailyLoss + Abs(pnl);
      }
      SumAppend(applied, [pnl]);
      LossesAppend(applied, [pnl]);
      assert Sum([pnl]) == pnl && Losses([pnl]) == LossOf(pnl);
      applied := applied + [pnl];
    }
  }

  /** Realised losses always cover the net drawdown, so the gate closes no later
      than the moment net losses reach the ceiling. */
  lemma DrawdownWithinDailyLoss(risk: RiskManager)
    requires risk.Valid()
    ensures risk.dailyLoss >= risk.initialCapital - risk.capital
    ensures risk.initialCapital - risk.capital >= risk.maxDailyLoss ==> !risk.CanTrade()
  {
  }
}
