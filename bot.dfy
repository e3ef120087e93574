/** The bot's main loop: up to thirty rounds, each gated by the loss limit, each
    either booking an arbitrage profit or, on a buy signal, one directional trade
    sized by the risk manager. Every booked result is also appended to the trade
    log. The market is an input: one Tick of random draws per round. */
module Bot {
  import opened Reals
  import opened RiskManagement
  import opened Strategy
  import opened Arbitrage

  /** The number of rounds the loop runs at most. */
  const MaxIterations: nat := 30
  /** A buy's stop-loss sits at this fraction of the entry price. */
  const StopLossRatio: real := 0.98
  /** Bounds of the random factor that moves the price after a buy. */
  const MinMove: real := 0.97
  const MaxMove: real := 1.03

  datatype TradeKind = ArbitrageTrade | DirectionalTrade

  /** One row of the trade log: what kind of trade it was and its result. */
  datatype TradeRecord = TradeRecord(kind: TradeKind, pnl: real)

  /** The random draws of one round: the two exchange quotes for the arbitrage
      check and the factor applied to the entry price after a buy. */
  datatype Tick = Tick(priceExchange1: real, priceExchange2: real, move: real)

  /** The results column of a trade log. */
  function PnlsOf(log: seq<TradeRecord>): (pnls: seq<real>)
    ensures |pnls| == |log|
    ensures forall i :: 0 <= i < |log| ==> pnls[i] == log[i].pnl
  {
    seq(|log|, i requires 0 <= i < |log| => log[i].pnl)
  }

  /** Result of a buy at `entry` of `size` units when the price moves to
      `entry * move`: a long position of positive size gains exactly when the
      price rises and loses exactly when it falls. */
  function DirectionalPnl(entry: real, move: real, size: real): (pnl: real)
    ensures size > 0.0 ==> (pnl > 0.0 <==> entry * move > entry)
    ensures size > 0.0 ==> (pnl < 0.0 <==> entry * move < entry)
    ensures size == 0.0 ==> pnl == 0.0
  {
    (entry * move - entry) * size
  }

  /** With the stop at 98% of a positive entry and the size from the sizing
      rule, a buy's result is fifty times the price move times the risk amount. */
  lemma DirectionalPnlFormula(capital: real, riskFraction: real, entry: real, move: real)
    requires entry > 0.0
    ensures DirectionalPnl(entry, move,
              PositionSize(capital, riskFraction, entry, entry * StopLossRatio))
         == 50.0 * (move - 1.0) * (capital * riskFraction)
  {
  }

  /** A buy whose price falls exactly to its stop loses exactly the configured
      fraction of the current capital. */
  lemma StopHitLosesRiskAmount(capital: real, riskFraction: real, entry: real)
    requires entry > 0.0
    ensures DirectionalPnl(entry, StopLossRatio,
              PositionSize(capital, riskFraction, entry, entry * StopLossRatio))
         == -(capital * riskFraction)
  {
  }

  /** Within the simulated price range a buy loses at most one and a half times
      the risk amount, and gains at most as much. */
  lemma DirectionalPnlBounded(capital: real, riskFraction: real, entry: real, move: real)
    requires entry > 0.0 && capital * riskFraction >= 0.0
    requires MinMove <= move <= MaxMove
    ensures -1.5 * (capital * riskFraction)
         <= DirectionalPnl(entry, move,
              PositionSize(capital, riskFraction, entry, entry * StopLossRatio))
         <= 1.5 * (capital * riskFraction)
  {
    DirectionalPnlFormula(capital, riskFraction, entry, move);
    var a, c := capital * riskFraction, 50.0 * (move - 1.0);
    assert -1.5 <= c <= 1.5;
    MulNonNegative(1.5 - c, a);
    MulNonNegative(c + 1.5, a);
  }

  /** Booking an arbitrage profit never adds to the realised losses. */
  lemma ArbitrageAddsNoLoss(history: seq<real>, spread: real)
    ensures Losses(history + [ArbitrageProfit(spread)]) == Losses(history)
  {
    WinsLeaveLossesUnchanged(history, [ArbitrageProfit(spread)]);
  }

  /** Appending a row to the log appends its result to the results column. */
  lemma LogExtends(log: seq<TradeRecord>, trade: TradeRecord)
    ensures PnlsOf(log + [trade]) == PnlsOf(log) + [trade.pnl]
  {
  }

  /** If every earlier trade and the current one are placed while the realised
      losses before them are below the ceiling, so is every trade of the
      extended session. */
  lemma GateHeldForEveryTrade(history: seq<real>, pnl: real, maxDailyLoss: real)
    requires forall k :: 0 <= k < |history| ==> Losses(history[..k]) < maxDailyLoss
    requires Losses(history) < maxDailyLoss
    ensures forall k :: 0 <= k < |history + [pnl]| ==> Losses((history + [pnl])[..k]) < maxDailyLoss
  {
    forall k | 0 <= k < |history + [pnl]|
      ensures Losses((history + [pnl])[..k]) < maxDailyLoss
    {
      assert (history + [pnl])[..k] == history[..k];
      if k == |history| {
        assert history[..k] == history;
      }
    }
  }

  /** The row one round books, if any, given the capital at the start of the
      round: an arbitrage profit when the quotes are far enough apart, else a
      buy sized against that capital when the signal says buy, else nothing. */
  function RoundTrade(capital: real, riskFraction: real, signal: Option<Signal>,
                      lastClose: real, tick: Tick): (row: Option<TradeRecord>)
    ensures row.Some? && row.value.kind == ArbitrageTrade
            <==> CheckArbitrage(tick.priceExchange1, tick.priceExchange2).found
    ensures row.Some? && row.value.kind == ArbitrageTrade ==> row.value.pnl > SpreadThreshold * ProfitRate
    ensures row.None? <==> !CheckArbitrage(tick.priceExchange1, tick.priceExchange2).found && signal != Some(Buy)
  {
    var check := CheckArbitrage(tick.priceExchange1, tick.priceExchange2);
    if check.found then
      FlaggedArbitrageIsProfitable(tick.priceExchange1, tick.priceExchange2);
      Some(TradeRecord(ArbitrageTrade, ArbitrageProfit(check.spread)))
    else if signal == Some(Buy) then
      var size := PositionSize(capital, riskFraction, lastClose, lastClose * StopLossRatio);
      Some(TradeRecord(DirectionalTrade, DirectionalPnl(lastClose, tick.move, size)))
    else
      None
  }

  /** The session's state on values: the trade log and the risk manager's
      capital and daily loss. */
  datatype Ledger = Ledger(log: seq<TradeRecord>, capital: real, dailyLoss: real)

  /** The ledger agrees with its log the way the risk manager agrees with its
      applied results: capital is the starting capital plus the log's total, and
      the daily loss is the log's realised loss. */
  ghost predicate Consistent(initialCapital: real, ledger: Ledger)
  {
    ledger.capital == initialCapital + Sum(PnlsOf(ledger.log))
    && ledger.dailyLoss == Losses(PnlsOf(ledger.log))
  }

  /** Books a round's row, if any: appended to the log, added to the capital,
      and its loss (never a gain) added to the daily loss. */
  function Book(ledger: Ledger, row: Option<TradeRecord>): (next: Ledger)
    ensures ledger.log <= next.log && |next.log| <= |ledger.log| + 1
    ensures next.dailyLoss >= ledger.dailyLoss
    ensures row.None? ==> next == ledger
    ensures row.Some? ==> next.log[|ledger.log|..] == [row.value]
  {
    match row
    case None => ledger
    case Some(trade) =>
      Ledger(ledger.log + [trade], ledger.capital + trade.pnl, ledger.dailyLoss + LossOf(trade.pnl))
  }

  /** Booking keeps the ledger consistent with its log. */
  lemma BookKeepsConsistent(initialCapital: real, ledger: Ledger, row: Option<TradeRecord>)
    requires Consistent(initialCapital, ledger)
    ensures Consistent(initialCapital, Book(ledger, row))
  {
    if row.Some? {
      var pnls := PnlsOf(ledger.log);
      LogExtends(ledger.log, row.value);
      SumAppend(pnls, [row.value.pnl]);
      LossesAppend(pnls, [row.value.pnl]);
      assert Sum([row.value.pnl]) == row.value.pnl;
      assert Losses([row.value.pnl]) == LossOf(row.value.pnl);
    }
  }

  /** The round's row when the quotes flag an arbitrage. */
  lemma ArbitrageRow(capital: real, riskFraction: real, signal: Option<Signal>,
                     lastClose: real, tick: Tick)
    requires CheckArbitrage(tick.priceExchange1, tick.priceExchange2).found
    ensures RoundTrade(capital, riskFraction, signal, lastClose, tick)
         == Some(TradeRecord(ArbitrageTrade,
                   ArbitrageProfit(CheckArbitrage(tick.priceExchange1, tick.priceExchange2).spread)))
  {
  }

  /** The round's row when there is no arbitrage and the signal says buy. */
  lemma DirectionalRow(capital: real, riskFraction: real, signal: Option<Signal>,
                       lastClose: real, tick: Tick, size: real)
    requires !CheckArbitrage(tick.priceExchange1, tick.priceExchange2).found
    requires signal == Some(Buy)
    requires size == PositionSize(capital, riskFraction, lastClose, lastClose * StopLossRatio)
    ensures RoundTrade(capital, riskFraction, signal, lastClose, tick)
         == Some(TradeRecord(DirectionalTrade, DirectionalPnl(lastClose, tick.move, size)))
  {
  }

  /** What a session returns: the final ledger, the number of rounds that passed
      the loss gate, and whether the loop stopped at the gate. */
  datatype Outcome = Outcome(ledger: Ledger, iterations: nat, halted: bool)

  /** The session from round `round` on: the loop of the bot stated on values.
      A round first checks the gate on the daily loss, then books the row
      RoundTrade gives for the capital reached so far. */
  function Session(riskFraction: real, maxDailyLoss: real, signal: Option<Signal>,
                   lastClose: real, ticks: seq<Tick>, round: nat, ledger: Ledger): (r: Outcome)
    requires round <= MaxIterations <= |ticks|
    decreases MaxIterations - round
    ensures round <= r.iterations <= MaxIterations
    ensures r.halted <==> r.iterations < MaxIterations
    ensures ledger.log <= r.ledger.log
    ensures |r.ledger.log| <= |ledger.log| + (r.iterations - round)
    ensures r.ledger.dailyLoss >= ledger.dailyLoss
    ensures r.halted ==> r.ledger.dailyLoss >= maxDailyLoss
  {
    if round == MaxIterations then Outcome(ledger, round, false)
    else if ledger.dailyLoss >= maxDailyLoss then Outcome(ledger, round, true)
    else
      Session(riskFraction, maxDailyLoss, signal, lastClose, ticks, round + 1,
              Book(ledger, RoundTrade(ledger.capital, riskFraction, signal, lastClose, ticks[round])))
  }

  /** One open-gate round of the session: the session from this round is the
      session from the next one, with the round's row booked. */
  lemma SessionStep(riskFraction: real, maxDailyLoss: real, signal: Option<Signal>,
                    lastClose: real, ticks: seq<Tick>, round: nat, ledger: Ledger)
    requires round < MaxIterations <= |ticks|
    requires ledger.dailyLoss < maxDailyLoss
    ensures Session(riskFraction, maxDailyLoss, signal, lastClose, ticks, round, ledger)
         == Session(riskFraction, maxDailyLoss, signal, lastClose, ticks, round + 1,
                    Book(ledger, RoundTrade(ledger.capital, riskFraction, signal, lastClose, ticks[round])))
  {
  }

  /** A session whose gate is closed at this round stops here. */
  lemma SessionHalts(riskFraction: real, maxDailyLoss: real, signal: Option<Signal>,
                     lastClose: real, ticks: seq<Tick>, round: nat, ledger: Ledger)
    requires round < MaxIterations <= |ticks|
    requires ledger.dailyLoss >= maxDailyLoss
    ensures Session(riskFraction, maxDailyLoss, signal, lastClose, ticks, round, ledger)
         == Outcome(ledger, round, true)
  {
  }

  /** A session that reaches the last round ends there without a halt. */
  lemma SessionEnds(riskFraction: real, maxDailyLoss: real, signal: Option<Signal>,
                    lastClose: real, ticks: seq<Tick>, ledger: Ledger)
    requires MaxIterations <= |ticks|
    ensures Session(riskFraction, maxDailyLoss, signal, lastClose, ticks, MaxIterations, ledger)
         == Outcome(ledger, MaxIterations, false)
  {
  }

  /** A session keeps its ledger consistent with its log. */
  lemma {:induction false} SessionKeepsConsistent(
      initialCapital: real, riskFraction: real, maxDailyLoss: real, signal: Option<Signal>,
      lastClose: real, ticks: seq<Tick>, round: nat, ledger: Ledger)
    requires round <= MaxIterations <= |ticks|
    requires Consistent(initialCapital, ledger)
    ensures Consistent(initialCapital,
              Session(riskFraction, maxDailyLoss, signal, lastClose, ticks, round, ledger).ledger)
    decreases MaxIterations - round
  {
    if round < MaxIterations && ledger.dailyLoss < maxDailyLoss {
      var row := RoundTrade(ledger.capital, riskFraction, signal, lastClose, ticks[round]);
      BookKeepsConsistent(initialCapital, ledger, row);
      SessionKeepsConsistent(initialCapital, riskFraction, maxDailyLoss, signal, lastClose, ticks,
                             round + 1, Book(ledger, row));
    }
  }

  /** Every row of the log was booked while the realised losses of the rows
      before it were below the ceiling. */
  ghost predicate TradedUnderGate(log: seq<TradeRecord>, maxDailyLoss: real)
  {
    forall k :: 0 <= k < |log| ==> Losses(PnlsOf(log)[..k]) < maxDailyLoss
  }

  /** Booking a round's row while the gate is open keeps every row of the log
      under the gate. */
  lemma BookKeepsTradedUnderGate(initialCapital: real, ledger: Ledger, row: Option<TradeRecord>,
                                 maxDailyLoss: real)
    requires Consistent(initialCapital, ledger) && ledger.dailyLoss < maxDailyLoss
    requires TradedUnderGate(ledger.log, maxDailyLoss)
    ensures TradedUnderGate(Book(ledger, row).log, maxDailyLoss)
  {
    if row.Some? {
      LogExtends(ledger.log, row.value);
      GateHeldForEveryTrade(PnlsOf(ledger.log), row.value.pnl, maxDailyLoss);
      assert Book(ledger, row).log == ledger.log + [row.value];
    }
  }

  /** Every trade a session books is placed while the realised losses of the
      trades before it are below the ceiling. */
  lemma {:induction false} SessionTradesUnderGate(
      initialCapital: real, riskFraction: real, maxDailyLoss: real, signal: Option<Signal>,
      lastClose: real, ticks: seq<Tick>, round: nat, ledger: Ledger)
    requires round <= MaxIterations <= |ticks|
    requires Consistent(initialCapital, ledger)
    requires TradedUnderGate(ledger.log, maxDailyLoss)
    ensures TradedUnderGate(
              Session(riskFraction, maxDailyLoss, signal, lastClose, ticks, round, ledger).ledger.log,
              maxDailyLoss)
    decreases MaxIterations - round
  {
    if round < MaxIterations && ledger.dailyLoss < maxDailyLoss {
      var row := RoundTrade(ledger.capital, riskFraction, signal, lastClose, ticks[round]);
      BookKeepsTradedUnderGate(initialCapital, ledger, row, maxDailyLoss);
      BookKeepsConsistent(initialCapital, ledger, row);
      SessionTradesUnderGate(initialCapital, riskFraction, maxDailyLoss, signal, lastClose, ticks,
                             round + 1, Book(ledger, row));
    }
  }

  /** A session's arbitrage rows are profits above the threshold times the rate,
      and without a buy signal it books nothing but arbitrage. */
  lemma {:induction false} SessionRowKinds(
      riskFraction: real, maxDailyLoss: real, signal: Option<Signal>,
      lastClose: real, ticks: seq<Tick>, round: nat, ledger: Ledger)
    requires round <= MaxIterations <= |ticks|
    requires forall r :: r in ledger.log && r.kind == ArbitrageTrade ==> r.pnl > SpreadThreshold * ProfitRate
    requires signal != Some(Buy) ==> forall r :: r in ledger.log ==> r.kind == ArbitrageTrade
    ensures var log := Session(riskFraction, maxDailyLoss, signal, lastClose, ticks, round, ledger).ledger.log;
            (forall r :: r in log && r.kind == ArbitrageTrade ==> r.pnl > SpreadThreshold * ProfitRate)
            && (signal != Some(Buy) ==> forall r :: r in log ==> r.kind == ArbitrageTrade)
    decreases MaxIterations - round
  {
    if round < MaxIterations && ledger.dailyLoss < maxDailyLoss {
      var row := RoundTrade(ledger.capital, riskFraction, signal, lastClose, ticks[round]);
      var next := Book(ledger, row);
      forall r | r in next.log
        ensures r.kind == ArbitrageTrade ==> r.pnl > SpreadThreshold * ProfitRate
        ensures signal != Some(Buy) ==> r.kind == ArbitrageTrade
      {
        if r !in ledger.log {
          assert r == row.value;
        }
      }
      SessionRowKinds(riskFraction, maxDailyLoss, signal, lastClose, ticks, round + 1, next);
    }
  }

  /** One round of the loop once the gate has let it through: recompute the
      signal, check the two quotes, and book either the arbitrage profit or, on
      a buy, one directional trade sized against the current capital. Every
      booked result goes both to the risk manager and to the log. */
  method PlayRound(risk: RiskManager, tradeLog: seq<TradeRecord>, ema9: real, ema21: real,
                   lastClose: real, tick: Tick)
    returns (newLog: seq<TradeRecord>)
    requires risk.Valid() && risk.applied == PnlsOf(tradeLog)
    modifies risk
    ensures risk.Valid() && risk.applied == PnlsOf(newLog)
    ensures risk.initialCapital == old(risk.initialCapital) && risk.riskPct == old(risk.riskPct)
    ensures risk.maxDailyLoss == old(risk.maxDailyLoss)
    ensures Ledger(newLog, risk.capital, risk.dailyLoss)
         == Book(Ledger(tradeLog, old(risk.capital), old(risk.dailyLoss)),
                 RoundTrade(old(risk.capital), risk.riskPct, StrategySignal(ema9, ema21), lastClose, tick))
  {
    var signal := StrategySignal(ema9, ema21);
    var check := CheckArbitrage(tick.priceExchange1, tick.priceExchange2);
    if check.found {
      var profit := ArbitrageProfit(check.spread);
      ArbitrageRow(risk.capital, risk.riskPct, signal, lastClose, tick);
      risk.UpdatePnl(profit);
      LogExtends(tradeLog, TradeRecord(ArbitrageTrade, profit));
      newLog := tradeLog + [TradeRecord(ArbitrageTrade, profit)];
    } else if signal == Some(Buy) {
      var entry := lastClose;
      var stopLoss := entry * StopLossRatio;
      var size := risk.CalculatePositionSize(entry, stopLoss);
      var pnl := DirectionalPnl(entry, tick.move, size);
      DirectionalRow(risk.capital, risk.riskPct, signal, lastClose, tick, size);
      risk.UpdatePnl(pnl);
      LogExtends(tradeLog, TradeRecord(DirectionalTrade, pnl));
      newLog := tradeLog + [TradeRecord(DirectionalTrade, pnl)];
    } else {
      newLog := tradeLog;
    }
  }

  /** Runs the bot on a session created from the configuration. `ema9`, `ema21`
      and `lastClose` come from the market data generated once before the loop,
      so the signal and the entry price are the same in every round. */
  method RunBot(capital: real, riskPerTrade: real, maxDailyLossPct: real,
                ema9: real, ema21: real, lastClose: real, ticks: seq<Tick>)
    returns (risk: RiskManager, tradeLog: seq<TradeRecord>, iterations: nat, halted: bool)
    requires |ticks| >= MaxIterations
    ensures fresh(risk) && risk.Valid()
    ensures risk.initialCapital == capital
    ensures risk.riskPct == riskPerTrade / 100.0
    ensures risk.maxDailyLoss == capital * (maxDailyLossPct / 100.0)
    // the log, the final capital and daily loss, the rounds and the halt are
    // exactly those of the session on values
    ensures Outcome(Ledger(tradeLog, risk.capital, risk.dailyLoss), iterations, halted)
         == Session(risk.riskPct, risk.maxDailyLoss, StrategySignal(ema9, ema21), lastClose, ticks,
                    0, Ledger([], capital, 0.0))
    // at most thirty rounds trade, at most one trade per round
    ensures |tradeLog| <= iterations <= MaxIterations
    // the loop ends early exactly when the loss gate has closed
    ensures halted ==> !risk.CanTrade() && iterations < MaxIterations
    ensures !halted ==> iterations == MaxIterations
    // every update of the capital has its row in the log, in order
    ensures risk.applied == PnlsOf(tradeLog)
    ensures risk.capital == capital + Sum(PnlsOf(tradeLog))
    ensures risk.dailyLoss == Losses(PnlsOf(tradeLog))
    // every trade was placed while the loss gate was open
    ensures forall k :: 0 <= k < |tradeLog| ==> Losses(risk.applied[..k]) < risk.maxDailyLoss
    // arbitrage rows are profits; directional rows only follow a buy signal
    ensures forall r :: r in tradeLog && r.kind == ArbitrageTrade ==> r.pnl > SpreadThreshold * ProfitRate
    ensures StrategySignal(ema9, ema21) != Some(Buy) ==>
              forall r :: r in tradeLog ==> r.kind == ArbitrageTrade
  {
    risk := new RiskManager(capital, riskPerTrade, maxDailyLossPct);
    tradeLog := [];
    iterations := 0;
    halted := false;
    ghost var rf, maxLoss, sig := risk.riskPct, risk.maxDailyLoss, StrategySignal(ema9, ema21);
    ghost var start := Ledger([], capital, 0.0);
    ghost var whole := Session(rf, maxLoss, sig, lastClose, ticks, 0, start);
    var i := 0;
    while i < MaxIterations
      invariant 0 <= i <= MaxIterations && iterations == i
      invariant fresh(risk) && risk.Valid()
      invariant risk.initialCapital == capital && risk.riskPct == rf && risk.maxDailyLoss == maxLoss
      invariant risk.applied == PnlsOf(tradeLog)
      invariant Session(rf, maxLoss, sig, lastClose, ticks, i,
                        Ledger(tradeLog, risk.capital, risk.dailyLoss)) == whole
    {
      if !risk.CanTrade() {
        SessionHalts(rf, maxLoss, sig, lastClose, ticks, i, Ledger(tradeLog, risk.capital, risk.dailyLoss));
        halted := true;
        break;
      }
      iterations := iterations + 1;
      SessionStep(rf, maxLoss, sig, lastClose, ticks, i, Ledger(tradeLog, risk.capital, risk.dailyLoss));
      tradeLog := PlayRound(risk, tradeLog, ema9, ema21, lastClose, ticks[i]);
      i := i + 1;
    }
    if !halted {
      SessionEnds(rf, maxLoss, sig, lastClose, ticks, Ledger(tradeLog, risk.capital, risk.dailyLoss));
    }
    SessionTradesUnderGate(capital, rf, maxLoss, sig, lastClose, ticks, 0, start);
    SessionRowKinds(rf, maxLoss, sig, lastClose, ticks, 0, start);
  }
}
