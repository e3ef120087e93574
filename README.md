# Trading bot risk engine — a Dafny model

The trading bot is a dashboard script. It runs a simulated session of up to thirty
rounds against a `RiskManager` that owns these values:

- the session's capital;
- the fraction of capital risked per trade;
- an absolute loss ceiling, a percentage of the starting capital;
- the running total of realised losses.

In each round the bot first asks whether the loss ceiling still permits trading. It
then checks two exchange quotes for an arbitrage gap wider than 50 and books 1% of
that gap as profit. Without such a gap, a buy signal from the EMA crossover opens
one trade. Its stop sits at 98% of the entry price, and the risk manager sizes it so
that a stop hit loses the configured fraction of current capital. Every booked
result moves the capital and is appended to the trade log.

This project models that core:

- `reals.dfy`: `Abs`.
- `risk_manager.dfy`: the `RiskManager` class. It also holds the value-level
  specification functions: `Sum` of results, `LossOf` for one result, realised
  `Losses` of a sequence, and `PositionSize`.
- `strategy.dfy`: the three-way crossover decision.
- `arbitrage.dfy`: the arbitrage threshold and profit rule.
- `bot.dfy`: the main loop, with the directional trade's arithmetic. `RunBot` is
  the loop over the `RiskManager` object, and `PlayRound` is its body.
  `Session` states the same loop on values: a `Ledger` holds the trade log, the
  capital and the daily loss, and each round books the row `RoundTrade` gives.
  `RunBot` is proved to end in exactly the state `Session` computes.
- `default_session.dfy`: a worked session with the dashboard's default
  configuration.

The class carries a ghost history `applied` of every result booked through
`UpdatePnl`. Its invariant `Valid()` says two things:

- `capital == initialCapital + Sum(applied)`;
- `dailyLoss == Losses(applied)`.

All prices, sizes and results are exact `real`s. Python floats are treated as exact
decimals.

## Model

| member | source | states |
|---|---|---|
| `RiskManagement.RiskManager.constructor` | trading_bot_app.py:30-35 | capital and initial capital are the input, the risk fraction is the percentage / 100, the ceiling is capital × loss percentage / 100, daily loss is 0; the gate starts open when capital and loss percentage are positive |
| `RiskManagement.RiskManager.CanTrade` | trading_bot_app.py:37-38 | trading is allowed iff the daily loss is below the ceiling, i.e. iff the realised losses of every applied result are below it; a function, so it changes no state |
| `RiskManagement.RiskManager.CalculatePositionSize` | trading_bot_app.py:40-47 | 0 when entry equals stop; otherwise size × stop distance equals current capital × risk fraction; non-negative for non-negative capital and risk fraction |
| `RiskManagement.RiskManager.UpdatePnl` | trading_bot_app.py:49-52 | capital grows by pnl; daily loss grows by abs(pnl) exactly when pnl < 0; daily loss never decreases; initial capital, risk fraction and ceiling are unchanged; a closed gate stays closed; the invariant is kept |
| `RiskManagement.PositionSize` | trading_bot_app.py:40-47 | the sizing rule on values: zero for a zero stop distance, otherwise a stop hit loses exactly capital × risk fraction, never negative for a non-negative risk amount |
| `RiskManagement.PositionSizeSymmetric` | trading_bot_app.py:42 | swapping entry and stop gives the same size |
| `RiskManagement.PositionSizeScales` | trading_bot_app.py:41-47 | scaling the capital by k scales the size by k, so sizing follows current equity |
| `RiskManagement.LossOf` | trading_bot_app.py:51-52 | one result's contribution to the daily loss is non-negative, zero exactly for a gain or a flat result, at least the loss, and equal to −pnl for a loss |
| `RiskManagement.Losses` | trading_bot_app.py:51-52 | the realised losses of a sequence are never negative and never below its net loss |
| `RiskManagement.SumAppend` | trading_bot_app.py:50 | the net total of two consecutive runs of results is the sum of their totals |
| `RiskManagement.LossesAppend` | trading_bot_app.py:51-52 | the realised losses of two consecutive runs of results add up |
| `RiskManagement.GainsAddNoLoss` | trading_bot_app.py:51 | a run of non-negative results has no realised loss |
| `RiskManagement.WinsLeaveLossesUnchanged` | trading_bot_app.py:51-52 | appending winning results leaves the daily loss unchanged |
| `RiskManagement.HaltIsPermanent` | trading_bot_app.py:37-38 | once realised losses reach the ceiling, no later results of any sign bring them back below it |
| `RiskManagement.DrawdownWithinDailyLoss` | trading_bot_app.py:49-52 | the daily loss is at least the net drawdown, so the gate is closed once the net loss reaches the ceiling |
| `Strategy.StrategySignal` | trading_bot_app.py:72-77 | buy iff EMA9 > EMA21, sell iff EMA9 < EMA21, no signal iff they are equal |
| `Strategy.SignalAntisymmetric` | trading_bot_app.py:72-77 | exchanging the averages exchanges buy and sell |
| `Arbitrage.CheckArbitrage` | trading_bot_app.py:87-92 | the spread is quote 2 minus quote 1; an opportunity is flagged iff abs(spread) > 50 |
| `Arbitrage.ArbitrageProfit` | trading_bot_app.py:119 | the profit is non-negative, zero only for a zero spread, and below the spread's magnitude |
| `Arbitrage.FlaggedArbitrageIsProfitable` | trading_bot_app.py:89-90 | a flagged opportunity books a profit above 0.5 |
| `Arbitrage.CheckArbitrageSymmetric` | trading_bot_app.py:87-92 | swapping the quotes gives the same decision, the opposite spread and the same profit |
| `Bot.ArbitrageAddsNoLoss` | trading_bot_app.py:119-120 | booking an arbitrage profit never adds to the daily loss |
| `Bot.DirectionalPnl` | trading_bot_app.py:130-131 | the result of a buy is (entry × move − entry) × size: with a positive size it gains exactly when the price rises and loses exactly when it falls, and a zero size gives zero; `DirectionalPnlFormula`, `StopHitLosesRiskAmount` and `DirectionalPnlBounded` state its value for the sized trade |
| `Bot.DirectionalPnlFormula` | trading_bot_app.py:126-131 | for a positive entry with the stop at 98%, a buy's result is 50 × (move − 1) × capital × risk fraction |
| `Bot.StopHitLosesRiskAmount` | trading_bot_app.py:126-131 | a buy whose price falls exactly to the stop loses exactly capital × risk fraction |
| `Bot.DirectionalPnlBounded` | trading_bot_app.py:130-131 | with the move drawn from [0.97, 1.03], a buy's result stays within ±1.5 × capital × risk fraction |
| `Bot.PnlsOf` | trading_bot_app.py:144 | the results column of the trade log has one entry per row, holding that row's result |
| `Bot.LogExtends` | trading_bot_app.py:121 | appending a row to the log appends its result to the results column |
| `Bot.GateHeldForEveryTrade` | trading_bot_app.py:109-111 | if the gate was open before every earlier trade and is open now, it was open before every trade of the extended session |
| `Bot.RoundTrade` | trading_bot_app.py:113-134 | a round books an arbitrage row exactly when the quotes are flagged, and that row's profit is above 0.5; it books nothing exactly when there is no arbitrage and no buy signal |
| `Bot.ArbitrageRow` | trading_bot_app.py:117-121 | with flagged quotes the round's row is an arbitrage booking abs(spread) × 0.01 |
| `Bot.DirectionalRow` | trading_bot_app.py:124-134 | without arbitrage and with a buy signal the round's row is a directional trade with entry at the last close, stop at 98% and the size from the sizing rule |
| `Bot.Book` | trading_bot_app.py:117-134 | booking a row appends it to the log and nothing else to it; without a row the ledger is unchanged; the daily loss never decreases |
| `Bot.BookKeepsConsistent` | trading_bot_app.py:119-134 | after a booking the capital is still the starting capital plus the log's total and the daily loss still the log's realised loss |
| `Bot.BookKeepsTradedUnderGate` | trading_bot_app.py:109-121 | a row booked while the gate is open keeps every row of the log booked under an open gate |
| `Bot.Session` | trading_bot_app.py:107-134 | the loop on values: between the starting round and 30 rounds pass the gate; it halts exactly when fewer than 30 do, and then the daily loss has reached the ceiling; the log only grows, by at most one row per round; the daily loss never decreases |
| `Bot.SessionStep` | trading_bot_app.py:113-134 | a round with the gate open books the row of `RoundTrade` for the current capital and goes on to the next round |
| `Bot.SessionHalts` | trading_bot_app.py:109-111 | a round with the gate closed ends the session there, halted, with the ledger unchanged |
| `Bot.SessionEnds` | trading_bot_app.py:107 | after round 30 the session ends without a halt |
| `Bot.SessionKeepsConsistent` | trading_bot_app.py:107-134 | the whole session keeps the capital equal to the starting capital plus the log's total and the daily loss equal to the log's realised loss |
| `Bot.SessionTradesUnderGate` | trading_bot_app.py:107-134 | every row a session books was booked while the realised losses of the rows before it were below the ceiling |
| `Bot.SessionRowKinds` | trading_bot_app.py:117-134 | every arbitrage row of a session is a profit above 0.5, and without a buy signal every row is an arbitrage |
| `Bot.PlayRound` | trading_bot_app.py:113-134 | one round on the risk manager: the new log, capital and daily loss are those of booking `RoundTrade` for the capital before the round; the results applied to the manager stay those of the log; risk fraction and ceiling are unchanged |
| `Bot.RunBot` | trading_bot_app.py:104-134 | the final log, capital, daily loss, number of gated rounds and halt are exactly those `Session` computes from the configured manager; hence at most 30 gated rounds with at most one trade each; an early exit happens only with the gate closed; the log's results are exactly the results applied to the risk manager; final capital is initial capital plus the log's total; every trade was placed with realised losses below the ceiling; arbitrage rows are profits above 0.5; without a buy signal every row is an arbitrage |
| `DefaultSession.DefaultSessionExample` | trading_bot_app.py:20-52 | with the default configuration (10000, 1%, 3%), entry 100 and stop 98 give a size of 50, and losses of 150 then 160 close the gate and leave 9690 |

## Left out

- The dashboard does no modelled work: page set-up, sidebar widgets, the start
  button, status messages, metrics, rounding, the results table, the win rate,
  the cumulative sum and the equity chart (trading_bot_app.py:6-23, 98-100,
  110, 142-172).
- `generate_market_data` (trading_bot_app.py:58-66) is random. It runs once
  before the loop, so `RunBot` takes its last close price as `lastClose`.
- The EMA averages in `strategy_signal` (trading_bot_app.py:69-70) come from a
  data-frame library that is not part of this model. `StrategySignal` takes the
  two final averages as inputs. Those are the same in every round, because the
  data is not regenerated.
- The random draws (trading_bot_app.py:84-85, 130) are inputs. Each round
  consumes one `Tick`, which holds the two exchange quotes and the price move.
  `RunBot` therefore asks for at least 30 ticks.
- `time.sleep` (trading_bot_app.py:136) is a pause with no effect on state.
- IEEE floating-point rounding is not modelled. All arithmetic is exact over the
  reals, so results that round in Python (a stop at `entry * 0.98`, for one) are
  exact here.
- Python's mixing of the integer `0` with floats (`daily_loss = 0`, the
  zero-size `return 0`) is represented as the real `0.0`.
