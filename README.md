# Bi-timeframe engulfing strategy backtester: verified model of the trading core

This project models the deterministic trading core of a two-timeframe strategy backtester in Dafny. The strategy trades a fast (5-minute) candle series. It filters trades by the slow (1-hour) trend, which is the slow close compared with its moving average. Entries trigger on a two-candle engulfing pattern.

The model has three modules, one per source file:

- `Utils` (`utils.dfy`) models the engulfing test `check_engulfing`.
- `Strategy` (`strategy.dfy`) models the pure rules of `BiTimeframeStrategy`:
  - the entry signal `get_signal`, which gives BUY or SELL with a stop-loss and a take-profit, or nothing;
  - the position sizer `get_position_size`;
  - the exit test `check_exit`.
  - It also holds the two strategy constants `RR_RATIO = 1.5` and `RISK_PER_TRADE = 0.001` from configuration.py.
- `BacktestRunner` (`backtest_runner.dfy`) models the single-position trade lifecycle of `CustomBacktester`:
  - The pure function `Step` says what one bar does to the account. The account is the capital, the optional open position, the trade ledger and the count of skipped signals.
  - `Replay` applies `Step` to bar indices 2, 3, … in order.
  - The class `CustomBacktester` keeps the same state in mutable fields. Its methods are `CloseTrade`, the loop body `ProcessBar` and the loop `Run`. Each method is proved to compute exactly `Close`, `Step` or `Replay`.
  - Lemmas about `Step` and `Replay` cover the remaining properties:
    - the ledger is append-only;
    - capital equals the initial capital plus the summed profit and loss, and each record's `capital_after` is the running total;
    - an open position is always funded;
    - the exit price is exactly the stop or the target;
    - there is no look-ahead;
    - trades never overlap in time.

Prices and capital are Dafny `real`s. The arithmetic is exact, so there is no floating-point rounding. Timestamps are `int`s.

`get_signal` takes six parallel column arrays. Every caller passes equal-length slices of the same indicator frame, so the model passes one sequence of `Bar` rows instead. Each row holds open, high, low, close, the slow close, the slow moving average and a timestamp.

One behaviour of the source is worth knowing. The stop and target are placed around the forming bar's **open**, but the backtester enters at that bar's **close**. So a BUY can open with its stop above its entry price. A "stop-loss" exit then realises a profit. `BacktestRunner.EntryMayLieBeyondStop` shows this on four concrete bars. The model keeps this behaviour because it is what the code does.

## Model

| member | source | states |
|---|---|---|
| `Utils.CheckEngulfing` | utils.py:47-64 | BULLISH holds exactly when the previous candle is red, the current is green, the current body covers the previous body and the current close is strictly above the previous open; BEARISH is the mirror image; any other tag is false |
| `Utils.EngulfingDirectionsExclusive` | utils.py:52-63 | the same four prices never give both a bullish and a bearish engulfing |
| `Utils.EngulfingBodyIsTaller` | utils.py:56-62 | an engulfing current body is strictly taller than the previous body |
| `Strategy.GetSignal` | strategy.py:13-48 | fewer than three bars give no signal; BUY only with the slow close above its average and a bullish engulfing of the last two closed bars, with stop = last closed low, target - open = 1.5 x (open - stop) and stop < open < target (open of the forming bar); SELL is the mirror image; conversely a trend and a pattern that agree, with the stop strictly on the losing side of the open, always give that signal |
| `Strategy.GetSignalAsWritten` | strategy.py:19-27 | the length guard as written fails with an index error exactly on two-bar windows |
| `Strategy.CorrectedGuardAgrees` | strategy.py:19-27 | wherever the guard as written returns, `GetSignal` returns the same; where it fails, `GetSignal` returns no signal |
| `Strategy.SignalDependsOnLastThreeBars` | strategy.py:22-29 | the signal of a window equals the signal of its last three bars |
| `Strategy.SignalReadsOnlyPatternFields` | strategy.py:22-46 | two windows that agree on the previous body, the current body, range and slow trend, and the forming open get the same signal |
| `Strategy.FlatTrendGivesNoSignal` | strategy.py:22-23 | a slow close equal to its average gives no signal |
| `Strategy.GetPositionSize` | strategy.py:51-63 | zero when entry equals stop; otherwise quantity x abs(entry - stop) equals the risk budget; non-negative for a non-negative budget and positive for a positive one |
| `Strategy.CheckExit` | strategy.py:66-87 | BUY: SL exactly when low <= stop, TP exactly when low > stop and high >= target; SELL mirrored with high for the stop and low for the target; an unknown direction never exits |
| `Strategy.StopLossWinsTie` | strategy.py:75-85 | a bar that reaches both stop and target exits with SL |
| `Strategy.LivePriceExit` | strategy.py:66-85 | with a single live price p as low and high, SL exactly when p is on or beyond the stop, otherwise TP exactly when p is on or beyond the target |
| `Strategy.BullishEngulfingScenario` | strategy.py:31-37 | slow 105 over 100, red 50 to 48 engulfed by green 47 to 52 (low 46), next open 53 give BUY with stop 46 and target 63.5 |
| `Strategy.SizingScenario` | strategy.py:56-63 | a 10000 capital risks 10; entry 100 and stop 90 give size 1 |
| `Strategy.StopBeforeTargetScenario` | strategy.py:75-79 | BUY with stop 90, target 120 on a bar 85 to 125 exits with SL |
| `BacktestRunner.Pnl` | backtest_runner.py:116-120 | for a positive size the profit is positive exactly when the exit price moved in the trade's favour (up for BUY, down for SELL); zero when exit equals entry |
| `BacktestRunner.Close` | backtest_runner.py:113-138 | closing appends exactly one record (earlier records untouched), clears the position, keeps the skip counter, moves capital by the record's profit, and the record carries the position's entry data, the given exit price, time and reason, and the new capital |
| `BacktestRunner.Step` | backtest_runner.py:38-107 | exactly one action per bar: with a position open the account is unchanged (position kept) or closed, never re-opened; when flat it is unchanged, opened (capital, ledger, skips unchanged) or skipped (skip counter + 1, nothing else changed) |
| `BacktestRunner.Replay` | backtest_runner.py:36-107 | replaying bars 2 .. hi-1 only appends to the ledger and never lowers the skip counter |
| `BacktestRunner.StepExit` | backtest_runner.py:41-59 | an open position with no exit is unchanged; on an exit the new record has that reason, exit price exactly the stop (SL) or target (TP), the bar's time, and profit (exit - entry) x size for BUY, (entry - exit) x size for SELL |
| `BacktestRunner.StepEntry` | backtest_runner.py:70-107 | when flat: no signal changes nothing; otherwise with size = GetPositionSize(close, stop, initial capital x 0.001), a positive size that the capital covers opens a position at the bar's close and time with the signal's direction, stop and target; a positive size the capital does not cover adds exactly one skip; a zero size changes nothing |
| `BacktestRunner.StepNoLookAhead` | backtest_runner.py:70-73 | a bar's step is the same when the bars after it are cut off |
| `BacktestRunner.ReplayNoLookAhead` | backtest_runner.py:36-73 | the account after bar hi-1 does not depend on any later bar |
| `BacktestRunner.ClosedKeepsLedger` | backtest_runner.py:122-135 | a close keeps capital = initial + sum of profits, and each record's capital_after = initial + profits up to it |
| `BacktestRunner.StepKeepsSound` | backtest_runner.py:38-107 | one bar keeps the ledger consistent and any open position funded (positive size, cost within capital, target beyond stop) |
| `BacktestRunner.ReplayKeepsSound` | backtest_runner.py:36-138 | every prefix of the loop keeps capital = initial + sum of realized profits, each capital_after = the running capital, and the open position funded |
| `BacktestRunner.StepKeepsTimeline` | backtest_runner.py:41-101 | a later bar keeps every trade opening before it closes and after the previous one closed |
| `BacktestRunner.ReplayKeepsTimeline` | backtest_runner.py:36-101 | over bars with increasing timestamps trades never overlap: at most one position is open at any time |
| `BacktestRunner.EntryMayLieBeyondStop` | backtest_runner.py:76-101 | concrete bars on which a BUY opens at 45 with stop 46 and its SL exit records a profit of 10 |
| `BacktestRunner.CustomBacktester.constructor` | backtest_runner.py:11-19 | starts with capital = initial capital, no position, empty ledger, no skips |
| `BacktestRunner.CustomBacktester.CloseTrade` | backtest_runner.py:113-138 | the new state is exactly `Close` of the old state |
| `BacktestRunner.CustomBacktester.ProcessBar` | backtest_runner.py:38-107 | the new state is exactly `Step` of the old state at bar i |
| `BacktestRunner.CustomBacktester.Run` | backtest_runner.py:21-107 | the final state is `Replay` of the initial state over all bars from index 2, and the account stays sound |

## Findings

| source | as written | input that shows it | evidently intended | confidence | as-written member | corrected member |
|---|---|---|---|---|---|---|
| strategy.py:19-27 | the guard returns no signal only for fewer than 2 bars, but the code then reads index -3 | a window of exactly 2 bars passes the guard and raises an index error | fewer than 3 bars give no signal | high; not executed (the backtester always passes at least 3 bars) | `Strategy.GetSignalAsWritten` | `Strategy.GetSignal` |

## Left out

- `calculate_metrics` (backtest_runner.py:140-178) is not modelled. It resamples daily with pandas, computes percentage changes, standard deviations and square roots in floating point, and reports Sharpe and Sortino ratios.
- `save_log` and `run_custom_backtest` (backtest_runner.py:180-204) are not modelled. They are CSV and file I/O, plus dropping rows with missing indicators. The model takes bars that already carry both slow-timeframe values, which are plain reals.
- The logger calls in `run` and `close_trade` are left out. They have no effect on the state.
- `calculate_indicators` and `setup_logger` in utils.py are not modelled: they are the moving-average library, the forward-fill merge, and logging.
- live_runner.py is not part of this model. It is network access, order placement, clock waiting, and a loop over the strategy functions modelled here.
- configuration.py is not modelled as a file. Its `RR_RATIO`, `RISK_PER_TRADE` and `SYMBOL` are model constants.
- Float arithmetic is not modelled. Prices are exact reals, so `0.001` is exact, and NaN and infinities cannot occur.
- `Run` does not call `calculate_metrics` and `save_log` after the loop, because both are left out.
