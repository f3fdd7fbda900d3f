# RoboGen trading core in Dafny

A model of the decision core of the RoboGen trading bot:

- the technical indicators (SMA, EMA, RSI, ATR and Bollinger Bands), in the three variants the
  repository carries (backtesting edge function, strategy-engine edge function, price chart);
- the strategy evaluators (MA crossover, RSI bands, Bollinger scalper) of the backtesting and
  strategy-engine edge functions, the strategy router and the strategy-engine request loop;
- the two risk engines: pip values, session and weekend filters, position sizing, the ordered
  risk gates with their warnings, and the approval, modification and order request they return;
- the backtest simulator: the bar loop with stop/target fills, entries, exits, the equity peak,
  the deepest drawdown and the sampled equity curve, and the statistics of the report;
- the state reducers of the MT5 connection hook: the capped log, the candle buffer, the position
  list, the trading flag and the API-key guard.

Layout, one module per file:

| file | module | models |
|---|---|---|
| wrappers.dfy | Wrappers | `Option` |
| numeric.dfy | Numeric | sums, rounding, `x \|\| d` defaults, IEEE outcomes of a division (`Extended`) |
| market.dfy | Market | candles, signals, positions, accounts, the drawdown percentage |
| text.dfy | Text | ASCII upper-casing and substring search |
| indicators.dfy | Indicators | index-wise definitions of every indicator value |
| backtest_indicators.dfy, strategy_indicators.dfy, chart_indicators.dfy | BacktestIndicators, StrategyIndicators, ChartIndicators | the indicator loops, each proved equal to the definitions |
| gating.dfy | Gating | the first-failure fold of an ordered list of checks |
| risk_v2.dfy, risk_v1.dfy | RiskEngineV2, RiskEngineV1 | the two risk engines |
| backtest_strategies.dfy | BacktestStrategies | the backtest strategies and their router |
| backtest_simulator.dfy | BacktestSimulator | `runBacktest` |
| strategy_engine.dfy | StrategyEngine | the live strategies and the request loop |
| mt5_connection.dfy | Mt5Connection | the hook's reducers and its state as a class |

Prices, money and indicator values are `real`. A `NaN` or `null` entry is `None`. A number
parameter read as `Number(x) || d` is a `nat` period or a `real` in which 0 stands for "absent,
not a number or zero". `Math.sqrt` is a parameter `sqrt: real -> real`: properties that need a
square root assume only that it returns a non-negative root (`Indicators.NonNegativeRoot`).
`Date.now()`, the current UTC hour and the weekday are parameters.

Each indicator loop is a `method` whose result is proved equal, index by index, to a function in
module Indicators. The strategies read those functions. Each `evaluateRisk` is a `method` with
early returns, proved equal to an `Evaluation` function. Lemmas about `Evaluation` state when a
signal is approved and why it was rejected. The backtest loop is a `method` whose state after
bar `i` equals `Run(config, candles, strategy, i)`. Lemmas about `Run` state the bookkeeping,
the peaks and the curve sampling.

Three facts about the code that the model keeps:

- the backtest loop never consults a risk engine and trades a fixed 0.1 lot;
- the EMA of the backtesting function emits running means during its warm-up;
- the strategy engine's RSI bands never sees a `NaN`.

## Model

The definitions that the contracts are stated against have no rows of their own; the rows
whose contracts name them say what they mean. These are the index-wise indicator values
(`Indicators.SmaAt`, `EmaAt`, `BacktestEmaAt`, `RsiAt`, `BacktestAtrAt`, `StdAt`, `Deviations`, `UpperAt`,
`LowerAt`), the backtest run (`BacktestSimulator.Run`, `Bar`, `StopExit`, `Track`,
`SharpeRatio`, `ReturnsStdDev`, `MeanOrZero`), the session clock (`RiskEngineV2.IsWeekend`,
`CurrentSessions`), the signal list (`StrategyEngine.Collected`), the scalper's stop distance
(`StrategyEngine.StopDistance`) and the JavaScript string length (`Text.Utf16Length`).

| member | source | states |
|---|---|---|
| Text.ToUpper | supabase/functions/risk-engine-v2/index.ts:93 | same length; every lower-case ASCII letter is mapped to its capital, every other character kept; no lower-case letter is left |
| Text.ToUpperIdempotent | supabase/functions/risk-engine-v2/index.ts:93 | upper-casing twice is upper-casing once |
| Text.CodeUnits | src/hooks/useMT5Connection.ts:42 | a character takes one UTF-16 code unit, two exactly when it lies beyond U+FFFF |
| Text.Utf16LengthBounds | src/hooks/useMT5Connection.ts:42 | a string's JavaScript length lies between its character count and twice that, and equals the count exactly when no character lies beyond U+FFFF |
| Text.Utf16LengthOfAstralKey | src/hooks/useMT5Connection.ts:42 | four characters beyond the Basic Multilingual Plane have JavaScript length 8 |
| Text.ContainsIffOccurs | supabase/functions/risk-engine/index.ts:85-87 | `includes` holds exactly when the part occurs at some index |
| Indicators.SmaDefinedAfterWarmup | supabase/functions/backtesting-engine/index.ts:74-85 | the SMA is undefined exactly before index period-1, and then it is the mean of the trailing window |
| Indicators.SmaOfConstant | supabase/functions/backtesting-engine/index.ts:74-85 | the SMA of a constant window is that constant |
| Indicators.BacktestEmaWarmupIsPrefixMean | supabase/functions/backtesting-engine/index.ts:87-101 | before its seed the backtest EMA is the running mean of the prices so far |
| Indicators.EmaVariantsAgreeDuringWarmup | supabase/functions/strategy-engine/index.ts:58-76 | the strategy-engine EMA and the backtest EMA agree up to the seed |
| Indicators.EmaSeedIsSma | supabase/functions/strategy-engine/index.ts:58-76 | the EMA at index period-1 equals the SMA there |
| Indicators.BacktestEmaOfConstant | supabase/functions/backtesting-engine/index.ts:87-101 | the backtest EMA of constant prices is that constant at every index |
| Indicators.EmaOfConstant | supabase/functions/strategy-engine/index.ts:58-76 | the EMA of constant prices is that constant at every index |
| Indicators.Gains | supabase/functions/backtesting-engine/index.ts:103-134 | one gain per price change, each non-negative |
| Indicators.Losses | supabase/functions/backtesting-engine/index.ts:103-134 | one loss per price change, each non-negative |
| Indicators.AverageGain | supabase/functions/backtesting-engine/index.ts:103-134 | the average gain over the window is non-negative |
| Indicators.AverageLoss | supabase/functions/backtesting-engine/index.ts:103-134 | the average loss over the window is non-negative |
| Indicators.RsiFromAveragesRange | supabase/functions/backtesting-engine/index.ts:103-134 | RSI is 100 when the average loss is 0 and otherwise lies in [0, 100) |
| Indicators.RsiRange | supabase/functions/backtesting-engine/index.ts:103-134 | RSI is undefined exactly before index `period`; then it is 100 when the window has no loss and otherwise lies in [0, 100) |
| Indicators.RsiOfRisingWindow | supabase/functions/backtesting-engine/index.ts:103-134 | a window without a falling close has RSI 100 |
| Indicators.TrueRanges | supabase/functions/backtesting-engine/index.ts:136-167 | one true range per candle, each the true range of its bar |
| Indicators.TrueRangeCoversBar | supabase/functions/backtesting-engine/index.ts:136-167 | a bar's true range is at least its high-low range, so non-negative on a sane bar |
| Indicators.WilderStepNonNegative | supabase/functions/strategy-engine/index.ts:107-132 | Wilder smoothing of non-negative values stays non-negative |
| Indicators.AtrAt | supabase/functions/strategy-engine/index.ts:107-132 | the strategy-engine ATR is defined exactly from index period-1 on |
| Indicators.AtrVariantsAgree | supabase/functions/backtesting-engine/index.ts:136-167 | for a period of at least 2 the backtest ATR and the strategy-engine ATR agree everywhere |
| Indicators.BacktestAtrPeriodOneUndefined | supabase/functions/backtesting-engine/index.ts:136-167 | with period 1 the backtest ATR is never defined |
| Indicators.AtrNonNegative | supabase/functions/backtesting-engine/index.ts:136-167 | on well-formed candles every defined ATR value of both variants is non-negative |
| Indicators.AtrSeed | supabase/functions/strategy-engine/index.ts:107-132 | the ATR seed is the mean of the first `period` true ranges |
| Indicators.SquaredDeviationsNonNegative | supabase/functions/backtesting-engine/index.ts:169-189 | the sum of squared deviations is non-negative |
| Indicators.BandsAt | supabase/functions/backtesting-engine/index.ts:169-189 | upper and lower band are the middle band plus and minus k standard deviations |
| Indicators.BandsOrdered | supabase/functions/backtesting-engine/index.ts:169-189 | the bands are defined exactly where the SMA is, and with a non-negative root and k they enclose it |
| BacktestIndicators.CalculateSma | supabase/functions/backtesting-engine/index.ts:74-85 | one value per price, each the SMA definition |
| BacktestIndicators.CalculateEma | supabase/functions/backtesting-engine/index.ts:87-101 | one value per price, each the backtest EMA definition, warm-up included |
| BacktestIndicators.CalculateRsi | supabase/functions/backtesting-engine/index.ts:103-134 | one value per price, each the RSI definition |
| BacktestIndicators.CalculateAtr | supabase/functions/backtesting-engine/index.ts:136-167 | one value per candle, each the backtest ATR definition |
| BacktestIndicators.CalculateBollingerBands | supabase/functions/backtesting-engine/index.ts:169-189 | upper, middle and lower band per price match the band definitions |
| StrategyIndicators.CalculateSma | supabase/functions/strategy-engine/index.ts:45-56 | one value per price, each the SMA definition |
| StrategyIndicators.CalculateEma | supabase/functions/strategy-engine/index.ts:58-76 | one value per price, each the EMA definition |
| StrategyIndicators.CalculateRsi | supabase/functions/strategy-engine/index.ts:78-105 | one value per price, each the RSI definition |
| StrategyIndicators.CalculateAtr | supabase/functions/strategy-engine/index.ts:107-132 | one value per candle, each the ATR definition |
| StrategyIndicators.CalculateBollingerBands | supabase/functions/strategy-engine/index.ts:134-154 | the three bands per price match the band definitions |
| ChartIndicators.CalculateSma | src/components/trading/PriceChartWithIndicators.tsx:28-39 | one nullable value per price, null exactly during warm-up, each the SMA definition |
| ChartIndicators.CalculateRsi | src/components/trading/PriceChartWithIndicators.tsx:42-73 | one nullable value per close, each the RSI definition |
| ChartIndicators.CalculateBollingerBands | src/components/trading/PriceChartWithIndicators.tsx:76-96 | the three nullable bands per price match the band definitions |
| Gating.ChainFirstFailure | supabase/functions/risk-engine-v2/index.ts:261-328 | when check j is the first to fail, the outcome is its rejection with the warnings raised before it |
| Gating.ChainAllPassed | supabase/functions/risk-engine-v2/index.ts:261-328 | when every check passes, the outcome is cleared with every warning in order |
| Gating.ChainClearedIffAllPassed | supabase/functions/risk-engine-v2/index.ts:261-328 | cleared exactly when every check passes |
| Gating.ChainRejectedByACheck | supabase/functions/risk-engine-v2/index.ts:261-328 | a rejection carries the message of a failed check, every check before it having passed |
| Gating.ChainIgnoresLaterChecks | supabase/functions/risk-engine-v2/index.ts:261-328 | checks after the first failure do not influence the outcome |
| RiskEngineV2.BasePipValue | supabase/functions/risk-engine-v2/index.ts:84-95 | the table value of the upper-cased symbol, 10 for an unknown one, always positive |
| RiskEngineV2.PipValue | supabase/functions/risk-engine-v2/index.ts:92-95 | positive for a positive lot size |
| RiskEngineV2.PipValueIgnoresCase | supabase/functions/risk-engine-v2/index.ts:92-95 | the lookup gives the same value for a symbol and its upper-cased form |
| RiskEngineV2.SomeSessionAlwaysOpen | supabase/functions/risk-engine-v2/index.ts:102-112 | at every UTC hour at least one of the four sessions is open |
| RiskEngineV2.WeekendIsFortyEightHours | supabase/functions/risk-engine-v2/index.ts:114-121 | the weekend is the 48 hours from Friday 21:00 UTC to Sunday 21:00 UTC |
| RiskEngineV2.AllowedSessions | supabase/functions/risk-engine-v2/index.ts:123-143 | a session is listed exactly when it is allowed and open |
| RiskEngineV2.CheckSessionFilter | supabase/functions/risk-engine-v2/index.ts:123-143 | passes exactly when the filter is off or the time is outside a blocked weekend and in an allowed open session; names which of the two failed |
| RiskEngineV2.PermissiveFilterNeverRejects | supabase/functions/risk-engine-v2/index.ts:123-143 | a filter that allows every session and does not block weekends never rejects |
| RiskEngineV2.PositionSize | supabase/functions/risk-engine-v2/index.ts:146-161 | at least 0.01 lots in whole hundredths; the risk amount is the size times the loss per lot |
| RiskEngineV2.PositionSizeRoundsDown | supabase/functions/risk-engine-v2/index.ts:146-161 | above the minimum, the size is the risk budget's lots rounded down to hundredths |
| RiskEngineV2.PositionSizeMinimum | supabase/functions/risk-engine-v2/index.ts:146-161 | a budget below 0.01 lots gives 0.01 lots |
| RiskEngineV2.PositionSizeWithinRisk | supabase/functions/risk-engine-v2/index.ts:146-161 | above the minimum, the risk amount never exceeds the budget and falls short by less than one hundredth lot |
| RiskEngineV2.CheckMaxConcurrentTrades | supabase/functions/risk-engine-v2/index.ts:164-169 | fails exactly when the open positions reach the limit |
| RiskEngineV2.CheckMaxTradesPerDay | supabase/functions/risk-engine-v2/index.ts:171-176 | fails exactly when today's trades reach the limit |
| RiskEngineV2.CheckDrawdown | supabase/functions/risk-engine-v2/index.ts:178-212 | daily and weekly: fails exactly when the drawdown reaches the limit, warns exactly when it passes at 80% of the limit or more |
| RiskEngineV2.DrawdownRejectsIffEquityFallen | supabase/functions/risk-engine-v2/index.ts:178-212 | with a positive start balance, rejects exactly when equity fell by the limit's share of it |
| RiskEngineV2.DrawdownFromZeroStart | supabase/functions/risk-engine-v2/index.ts:178-212 | from a zero start balance it rejects exactly when equity is negative, and never warns |
| RiskEngineV2.CheckSpreadFilter | supabase/functions/risk-engine-v2/index.ts:214-219 | fails exactly when the spread exceeds the limit |
| RiskEngineV2.CheckHardStopLoss | supabase/functions/risk-engine-v2/index.ts:221-226 | fails exactly for an open signal without a stop loss while hard stop losses are required |
| RiskEngineV2.CheckDuplicatePosition | supabase/functions/risk-engine-v2/index.ts:228-234 | fails exactly when a position on the symbol and side exists |
| RiskEngineV2.CheckMarginAvailable | supabase/functions/risk-engine-v2/index.ts:236-242 | fails exactly when free margin is below 1.2 times the required margin |
| RiskEngineV2.SizingStopLoss | supabase/functions/risk-engine-v2/index.ts:314 | the stop distance used for sizing defaults to 20 pips and is never 0 |
| RiskEngineV2.ModificationsFor | supabase/functions/risk-engine-v2/index.ts:329-343 | modifications are present exactly when breakeven or trailing is on, and carry those settings |
| RiskEngineV2.Verdict | supabase/functions/risk-engine-v2/index.ts:329-344 | approved exactly when the gates cleared; the warnings are the gates' warnings |
| RiskEngineV2.Evaluation | supabase/functions/risk-engine-v2/index.ts:245-345 | approved exactly when there is no reason; a rejection carries no size; an approved open signal carries a size and a risk amount |
| RiskEngineV2.NonOpenSignalApproved | supabase/functions/risk-engine-v2/index.ts:257-259 | a close or hold signal is approved with nothing else |
| RiskEngineV2.FirstFailingGateDecides | supabase/functions/risk-engine-v2/index.ts:261-328 | the first failing gate's message is the rejection reason, with the warnings raised before it |
| RiskEngineV2.ApprovalConditions | supabase/functions/risk-engine-v2/index.ts:245-345 | an open signal is approved exactly when every limit is met, read off the inputs; an approval carries the computed size, the modifications and the drawdown warnings in order |
| RiskEngineV2.RejectionIsJustified | supabase/functions/risk-engine-v2/index.ts:245-345 | every rejection reason is true of the inputs |
| RiskEngineV2.HardStopLossRequired | supabase/functions/risk-engine-v2/index.ts:221-226 | an open signal without a stop loss under hard stop losses is always rejected without warnings, by this check unless the session filter rejects first |
| RiskEngineV2.EvaluateRisk | supabase/functions/risk-engine-v2/index.ts:245-345 | the step-by-step evaluation with early returns equals `Evaluation` |
| RiskEngineV1.BasePipValue | supabase/functions/risk-engine/index.ts:66-83 | the table value of the symbol as given, 10 for an unknown one; 0.5 exactly for XAGUSD and 1 exactly for XAUUSD |
| RiskEngineV1.PipValue | supabase/functions/risk-engine/index.ts:80-83 | positive for a positive lot size |
| RiskEngineV1.PipValueIsCaseSensitive | supabase/functions/risk-engine/index.ts:80-83 | "xauusd" is not found in the table, unlike "XAUUSD" |
| RiskEngineV1.PipToPrice | supabase/functions/risk-engine/index.ts:85-97 | a pip is 0.01 for a JPY pair, 0.1 for gold and 0.0001 otherwise, in that order of precedence |
| RiskEngineV1.PositionSize | supabase/functions/risk-engine/index.ts:100-120 | between 0.01 and 100 lots in whole hundredths; the risk amount is the size times the stop times the pip value |
| RiskEngineV1.PositionSizeNearest | supabase/functions/risk-engine/index.ts:100-120 | within the limits, the size is the risk budget's lots rounded to the nearest hundredth |
| RiskEngineV1.CheckMaxConcurrentTrades | supabase/functions/risk-engine/index.ts:123-134 | fails exactly when the open positions reach the limit |
| RiskEngineV1.CheckDailyDrawdown | supabase/functions/risk-engine/index.ts:136-160 | fails exactly when the daily drawdown reaches the limit, warns exactly when it passes at 70% of it or more |
| RiskEngineV1.DailyDrawdownRejectsIffEquityFallen | supabase/functions/risk-engine/index.ts:136-160 | with a positive start balance, rejects exactly when equity fell by the limit's share of it |
| RiskEngineV1.CheckSpreadFilter | supabase/functions/risk-engine/index.ts:162-173 | fails exactly when the spread exceeds the limit |
| RiskEngineV1.CheckDuplicatePosition | supabase/functions/risk-engine/index.ts:175-191 | fails exactly when a position on the symbol and side exists |
| RiskEngineV1.CheckMarginAvailable | supabase/functions/risk-engine/index.ts:193-204 | fails exactly when free margin is below 1.5 times the required margin |
| RiskEngineV1.StopLossPips | supabase/functions/risk-engine/index.ts:256 | the stop distance defaults to 30 pips and is never 0 |
| RiskEngineV1.TakeProfitPips | supabase/functions/risk-engine/index.ts:257 | the target distance defaults to 60 pips and is never 0 |
| RiskEngineV1.StopPrices | supabase/functions/risk-engine/index.ts:273-285 | a buy's stop is below and its target above the price by the offsets, a sell's the other way |
| RiskEngineV1.RiskRewardWarning | supabase/functions/risk-engine/index.ts:288-290 | one warning exactly when the target is nearer than the stop |
| RiskEngineV1.RoundToFiveDecimals | supabase/functions/risk-engine/index.ts:298-299 | the rounded price is within half a unit of the fifth decimal |
| RiskEngineV1.RoundToCents | supabase/functions/risk-engine/index.ts:302 | the rounded amount is within half a cent |
| RiskEngineV1.OrderFor | supabase/functions/risk-engine/index.ts:293-303 | the order carries the signal's symbol, side and reason, the computed size, the pip distances and the risk amount to the cent; its stop-loss lies the stop distance against the trade and its take-profit the target distance with it, each to within 0.000005 |
| RiskEngineV1.OrderBracketsPrice | supabase/functions/risk-engine/index.ts:273-303 | a buy order's stop is below and its target above the current price, a sell's the other way |
| RiskEngineV1.Verdict | supabase/functions/risk-engine/index.ts:292-307 | approved exactly when the gates cleared |
| RiskEngineV1.Evaluation | supabase/functions/risk-engine/index.ts:207-308 | approved exactly when there is an order and exactly when there is no reason; a non-open or sideless signal is rejected |
| RiskEngineV1.FirstFailingGateDecides | supabase/functions/risk-engine/index.ts:223-270 | the first failing gate's message is the rejection reason, with the warnings raised before it |
| RiskEngineV1.ApprovalConditions | supabase/functions/risk-engine/index.ts:207-308 | an open signal is approved exactly when every limit is met, read off the inputs; an approval carries the order for the computed size |
| RiskEngineV1.RejectionIsJustified | supabase/functions/risk-engine/index.ts:207-308 | every rejection reason is true of the inputs |
| RiskEngineV1.EvaluateRisk | supabase/functions/risk-engine/index.ts:207-308 | the step-by-step evaluation with early returns equals `Evaluation` |
| BacktestStrategies.AtrOr | supabase/functions/backtesting-engine/index.ts:213 | an undefined or zero ATR falls back to 0.001 |
| BacktestStrategies.AtrEntry | supabase/functions/backtesting-engine/index.ts:216-232 | an entry on the given side whose stop and target bracket the price when the distance is positive |
| BacktestStrategies.MaCross | supabase/functions/backtesting-engine/index.ts:192-245 | no action before enough candles; when flat, a buy exactly when the fast EMA crosses above the slow one from the previous bar, a sell exactly when it crosses below; with a position, a close exactly when the EMAs stand against it; an entry's stop and target are 1 and 2 ATR multiples |
| BacktestStrategies.RsiBands | supabase/functions/backtesting-engine/index.ts:247-298 | no action before enough candles; when flat, a buy exactly when RSI rises back to the oversold level, otherwise a sell exactly when it falls back to the overbought level; with a position, a close exactly when RSI reaches the opposite level; an entry's stop and target are 1 and 2 ATR multiples |
| BacktestStrategies.Scalper | supabase/functions/backtesting-engine/index.ts:300-343 | no action before enough candles or with a position open; never closes; when flat, a buy exactly when the close comes back above the lower band it touched on the previous bar, otherwise a sell exactly on the same bounce off the upper band; the stop is 1.5 ATR against the trade and the target the middle band |
| BacktestStrategies.ExecuteStrategy | supabase/functions/backtesting-engine/index.ts:346-365 | "rsi-bands"/"RSI Bands" and "scalper"/"Scalper" select those strategies, any other id the MA crossover |
| BacktestStrategies.RoutedActionRespectsPosition | supabase/functions/backtesting-engine/index.ts:346-365 | whatever the id, an entry only when flat and a close only when in a position |
| BacktestStrategies.AtrOrPositive | supabase/functions/backtesting-engine/index.ts:213 | on well-formed candles the ATR used for stops is positive |
| BacktestStrategies.MaCrossStopsBracketClose | supabase/functions/backtesting-engine/index.ts:216-232 | an MA-crossover entry's stop and target lie on either side of the close |
| BacktestStrategies.RsiBandsStopsBracketClose | supabase/functions/backtesting-engine/index.ts:269-285 | an RSI-bands entry's stop and target lie on either side of the close |
| BacktestStrategies.ScalperStopAgainstTrade | supabase/functions/backtesting-engine/index.ts:324-340 | a scalper entry's stop lies on the losing side of the close |
| BacktestSimulator.Id | supabase/functions/backtesting-engine/index.ts:450 | a trade id is "trade-" followed by its number |
| BacktestSimulator.Close | supabase/functions/backtesting-engine/index.ts:443-465 | closing records one trade with the next number, books its profit and leaves the peaks and curve alone |
| BacktestSimulator.Opened | supabase/functions/backtesting-engine/index.ts:472-491 | a fill at the close plus (buy) or minus (sell) spread and slippage, 0.1 lots, stops defaulting to 20 and 40 pips |
| BacktestSimulator.SampleAt | supabase/functions/backtesting-engine/index.ts:523-525 | a curve point exactly on bars whose index is a multiple of 10 |
| BacktestSimulator.Pnls | supabase/functions/backtesting-engine/index.ts:539 | the trades' profits in order |
| BacktestSimulator.Winners | supabase/functions/backtesting-engine/index.ts:529 | only trades with a positive profit, no more than given |
| BacktestSimulator.Losers | supabase/functions/backtesting-engine/index.ts:530 | only trades with a profit of at most 0, no more than given |
| BacktestSimulator.Durations | supabase/functions/backtesting-engine/index.ts:548-550 | each trade's duration, in order |
| BacktestSimulator.SquaredDeviations | supabase/functions/backtesting-engine/index.ts:541-543 | each return's squared deviation from the mean |
| BacktestSimulator.Largest | supabase/functions/backtesting-engine/index.ts:565 | `Math.max` of a non-empty list is one of its elements and bounds all |
| BacktestSimulator.Smallest | supabase/functions/backtesting-engine/index.ts:566 | `Math.min` of a non-empty list is one of its elements and bounds all |
| BacktestSimulator.ProfitFactor | supabase/functions/backtesting-engine/index.ts:557 | infinite exactly when there are wins and no losses, otherwise a finite non-negative ratio |
| BacktestSimulator.PerTrade | supabase/functions/backtesting-engine/index.ts:535-536 | 0 without trades, non-negative for a non-negative total |
| BacktestSimulator.WinRate | supabase/functions/backtesting-engine/index.ts:556 | 0 without trades, otherwise a percentage in [0, 100] |
| BacktestSimulator.Report | supabase/functions/backtesting-engine/index.ts:529-570 | the trade list, curve, profit and drawdown percentage of the run; the drawdown amount as the code computes it; the winner and loser counts, win rate, profit factor, Sharpe ratio, average win and loss, largest win and largest loss over the closed trades; all statistics 0 without trades |
| BacktestSimulator.RunStep | supabase/functions/backtesting-engine/index.ts:416-526 | one more bar of the run is one pass of the loop body |
| BacktestSimulator.Simulate | supabase/functions/backtesting-engine/index.ts:405-526 | the loop over bars 50 onwards ends in the state `Run` defines |
| BacktestSimulator.RunBacktest | supabase/functions/backtesting-engine/index.ts:405-571 | the report of the run with the configured strategy |
| BacktestSimulator.SumPnlsSnoc | supabase/functions/backtesting-engine/index.ts:463 | one more trade adds its profit to the total |
| BacktestSimulator.CloseKeepsBooks | supabase/functions/backtesting-engine/index.ts:443-465 | closing keeps every trade recorded in order and equity equal to the initial balance plus all profits |
| BacktestSimulator.StopsKeepBooks | supabase/functions/backtesting-engine/index.ts:421-466 | the stop check keeps the books |
| BacktestSimulator.ActionKeepsBooks | supabase/functions/backtesting-engine/index.ts:472-515 | entries and closes keep the books |
| BacktestSimulator.BarKeepsBooks | supabase/functions/backtesting-engine/index.ts:416-526 | a bar keeps the books |
| BacktestSimulator.RunKeepsBooks | supabase/functions/backtesting-engine/index.ts:405-526 | after every bar the trades are numbered 1, 2, ... with the configured symbol, strategy and lot, and equity is the initial balance plus the sum of profits |
| BacktestSimulator.BarKeepsPeaks | supabase/functions/backtesting-engine/index.ts:518-520 | a bar keeps the peak above equity and the deepest drawdown above the current one |
| BacktestSimulator.RunKeepsPeaks | supabase/functions/backtesting-engine/index.ts:518-520 | the peak never falls, and the deepest drawdown after a bar is the larger of the previous one and the bar's own |
| BacktestSimulator.CurveSampling | supabase/functions/backtesting-engine/index.ts:523-525 | the curve holds one point per tenth bar from bar 50, each with that bar's time and the equity after it |
| BacktestSimulator.StopBeforeTarget | supabase/functions/backtesting-engine/index.ts:421-441 | a bar touching the stop fills at the stop less slippage even when it also touches the target; the target fills only when the stop is not touched |
| BacktestSimulator.EntryOnlyWhenFlat | supabase/functions/backtesting-engine/index.ts:472-515 | an open position is never replaced; a new one is opened on this bar, from flat |
| BacktestSimulator.TradesSnoc | supabase/functions/backtesting-engine/index.ts:529-530 | a new trade joins exactly one of winners and losers |
| BacktestSimulator.WinnersLosersMembers | supabase/functions/backtesting-engine/index.ts:529-530 | a trade is a winner exactly when it is one of the trades with a positive profit, and a loser exactly when it is one with a profit of at most 0 |
| BacktestSimulator.WinnersLosersSplit | supabase/functions/backtesting-engine/index.ts:529-530 | every trade goes to exactly one of winners and losers, as often as it occurs |
| BacktestSimulator.WinnersLosersPartition | supabase/functions/backtesting-engine/index.ts:529-530 | winners and losers split the trades and their profits |
| BacktestSimulator.GroupSums | supabase/functions/backtesting-engine/index.ts:532-533 | the winners' total is positive exactly when there are winners; the losers' total is at most 0 |
| BacktestSimulator.ReportCounts | supabase/functions/backtesting-engine/index.ts:553-556 | winners plus losers is the number of trades; the win rate is a percentage |
| BacktestSimulator.ProfitFactorCases | supabase/functions/backtesting-engine/index.ts:557 | 0 without winners, infinite with winners and no loss, otherwise gross profit over gross loss |
| BacktestSimulator.GroupsProfitFactor | supabase/functions/backtesting-engine/index.ts:557 | the same cases stated on the two totals |
| BacktestSimulator.ExtremesSigns | supabase/functions/backtesting-engine/index.ts:565-566 | the largest win is positive when there are winners; the largest loss is at most 0 |
| BacktestSimulator.SharpeRatioSign | supabase/functions/backtesting-engine/index.ts:539-545 | with a positive √252 the ratio is 0 when the returns have no spread, and otherwise is positive exactly when the mean return is and negative exactly when it is |
| BacktestSimulator.SharpeRatioOfEqualReturns | supabase/functions/backtesting-engine/index.ts:539-545 | equal returns have standard deviation 0 and a ratio of 0 |
| BacktestSimulator.TotalPnLIsSumOfTrades | supabase/functions/backtesting-engine/index.ts:558 | the reported total profit is the sum of the trades' profits |
| BacktestSimulator.MaxDrawdownAsWrittenAddsShortfall | supabase/functions/backtesting-engine/index.ts:559 | the amount as written is the drawdown amount plus the final shortfall below the peak |
| BacktestSimulator.MaxDrawdownAsWrittenCountsTwice | supabase/functions/backtesting-engine/index.ts:559 | one losing trade of 100 from 1000 is reported as a drawdown of 200 |
| BacktestSimulator.AmountCoversShortfall | supabase/functions/backtesting-engine/index.ts:518-520 | the drawdown amount is finite, at least the current shortfall, and equal to it when the current drawdown is the deepest |
| BacktestSimulator.MaxDrawdownAmountCoversShortfall | supabase/functions/backtesting-engine/index.ts:518-559 | after every bar the corrected drawdown amount is finite and covers the shortfall below the peak |
| BacktestSimulator.ReportedDrawdownAddsShortfall | supabase/functions/backtesting-engine/index.ts:559 | with a positive initial balance the reported amount is the corrected amount plus the final shortfall below the peak, never less, and equal exactly when the run ends at its peak |
| StrategyEngine.MaCross | supabase/functions/strategy-engine/index.ts:157-208 | nothing before enough candles; a signal opens with confidence 0.7, 30/60 pips, the first candle's symbol; buy exactly on an upward EMA cross, sell exactly on a downward one |
| StrategyEngine.MaCrossQuietOnFlatMarket | supabase/functions/strategy-engine/index.ts:157-208 | constant closes never give a signal |
| StrategyEngine.RsiCross | supabase/functions/strategy-engine/index.ts:227-253 | buy exactly when RSI rises through the oversold level, sell exactly when (otherwise) it falls through the overbought level |
| StrategyEngine.RsiBands | supabase/functions/strategy-engine/index.ts:210-256 | nothing before enough candles; a signal opens with confidence 0.65, 25/50 pips; it is given exactly when RSI crosses a level, on that side |
| StrategyEngine.RsiBandsQuietOnRisingMarket | supabase/functions/strategy-engine/index.ts:210-256 | non-decreasing closes never give a signal for levels up to 100 |
| StrategyEngine.PipsAtLeast | supabase/functions/strategy-engine/index.ts:278-290 | the rounded pip distance, but never below the floor |
| StrategyEngine.Scalper | supabase/functions/strategy-engine/index.ts:258-310 | nothing before enough candles; a signal opens with confidence 0.6; its stop is the ATR times the multiplier (1.5 by default) in rounded pips but at least 10, its target twice that distance in rounded pips but at least 20; buy exactly at or below the lower band, sell exactly at or above the upper band otherwise |
| StrategyEngine.ScalperTargetBeyondStop | supabase/functions/strategy-engine/index.ts:277-306 | on well-formed candles the scalper's target is at least its stop |
| StrategyEngine.EvaluateStrategy | supabase/functions/strategy-engine/index.ts:313-327 | a disabled or unknown strategy gives nothing; the three names select their strategies |
| StrategyEngine.EvaluatedSignalOpens | supabase/functions/strategy-engine/index.ts:313-327 | any evaluated signal opens a trade with a confidence in [0, 1] |
| StrategyEngine.Contribution | supabase/functions/strategy-engine/index.ts:352-359 | at most one signal, from a selected strategy, carrying the requested symbol |
| StrategyEngine.Enabled | supabase/functions/strategy-engine/index.ts:364 | a strategy is kept exactly when it is one of those given and enabled, as many times as it occurs among them; no more than given |
| StrategyEngine.CollectSignals | supabase/functions/strategy-engine/index.ts:349-365 | the loop's signals are `Collected` and the evaluated count is the number of enabled strategies |
| StrategyEngine.CollectedAppend | supabase/functions/strategy-engine/index.ts:349-361 | signals keep the order of the strategies |
| StrategyEngine.CollectedBounds | supabase/functions/strategy-engine/index.ts:349-365 | no more signals than enabled strategies, each opening a trade on the requested symbol |
| StrategyEngine.CollectedOne | supabase/functions/strategy-engine/index.ts:352-359 | a single strategy contributes its evaluation exactly when it is selected |
| Mt5Connection.WithLog | src/hooks/useMT5Connection.ts:31-38 | the new entry first, then the older entries in order, at most 100 |
| Mt5Connection.LogAllKeepsNewest | src/hooks/useMT5Connection.ts:31-38 | after any sequence of entries the log is the 100 newest, newest first |
| Mt5Connection.UpsertCandle | src/hooks/useMT5Connection.ts:168-179 | a candle for a bar already held replaces it in place; any other is appended after the 99 newest |
| Mt5Connection.UpsertCandleKeepsBuffer | src/hooks/useMT5Connection.ts:168-179 | at most 100 candles, one per bar, and the new candle is the one for its bar |
| Mt5Connection.ApplyOrderUpdate | src/hooks/useMT5Connection.ts:186-201 | a closed position removes its ticket and keeps the rest; another status replaces the first entry with the ticket or is appended |
| Mt5Connection.OrderUpdateKeepsTicketsDistinct | src/hooks/useMT5Connection.ts:186-201 | tickets stay distinct; a closed ticket is gone, any other update is the one position with its ticket |
| Mt5Connection.TradingAfter | src/hooks/useMT5Connection.ts:212-230 | start sets the flag, stop and the kill switch clear it, and nothing else changes it |
| Mt5Connection.KeyAccepted | src/hooks/useMT5Connection.ts:42 | a key is accepted exactly when present with at least 8 UTF-16 code units (a character beyond the Basic Multilingual Plane counts twice); 8 characters always suffice, fewer than 4 never do |
| Mt5Connection.AstralKeyAccepted | src/hooks/useMT5Connection.ts:42 | a key of four characters beyond the Basic Multilingual Plane is accepted, since it is 8 code units long |
| Mt5Connection.Mt5Session.constructor | src/hooks/useMT5Connection.ts:24-29 | disconnected, not trading, no account, empty buffers |
| Mt5Connection.Mt5Session.AddLog | src/hooks/useMT5Connection.ts:31-38 | the log gains the entry as `WithLog` says; nothing else changes |
| Mt5Connection.Mt5Session.Connect | src/hooks/useMT5Connection.ts:40-59 | a missing or short key sets the error status; an open socket is left alone; otherwise connecting; each with its log line |
| Mt5Connection.Mt5Session.OnOpen | src/hooks/useMT5Connection.ts:64-66 | connected, the socket open, logged; nothing else changes |
| Mt5Connection.Mt5Session.OnError | src/hooks/useMT5Connection.ts:112-115 | the error status, logged; nothing else changes |
| Mt5Connection.Mt5Session.OnClose | src/hooks/useMT5Connection.ts:96-99 | disconnected, trading stopped, logged |
| Mt5Connection.Mt5Session.Disconnect | src/hooks/useMT5Connection.ts:130-146 | disconnected, trading stopped, logged |
| Mt5Connection.Mt5Session.HandleMessage | src/hooks/useMT5Connection.ts:148-242 | the trading flag follows `TradingAfter`; `auth_failed` sets the error status; `account_update` stores the account; candles and positions follow their reducers; every case but `candle`, `pong`, an unknown type and an unknown command logs its own line; the buffers stay valid |

## Left out

- HTTP handling of the edge functions: CORS, request parsing, JSON responses, database reads and writes, and logging to the console.
- The WebSocket itself in the MT5 hook: creating the socket, sending the authentication message, reconnect timers, ping intervals, toasts, React rendering. Its open, error and close handlers are modelled as `OnOpen`, `OnError` and `OnClose`; the failure to create a socket (`Failed to create connection`) is not.
- The payloads of `tick`, `account_update`, `order_result`, `auth_failed` and `error` are carried as the text the hook interpolates into its log line; `JSON.stringify` and number formatting are not modelled.
- `sendMessage`, `startTrading`, `stopTrading`, `activateKillSwitch`, `sendOrder` and `closePosition` in the MT5 hook: they send over the socket; the flag changes they make on the sender's side are not modelled.
- `generateSampleCandles` in the backtesting function: it uses `Math.random`.
- The text of log and rejection messages that embed `toFixed` numbers: messages are datatypes with the numbers as fields.
- `isJPYPair` in the second risk engine is declared but never used.
- The news filter setting and the news blackout window are read by neither risk engine.
- Upper-casing covers ASCII letters only.
- IEEE rounding of floating-point arithmetic: the model computes on exact reals.
- Periods are natural numbers: fractional or negative periods from a request are not modelled.
- The trade id is kept as its number; `BacktestSimulator.Id` renders it.
- RiskEngineV2.PositionSize: requires a non-zero stop distance; the caller never passes 0 because the sizing stop defaults to 20 pips.
- RiskEngineV1.PositionSize: requires a non-zero stop distance; the caller never passes 0 because the stop defaults to 30 pips.
- RiskEngineV1.OrderBracketsPrice: requires stop and target distances above 0.05 pips, so that rounding to five decimals cannot move a price past the current one.
- BacktestSimulator.Simulate: the loop is proved for any strategy function; the properties of the configured strategies are stated separately in BacktestStrategies.
- StrategyEngine.RsiBands: the source's `NaN` test on the two RSI values can never fire once enough candles are present, so the model has no such branch.
- Mt5Connection.Mt5Session.Connect: models the part of `connect` before the socket is created; `opening` says that a socket would be created.

## Findings

| source | as written | input that shows it | evidently intended | confidence | as-written member | corrected member |
|---|---|---|---|---|---|---|
| supabase/functions/backtesting-engine/index.ts:559 | the maximum drawdown amount is `maxEquity - (equity - maxDrawdown / 100 * maxEquity)`, which adds the final shortfall below the peak to the drawdown amount | initial balance 1000, one trade losing 100: drawdown 10% of a 1000 peak, final equity 900, reported amount 200 | `maxDrawdown / 100 * maxEquity`, here 100 | not executed | BacktestSimulator.MaxDrawdownAsWrittenCountsTwice | BacktestSimulator.MaxDrawdownAmountCoversShortfall |
