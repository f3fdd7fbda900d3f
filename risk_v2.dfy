/** The second-generation risk gate. An order signal passes a fixed chain of checks
    (session window, hard stop-loss, trade counts, drawdowns, spread, duplicates, margin);
    the first failing check rejects it, and an approved order is sized from the account
    equity and the stop-loss distance. The clock is not read: the UTC hour and weekday
    are parameters. */
module RiskEngineV2 {
  import opened Wrappers
  import opened Numeric
  import opened Market
  import opened Text
  import opened Gating

  /** A UTC hour of the day and a UTC weekday, 0 being Sunday. */
  type Hour = h: int | 0 <= h < 24
  type Weekday = d: int | 0 <= d < 7

  datatype SessionFilter = SessionFilter(
    enabled: bool,
    allowLondon: bool,
    allowNewYork: bool,
    allowTokyo: bool,
    allowSydney: bool,
    blockWeekends: bool,
    blockNewsEvents: bool)

  datatype RiskSettings = RiskSettings(
    maxDailyDrawdownPct: real,
    maxWeeklyDrawdownPct: real,
    defaultRiskPct: real,
    maxConcurrentTrades: int,
    maxTradesPerDay: int,
    spreadFilterPips: real,
    newsFilterMinutes: real,
    hardStopLoss: bool,
    autoBreakeven: bool,
    autoBreakevenPips: real,
    trailingStop: bool,
    trailingStopPips: real,
    sessionFilter: SessionFilter)

  datatype DailyStats = DailyStats(
    tradesOpened: int,
    startBalance: real,
    lowestEquity: real,
    weekStartBalance: real)

  datatype Horizon = Daily | Weekly

  /** Why a signal was rejected; the message text is not modelled, the values it shows are. */
  datatype Rejection =
    | WeekendClosure
    | OutsideAllowedSessions
    | HardStopLossMissing
    | MaxConcurrentTradesReached(maxTrades: int)
    | MaxDailyTradesReached(maxTrades: int)
    | DrawdownLimitExceeded(horizon: Horizon, maxPct: real, drawdown: Extended)
    | SpreadTooWide(spread: real, maxSpread: real)
    | DuplicatePosition(side: Side, symbol: string)
    | InsufficientMargin(required: real, available: real)

  datatype Warning = ApproachingDrawdownLimit(horizon: Horizon, drawdown: Extended)

  type Gate = Check<Rejection, Warning>

  /** `autoBreakeven` is false when the key is absent (it is only ever set to true). */
  datatype Modifications = Modifications(autoBreakeven: bool, trailingStop: Option<real>)

  datatype RiskCheckResult = RiskCheckResult(
    approved: bool,
    reason: Option<Rejection>,
    warnings: seq<Warning>,
    adjustedLots: Option<real>,
    riskAmount: Option<real>,
    modifications: Option<Modifications>)

  // ---------------------------------------------------------------------------------------
  // Pip values

  /** Value of one pip for one standard lot, by upper-case symbol. */
  const PipValues: map<string, real> := map[
    "EURUSD" := 10.0, "GBPUSD" := 10.0, "AUDUSD" := 10.0, "NZDUSD" := 10.0,
    "USDJPY" := 9.1, "EURJPY" := 9.1, "GBPJPY" := 9.1, "AUDJPY" := 9.1,
    "USDCHF" := 10.5, "EURCHF" := 10.5, "GBPCHF" := 10.5,
    "USDCAD" := 7.5, "EURCAD" := 7.5, "GBPCAD" := 7.5,
    "XAUUSD" := 1.0, "XAGUSD" := 50.0, "BTCUSD" := 1.0, "ETHUSD" := 1.0]

  /** `PIP_VALUES[symbol.toUpperCase()] || 10`: the table is consulted case-insensitively
      and an unknown symbol is worth 10 per pip. */
  function BasePipValue(symbol: string): (v: real)
    ensures v > 0.0
    ensures ToUpper(symbol) in PipValues ==> v == PipValues[ToUpper(symbol)]
    ensures ToUpper(symbol) !in PipValues ==> v == 10.0
    ensures v in {1.0, 7.5, 9.1, 10.0, 10.5, 50.0}
  {
    var upper := ToUpper(symbol);
    if upper in PipValues then OrElse(PipValues[upper], 10.0) else 10.0
  }

  function PipValue(symbol: string, lotSize: real): (v: real)
    ensures lotSize > 0.0 ==> v > 0.0
  {
    BasePipValue(symbol) * lotSize
  }

  /** Upper-casing a symbol first does not change its pip value. */
  lemma PipValueIgnoresCase(symbol: string)
    ensures BasePipValue(ToUpper(symbol)) == BasePipValue(symbol)
  {
    ToUpperIdempotent(symbol);
  }

  // ---------------------------------------------------------------------------------------
  // Sessions

  datatype Sessions = Sessions(london: bool, newYork: bool, tokyo: bool, sydney: bool)

  /** Which sessions are open at a UTC hour. */
  function CurrentSessions(utcHour: Hour): (s: Sessions)
  {
    Sessions(
      london := utcHour >= 7 && utcHour < 16,
      newYork := utcHour >= 12 && utcHour < 21,
      tokyo := utcHour >= 0 && utcHour < 9,
      sydney := utcHour >= 21 || utcHour < 6)
  }

  /** Every hour of the day lies in at least one session. */
  lemma SomeSessionAlwaysOpen(utcHour: Hour)
    ensures var s := CurrentSessions(utcHour); s.london || s.newYork || s.tokyo || s.sydney
  {
  }

  /** Friday from 21:00, all of Saturday, and Sunday before 21:00 (UTC). */
  predicate IsWeekend(day: Weekday, hour: Hour)
  {
    (day == 5 && hour >= 21) || day == 6 || (day == 0 && hour < 21)
  }

  /** The weekend closure is the 48 consecutive hours of the week that start on Friday at
      21:00 UTC (hour 141 of a week that starts on Sunday at midnight). */
  lemma WeekendIsFortyEightHours(day: Weekday, hour: Hour)
    ensures IsWeekend(day, hour) <==> (day * 24 + hour + 168 - 141) % 168 < 48
  {
  }

  datatype SessionName = London | NewYork | Tokyo | Sydney

  /** The allowed sessions that are open now, in the order the filter lists them. */
  function AllowedSessions(filter: SessionFilter, s: Sessions): (names: seq<SessionName>)
    ensures London in names <==> filter.allowLondon && s.london
    ensures NewYork in names <==> filter.allowNewYork && s.newYork
    ensures Tokyo in names <==> filter.allowTokyo && s.tokyo
    ensures Sydney in names <==> filter.allowSydney && s.sydney
  {
    (if filter.allowLondon && s.london then [London] else []) +
    (if filter.allowNewYork && s.newYork then [NewYork] else []) +
    (if filter.allowTokyo && s.tokyo then [Tokyo] else []) +
    (if filter.allowSydney && s.sydney then [Sydney] else [])
  }

  /** The hour and day pass the session filter: it is off, or it is not a blocked weekend
      and some allowed session contains the hour. */
  predicate SessionOpenFor(filter: SessionFilter, hour: Hour, day: Weekday)
  {
    !filter.enabled ||
    (!(filter.blockWeekends && IsWeekend(day, hour)) &&
     ((filter.allowLondon && 7 <= hour < 16) || (filter.allowNewYork && 12 <= hour < 21) ||
      (filter.allowTokyo && hour < 9) || (filter.allowSydney && (hour >= 21 || hour < 6))))
  }

  /** An enabled filter rejects at weekends when told to, and otherwise whenever no allowed
      session contains the hour; a disabled one never rejects. The session windows are
      London [7, 16), New York [12, 21), Tokyo [0, 9) and Sydney from 21 to 6. */
  function CheckSessionFilter(filter: SessionFilter, hour: Hour, day: Weekday): (c: Gate)
    ensures c.Passed? <==> SessionOpenFor(filter, hour, day)
    ensures c.Passed? ==> c.warning.None?
    ensures !filter.enabled ==> c.Passed?
    ensures c == Failed(WeekendClosure) <==> filter.enabled && filter.blockWeekends && IsWeekend(day, hour)
    ensures c == Failed(OutsideAllowedSessions) <==>
      filter.enabled && !(filter.blockWeekends && IsWeekend(day, hour)) &&
      !((filter.allowLondon && 7 <= hour < 16) || (filter.allowNewYork && 12 <= hour < 21) ||
        (filter.allowTokyo && hour < 9) || (filter.allowSydney && (hour >= 21 || hour < 6)))
    ensures c.Failed? ==> c.message == WeekendClosure || c.message == OutsideAllowedSessions
  {
    if !filter.enabled then Passed(None)
    else if filter.blockWeekends && IsWeekend(day, hour) then Failed(WeekendClosure)
    else
      var names := AllowedSessions(filter, CurrentSessions(hour));
      assert names == [] <==> !(London in names || NewYork in names || Tokyo in names || Sydney in names);
      if |names| == 0 then Failed(OutsideAllowedSessions) else Passed(None)
  }

  /** With every session allowed and weekends not blocked, the filter never rejects. */
  lemma PermissiveFilterNeverRejects(filter: SessionFilter, hour: Hour, day: Weekday)
    requires filter.allowLondon && filter.allowNewYork && filter.allowTokyo && filter.allowSydney
    requires !filter.blockWeekends
    ensures CheckSessionFilter(filter, hour, day).Passed?
  {
  }

  // ---------------------------------------------------------------------------------------
  // Position sizing

  datatype Sizing = Sizing(lots: real, riskAmount: real)

  /** The amount a trade may put at risk: `riskPct` percent of the equity. */
  function RiskBudget(equity: real, riskPct: real): real
  {
    equity * (riskPct / 100.0)
  }

  /** What one lot loses over the stop-loss distance. */
  function LossPerLot(slPips: real, symbol: string): real
  {
    slPips * BasePipValue(symbol)
  }

  /** The lot count that would risk exactly the budget. */
  function TargetLots(equity: real, riskPct: real, slPips: real, symbol: string): real
    requires slPips != 0.0
  {
    RiskBudget(equity, riskPct) / LossPerLot(slPips, symbol)
  }

  /** Lots are the target rounded down to 0.01 but never below 0.01; the risk amount is
      what those lots put at stake over the stop-loss distance. */
  function PositionSize(equity: real, riskPct: real, slPips: real, symbol: string): (s: Sizing)
    requires slPips != 0.0
    ensures s.lots >= 0.01 && WholeHundredths(s.lots)
    ensures s.riskAmount == s.lots * LossPerLot(slPips, symbol)
  {
    var riskAmount := equity * (riskPct / 100.0);
    var pipValue := PipValue(symbol, 1.0);
    var lots := riskAmount / (slPips * pipValue);
    var roundedLots := Max(0.01, Floor(lots * 100.0) as real / 100.0);
    assert pipValue == BasePipValue(symbol);
    assert lots == TargetLots(equity, riskPct, slPips, symbol);
    Sizing(roundedLots, roundedLots * slPips * pipValue)
  }

  /** When the target is at least the minimum lot, the lots are the target rounded down
      to a hundredth: at most the target and less than 0.01 below it. */
  lemma PositionSizeRoundsDown(equity: real, riskPct: real, slPips: real, symbol: string)
    requires slPips != 0.0
    requires TargetLots(equity, riskPct, slPips, symbol) >= 0.01
    ensures var s := PositionSize(equity, riskPct, slPips, symbol);
      var target := TargetLots(equity, riskPct, slPips, symbol);
      s.lots <= target < s.lots + 0.01
  {
    var target := TargetLots(equity, riskPct, slPips, symbol);
    var n := Floor(target * 100.0);
    assert n >= 1;
  }

  /** Below the minimum lot the size is the minimum lot. */
  lemma PositionSizeMinimum(equity: real, riskPct: real, slPips: real, symbol: string)
    requires slPips != 0.0
    requires TargetLots(equity, riskPct, slPips, symbol) < 0.01
    ensures PositionSize(equity, riskPct, slPips, symbol).lots == 0.01
  {
    var n := Floor(TargetLots(equity, riskPct, slPips, symbol) * 100.0);
    assert n <= 0;
  }

  /** With a positive stop-loss distance and a target of at least the minimum lot, the
      amount at risk never exceeds `riskPct` percent of the equity, and falls short of it
      by less than one hundredth of a lot's worth. */
  lemma PositionSizeWithinRisk(equity: real, riskPct: real, slPips: real, symbol: string)
    requires slPips > 0.0
    requires TargetLots(equity, riskPct, slPips, symbol) >= 0.01
    ensures var s := PositionSize(equity, riskPct, slPips, symbol);
      var budget := RiskBudget(equity, riskPct);
      var perLot := LossPerLot(slPips, symbol);
      budget - 0.01 * perLot < s.riskAmount <= budget
  {
    var s := PositionSize(equity, riskPct, slPips, symbol);
    var target := TargetLots(equity, riskPct, slPips, symbol);
    var perLot := LossPerLot(slPips, symbol);
    PositionSizeRoundsDown(equity, riskPct, slPips, symbol);
    assert perLot > 0.0;
    assert target * perLot == RiskBudget(equity, riskPct);
    assert s.lots <= target < s.lots + 0.01;
    ScaleBetween(s.lots, target, perLot, s.riskAmount, RiskBudget(equity, riskPct));
  }

  /** Scaling lots that lie less than 0.01 below the target by a positive loss per lot. */
  lemma ScaleBetween(lots: real, target: real, perLot: real, risk: real, budget: real)
    requires perLot > 0.0 && lots <= target < lots + 0.01
    requires risk == lots * perLot && budget == target * perLot
    ensures budget - 0.01 * perLot < risk <= budget
  {
    var gap := target - lots;
    assert budget - risk == gap * perLot;
    ProductNonNegative(gap, perLot);
    assert (0.01 - gap) * perLot > 0.0;
    assert 0.01 * perLot - gap * perLot == (0.01 - gap) * perLot;
  }

  // ---------------------------------------------------------------------------------------
  // Checks

  function CheckMaxConcurrentTrades(positions: seq<Position>, maxConcurrent: int): (c: Gate)
    ensures c.Failed? <==> |positions| >= maxConcurrent
    ensures c.Failed? ==> c.message == MaxConcurrentTradesReached(maxConcurrent)
    ensures c.Passed? ==> c.warning.None?
  {
    if |positions| >= maxConcurrent then Failed(MaxConcurrentTradesReached(maxConcurrent))
    else Passed(None)
  }

  function CheckMaxTradesPerDay(stats: DailyStats, maxTrades: int): (c: Gate)
    ensures c.Failed? <==> stats.tradesOpened >= maxTrades
    ensures c.Failed? ==> c.message == MaxDailyTradesReached(maxTrades)
    ensures c.Passed? ==> c.warning.None?
  {
    if stats.tradesOpened >= maxTrades then Failed(MaxDailyTradesReached(maxTrades))
    else Passed(None)
  }

  /** Shared by the daily and the weekly drawdown checks, which differ only in the start
      balance and the message. At or above the limit rejects; at or above 80% of it passes
      with a warning. */
  function CheckDrawdown(horizon: Horizon, start: real, equity: real, maxDrawdownPct: real): (c: Gate)
    ensures c.Failed? <==> AtLeast(DrawdownPct(start, equity), maxDrawdownPct)
    ensures c.Failed? ==> c.message.DrawdownLimitExceeded? && c.message.horizon == horizon
    ensures c.Passed? && c.warning.Some? <==>
      !AtLeast(DrawdownPct(start, equity), maxDrawdownPct) &&
      AtLeast(DrawdownPct(start, equity), maxDrawdownPct * 0.8)
    ensures c.Passed? && c.warning.Some? ==> c.warning.value.horizon == horizon
  {
    var drawdown := DrawdownPct(start, equity);
    if AtLeast(drawdown, maxDrawdownPct) then
      Failed(DrawdownLimitExceeded(horizon, maxDrawdownPct, drawdown))
    else if AtLeast(drawdown, maxDrawdownPct * 0.8) then
      Passed(Some(ApproachingDrawdownLimit(horizon, drawdown)))
    else
      Passed(None)
  }

  /** For a positive start balance the drawdown check rejects exactly when equity has
      fallen to `start * (1 - limit / 100)` or below. */
  lemma DrawdownRejectsIffEquityFallen(horizon: Horizon, start: real, equity: real, limit: real)
    requires start > 0.0
    ensures CheckDrawdown(horizon, start, equity, limit).Failed? <==>
      equity <= start * (1.0 - limit / 100.0)
  {
    var pct := (start - equity) / start * 100.0;
    assert DrawdownPct(start, equity) == Finite(pct);
    assert pct * start == (start - equity) * 100.0;
    if pct >= limit {
      ProductNonNegative(pct - limit, start);
    } else {
      ProductNonNegative(limit - pct, start);
      assert (limit - pct) * start > 0.0;
    }
  }

  /** A zero start balance divides by zero: the check then rejects exactly when equity is
      negative (+Infinity), and passes silently otherwise (-Infinity or NaN). */
  lemma DrawdownFromZeroStart(horizon: Horizon, equity: real, limit: real)
    ensures CheckDrawdown(horizon, 0.0, equity, limit).Failed? <==> equity < 0.0
    ensures CheckDrawdown(horizon, 0.0, equity, limit).Passed? ==>
      CheckDrawdown(horizon, 0.0, equity, limit).warning.None? || equity < 0.0
  {
  }

  /** A spread strictly above the filter rejects; an equal spread passes. */
  function CheckSpreadFilter(currentSpread: real, maxSpreadPips: real): (c: Gate)
    ensures c.Failed? <==> currentSpread > maxSpreadPips
    ensures c.Failed? ==> c.message == SpreadTooWide(currentSpread, maxSpreadPips)
    ensures c.Passed? ==> c.warning.None?
  {
    if currentSpread > maxSpreadPips then Failed(SpreadTooWide(currentSpread, maxSpreadPips))
    else Passed(None)
  }

  /** `!signal.slPips`: the stop-loss distance is absent or zero. */
  predicate MissingStopLoss(signal: Signal)
  {
    signal.slPips.None? || signal.slPips.value == 0.0
  }

  function CheckHardStopLoss(signal: Signal, settings: RiskSettings): (c: Gate)
    ensures c.Failed? <==> settings.hardStopLoss && signal.kind == OpenSignal && MissingStopLoss(signal)
    ensures c.Failed? ==> c.message == HardStopLossMissing
    ensures c.Passed? ==> c.warning.None?
  {
    if settings.hardStopLoss && signal.kind == OpenSignal && MissingStopLoss(signal) then
      Failed(HardStopLossMissing)
    else
      Passed(None)
  }

  function CheckDuplicatePosition(positions: seq<Position>, symbol: string, side: Side): (c: Gate)
    ensures c.Failed? <==> exists k :: 0 <= k < |positions| && positions[k].symbol == symbol && positions[k].side == side
    ensures c.Failed? ==> c.message == DuplicatePosition(side, symbol)
    ensures c.Passed? ==> c.warning.None?
  {
    if exists k :: 0 <= k < |positions| && positions[k].symbol == symbol && positions[k].side == side then
      Failed(DuplicatePosition(side, symbol))
    else
      Passed(None)
  }

  /** The free margin must cover the required margin plus a 20% buffer. */
  function CheckMarginAvailable(freeMargin: real, requiredMargin: real): (c: Gate)
    ensures c.Failed? <==> freeMargin < requiredMargin * 1.2
    ensures c.Failed? ==> c.message == InsufficientMargin(requiredMargin * 1.2, freeMargin)
    ensures c.Passed? ==> c.warning.None?
  {
    var buffer := requiredMargin * 1.2;
    if freeMargin < buffer then Failed(InsufficientMargin(buffer, freeMargin)) else Passed(None)
  }

  /** Margin at 1:100 leverage on 100 000 units per lot. */
  function EstimatedMargin(lots: real, currentPrice: real): real
  {
    lots * currentPrice * 100000.0 / 100.0
  }

  // ---------------------------------------------------------------------------------------
  // Evaluation

  /** The stop-loss distance used for sizing: `signal.slPips || 20`. */
  function SizingStopLoss(signal: Signal): (sl: real)
    ensures sl != 0.0
  {
    PipsOr(signal.slPips, 20.0)
  }

  function SizeFor(signal: Signal, account: AccountInfo, settings: RiskSettings): Sizing
  {
    PositionSize(account.equity, settings.defaultRiskPct, SizingStopLoss(signal), signal.symbol)
  }

  /** The gates of an open signal, in the order they run. The duplicate check only runs
      for a signal with a side; a signal without one passes that gate. */
  function Gates(signal: Signal, account: AccountInfo, positions: seq<Position>, settings: RiskSettings,
                 stats: DailyStats, currentPrice: real, currentSpread: real, hour: Hour, day: Weekday): (gates: Checks<Rejection, Warning>)
  {
    Then(CheckSessionFilter(settings.sessionFilter, hour, day),
    Then(CheckHardStopLoss(signal, settings),
    Then(CheckMaxConcurrentTrades(positions, settings.maxConcurrentTrades),
    Then(CheckMaxTradesPerDay(stats, settings.maxTradesPerDay),
    Then(CheckDrawdown(Daily, stats.startBalance, account.equity, settings.maxDailyDrawdownPct),
    Then(CheckDrawdown(Weekly, stats.weekStartBalance, account.equity, settings.maxWeeklyDrawdownPct),
    Then(CheckSpreadFilter(currentSpread, settings.spreadFilterPips),
    Then(if signal.side.Some? then CheckDuplicatePosition(positions, signal.symbol, signal.side.value)
      else Passed(None),
    Then(CheckMarginAvailable(account.freeMargin,
        EstimatedMargin(SizeFor(signal, account, settings).lots, currentPrice)), Done)))))))))
  }

  /** Present exactly when auto-breakeven or a trailing stop is switched on. */
  function ModificationsFor(settings: RiskSettings): (m: Option<Modifications>)
    ensures m.Some? <==> settings.autoBreakeven || settings.trailingStop
    ensures m.Some? ==> m.value.autoBreakeven == settings.autoBreakeven
    ensures m.Some? ==> (m.value.trailingStop.Some? <==> settings.trailingStop)
    ensures m.Some? && settings.trailingStop ==> m.value.trailingStop == Some(settings.trailingStopPips)
  {
    var m := Modifications(settings.autoBreakeven,
      if settings.trailingStop then Some(settings.trailingStopPips) else None);
    if m.autoBreakeven || m.trailingStop.Some? then Some(m) else None
  }

  /** The result for an open signal, from the outcome of its gates. */
  function Verdict(outcome: Outcome<Rejection, Warning>, sizing: Sizing, settings: RiskSettings): (r: RiskCheckResult)
    ensures r.approved <==> outcome.Cleared?
    ensures r.warnings == outcome.warnings
  {
    match outcome
    case Rejected(message, warnings) =>
      RiskCheckResult(false, Some(message), warnings, None, None, None)
    case Cleared(warnings) =>
      RiskCheckResult(true, None, warnings, Some(sizing.lots), Some(sizing.riskAmount), ModificationsFor(settings))
  }

  /** The decision for one signal. */
  function Evaluation(signal: Signal, account: AccountInfo, positions: seq<Position>, settings: RiskSettings,
                      stats: DailyStats, currentPrice: real, currentSpread: real, hour: Hour, day: Weekday): (r: RiskCheckResult)
    ensures r.approved <==> r.reason.None?
    ensures !r.approved ==> r.adjustedLots.None? && r.riskAmount.None? && r.modifications.None?
    ensures r.approved && signal.kind == OpenSignal ==> r.adjustedLots.Some? && r.riskAmount.Some?
  {
    if signal.kind != OpenSignal then
      RiskCheckResult(true, None, [], None, None, None)
    else
      Verdict(Chain(Gates(signal, account, positions, settings, stats, currentPrice, currentSpread, hour, day)),
        SizeFor(signal, account, settings), settings)
  }

  /** Anything but an open signal is approved at once, with no warnings, sizing or
      modifications. */
  lemma NonOpenSignalApproved(signal: Signal, account: AccountInfo, positions: seq<Position>, settings: RiskSettings,
                              stats: DailyStats, currentPrice: real, currentSpread: real, hour: Hour, day: Weekday)
    requires signal.kind != OpenSignal
    ensures Evaluation(signal, account, positions, settings, stats, currentPrice, currentSpread, hour, day)
      == RiskCheckResult(true, None, [], None, None, None)
  {
  }

  /** The first failing gate decides: its message is the reason, the warnings are those
      raised before it, and nothing is sized. */
  lemma FirstFailingGateDecides(signal: Signal, account: AccountInfo, positions: seq<Position>, settings: RiskSettings,
                                stats: DailyStats, currentPrice: real, currentSpread: real, hour: Hour, day: Weekday, j: nat)
    requires signal.kind == OpenSignal
    requires var gates := Gates(signal, account, positions, settings, stats, currentPrice, currentSpread, hour, day);
      j < gates.Length() && gates.At(j).Failed? && gates.PassedBefore(j)
    ensures var gates := Gates(signal, account, positions, settings, stats, currentPrice, currentSpread, hour, day);
      Evaluation(signal, account, positions, settings, stats, currentPrice, currentSpread, hour, day)
        == RiskCheckResult(false, Some(gates.At(j).message), gates.WarningsBefore(j), None, None, None)
  {
    ChainFirstFailure(Gates(signal, account, positions, settings, stats, currentPrice, currentSpread, hour, day), j);
  }

  /** What each rejection reason says about the inputs: the condition of the one gate
      that produces it. */
  predicate Justifies(reason: Rejection, signal: Signal, account: AccountInfo, positions: seq<Position>,
                      settings: RiskSettings, stats: DailyStats, currentPrice: real, currentSpread: real,
                      hour: Hour, day: Weekday)
  {
    match reason
    case WeekendClosure =>
      settings.sessionFilter.enabled && settings.sessionFilter.blockWeekends && IsWeekend(day, hour)
    case OutsideAllowedSessions =>
      settings.sessionFilter.enabled && !SessionOpenFor(settings.sessionFilter, hour, day)
    case HardStopLossMissing => settings.hardStopLoss && MissingStopLoss(signal)
    case MaxConcurrentTradesReached(_) => |positions| >= settings.maxConcurrentTrades
    case MaxDailyTradesReached(_) => stats.tradesOpened >= settings.maxTradesPerDay
    case DrawdownLimitExceeded(Daily, _, _) =>
      AtLeast(DrawdownPct(stats.startBalance, account.equity), settings.maxDailyDrawdownPct)
    case DrawdownLimitExceeded(Weekly, _, _) =>
      AtLeast(DrawdownPct(stats.weekStartBalance, account.equity), settings.maxWeeklyDrawdownPct)
    case SpreadTooWide(_, _) => currentSpread > settings.spreadFilterPips
    case DuplicatePosition(side, _) =>
      signal.side == Some(side) &&
      exists k :: 0 <= k < |positions| && positions[k].symbol == signal.symbol && positions[k].side == side
    case InsufficientMargin(_, _) =>
      account.freeMargin < EstimatedMargin(SizeFor(signal, account, settings).lots, currentPrice) * 1.2
  }

  /** An open signal is approved exactly when it meets every limit, read directly off the
      inputs. An approval carries the computed size, the configured modifications and at
      most the two drawdown warnings, the daily one before the weekly one, each raised
      when that drawdown is within 80% of its limit. */
  lemma ApprovalConditions(signal: Signal, account: AccountInfo, positions: seq<Position>, settings: RiskSettings,
                           stats: DailyStats, currentPrice: real, currentSpread: real, hour: Hour, day: Weekday)
    requires signal.kind == OpenSignal
    ensures var r := Evaluation(signal, account, positions, settings, stats, currentPrice, currentSpread, hour, day);
      var sizing := SizeFor(signal, account, settings);
      r.approved <==>
        SessionOpenFor(settings.sessionFilter, hour, day) &&
        !(settings.hardStopLoss && MissingStopLoss(signal)) &&
        |positions| < settings.maxConcurrentTrades &&
        stats.tradesOpened < settings.maxTradesPerDay &&
        !AtLeast(DrawdownPct(stats.startBalance, account.equity), settings.maxDailyDrawdownPct) &&
        !AtLeast(DrawdownPct(stats.weekStartBalance, account.equity), settings.maxWeeklyDrawdownPct) &&
        currentSpread <= settings.spreadFilterPips &&
        (signal.side.Some? ==> forall k :: 0 <= k < |positions| ==>
          !(positions[k].symbol == signal.symbol && positions[k].side == signal.side.value)) &&
        account.freeMargin >= EstimatedMargin(sizing.lots, currentPrice) * 1.2
    ensures var r := Evaluation(signal, account, positions, settings, stats, currentPrice, currentSpread, hour, day);
      var sizing := SizeFor(signal, account, settings);
      r.approved ==>
        r.adjustedLots == Some(sizing.lots) && r.riskAmount == Some(sizing.riskAmount) &&
        r.modifications == ModificationsFor(settings)
    ensures var r := Evaluation(signal, account, positions, settings, stats, currentPrice, currentSpread, hour, day);
      var daily := CheckDrawdown(Daily, stats.startBalance, account.equity, settings.maxDailyDrawdownPct);
      var weekly := CheckDrawdown(Weekly, stats.weekStartBalance, account.equity, settings.maxWeeklyDrawdownPct);
      r.approved ==>
        r.warnings == WarningOf(daily) + WarningOf(weekly) &&
        |r.warnings| <= 2 &&
        (|r.warnings| == 2 ==> r.warnings[0].horizon == Daily && r.warnings[1].horizon == Weekly)
  {
    var gates := Gates(signal, account, positions, settings, stats, currentPrice, currentSpread, hour, day);
    var w: seq<Warning> := [];
    ChainWalkEnds(gates, w);
    var rest := gates;
    ChainStep(gates, rest, w);
    if rest.check.Failed? {
      return;
    }
    w := w + rest.check.warning.ToSeq();
    rest := rest.rest;
    ChainStep(gates, rest, w);
    if rest.check.Failed? {
      return;
    }
    w := w + rest.check.warning.ToSeq();
    rest := rest.rest;
    ChainStep(gates, rest, w);
    if rest.check.Failed? {
      return;
    }
    w := w + rest.check.warning.ToSeq();
    rest := rest.rest;
    ChainStep(gates, rest, w);
    if rest.check.Failed? {
      return;
    }
    w := w + rest.check.warning.ToSeq();
    rest := rest.rest;
    ChainStep(gates, rest, w);
    if rest.check.Failed? {
      return;
    }
    w := w + rest.check.warning.ToSeq();
    rest := rest.rest;
    ChainStep(gates, rest, w);
    if rest.check.Failed? {
      return;
    }
    w := w + rest.check.warning.ToSeq();
    rest := rest.rest;
    ChainStep(gates, rest, w);
    if rest.check.Failed? {
      return;
    }
    w := w + rest.check.warning.ToSeq();
    rest := rest.rest;
    ChainStep(gates, rest, w);
    if rest.check.Failed? {
      return;
    }
    w := w + rest.check.warning.ToSeq();
    rest := rest.rest;
    ChainStep(gates, rest, w);
    if rest.check.Failed? {
      return;
    }
    w := w + rest.check.warning.ToSeq();
    rest := rest.rest;
    ChainWalkEnds(gates, w);
  }

  /** Every rejection is justified by its reason: a disabled session filter, for one, never
      rejects for the session, and a signal without a side is never a duplicate. */
  lemma RejectionIsJustified(signal: Signal, account: AccountInfo, positions: seq<Position>, settings: RiskSettings,
                             stats: DailyStats, currentPrice: real, currentSpread: real, hour: Hour, day: Weekday)
    requires signal.kind == OpenSignal
    ensures var r := Evaluation(signal, account, positions, settings, stats, currentPrice, currentSpread, hour, day);
      !r.approved ==>
        Justifies(r.reason.value, signal, account, positions, settings, stats, currentPrice, currentSpread, hour, day)
  {
    var gates := Gates(signal, account, positions, settings, stats, currentPrice, currentSpread, hour, day);
    var w: seq<Warning> := [];
    ChainWalkEnds(gates, w);
    var rest := gates;
    ChainStep(gates, rest, w);
    if rest.check.Failed? {
      return;
    }
    w := w + rest.check.warning.ToSeq();
    rest := rest.rest;
    ChainStep(gates, rest, w);
    if rest.check.Failed? {
      return;
    }
    w := w + rest.check.warning.ToSeq();
    rest := rest.rest;
    ChainStep(gates, rest, w);
    if rest.check.Failed? {
      return;
    }
    w := w + rest.check.warning.ToSeq();
    rest := rest.rest;
    ChainStep(gates, rest, w);
    if rest.check.Failed? {
      return;
    }
    w := w + rest.check.warning.ToSeq();
    rest := rest.rest;
    ChainStep(gates, rest, w);
    if rest.check.Failed? {
      return;
    }
    w := w + rest.check.warning.ToSeq();
    rest := rest.rest;
    ChainStep(gates, rest, w);
    if rest.check.Failed? {
      return;
    }
    w := w + rest.check.warning.ToSeq();
    rest := rest.rest;
    ChainStep(gates, rest, w);
    if rest.check.Failed? {
      return;
    }
    w := w + rest.check.warning.ToSeq();
    rest := rest.rest;
    ChainStep(gates, rest, w);
    if rest.check.Failed? {
      return;
    }
    w := w + rest.check.warning.ToSeq();
    rest := rest.rest;
    ChainStep(gates, rest, w);
    if rest.check.Failed? {
      return;
    }
    w := w + rest.check.warning.ToSeq();
    rest := rest.rest;
    ChainWalkEnds(gates, w);
  }

  /** With the hard stop-loss setting on, an open signal without a stop-loss distance is
      rejected: for that reason, unless the session filter has already rejected it. */
  lemma HardStopLossRequired(signal: Signal, account: AccountInfo, positions: seq<Position>, settings: RiskSettings,
                             stats: DailyStats, currentPrice: real, currentSpread: real, hour: Hour, day: Weekday)
    requires signal.kind == OpenSignal && settings.hardStopLoss && MissingStopLoss(signal)
    ensures var r := Evaluation(signal, account, positions, settings, stats, currentPrice, currentSpread, hour, day);
      !r.approved && r.warnings == [] &&
      (SessionOpenFor(settings.sessionFilter, hour, day) <==> r.reason == Some(HardStopLossMissing))
  {
    var gates := Gates(signal, account, positions, settings, stats, currentPrice, currentSpread, hour, day);
    if gates.At(0).Failed? {
      ChainFirstFailure(gates, 0);
    } else {
      ChainFirstFailure(gates, 1);
    }
  }

  /** `evaluateRisk`: runs the checks one after another, returning at the first failure and
      pushing the drawdown warnings as they arise. */
  method EvaluateRisk(signal: Signal, account: AccountInfo, positions: seq<Position>, settings: RiskSettings,
                      stats: DailyStats, currentPrice: real, currentSpread: real, hour: Hour, day: Weekday)
    returns (result: RiskCheckResult)
    ensures result == Evaluation(signal, account, positions, settings, stats, currentPrice, currentSpread, hour, day)
  {
    var warnings: seq<Warning> := [];
    if signal.kind != OpenSignal {
      return RiskCheckResult(true, None, [], None, None, None);
    }
    ghost var gates := Gates(signal, account, positions, settings, stats, currentPrice, currentSpread, hour, day);
    assert Evaluation(signal, account, positions, settings, stats, currentPrice, currentSpread, hour, day)
      == Verdict(Chain(gates), SizeFor(signal, account, settings), settings);
    ChainWalkEnds(gates, warnings);
    ghost var rest := gates;

    var sessionCheck := CheckSessionFilter(settings.sessionFilter, hour, day);
    ChainStep(gates, rest, warnings);
    rest := rest.rest;
    if sessionCheck.Failed? {
      return RiskCheckResult(false, Some(sessionCheck.message), warnings, None, None, None);
    }

    var slCheck := CheckHardStopLoss(signal, settings);
    ChainStep(gates, rest, warnings);
    rest := rest.rest;
    if slCheck.Failed? {
      return RiskCheckResult(false, Some(slCheck.message), warnings, None, None, None);
    }

    var concurrentCheck := CheckMaxConcurrentTrades(positions, settings.maxConcurrentTrades);
    ChainStep(gates, rest, warnings);
    rest := rest.rest;
    if concurrentCheck.Failed? {
      return RiskCheckResult(false, Some(concurrentCheck.message), warnings, None, None, None);
    }

    var dailyTradesCheck := CheckMaxTradesPerDay(stats, settings.maxTradesPerDay);
    ChainStep(gates, rest, warnings);
    rest := rest.rest;
    if dailyTradesCheck.Failed? {
      return RiskCheckResult(false, Some(dailyTradesCheck.message), warnings, None, None, None);
    }

    var dailyCheck := CheckDrawdown(Daily, stats.startBalance, account.equity, settings.maxDailyDrawdownPct);
    ChainStep(gates, rest, warnings);
    rest := rest.rest;
    if dailyCheck.Failed? {
      return RiskCheckResult(false, Some(dailyCheck.message), warnings, None, None, None);
    }
    warnings := warnings + dailyCheck.warning.ToSeq();

    var weeklyCheck := CheckDrawdown(Weekly, stats.weekStartBalance, account.equity, settings.maxWeeklyDrawdownPct);
    ChainStep(gates, rest, warnings);
    rest := rest.rest;
    if weeklyCheck.Failed? {
      return RiskCheckResult(false, Some(weeklyCheck.message), warnings, None, None, None);
    }
    warnings := warnings + weeklyCheck.warning.ToSeq();

    var spreadCheck := CheckSpreadFilter(currentSpread, settings.spreadFilterPips);
    ChainStep(gates, rest, warnings);
    rest := rest.rest;
    if spreadCheck.Failed? {
      return RiskCheckResult(false, Some(spreadCheck.message), warnings, None, None, None);
    }

    ChainStep(gates, rest, warnings);
    rest := rest.rest;
    if signal.side.Some? {
      var dupCheck := CheckDuplicatePosition(positions, signal.symbol, signal.side.value);
      if dupCheck.Failed? {
        return RiskCheckResult(false, Some(dupCheck.message), warnings, None, None, None);
      }
    }

    var slPips := PipsOr(signal.slPips, 20.0);
    var sizing := PositionSize(account.equity, settings.defaultRiskPct, slPips, signal.symbol);

    var estimatedMargin := EstimatedMargin(sizing.lots, currentPrice);
    var marginCheck := CheckMarginAvailable(account.freeMargin, estimatedMargin);
    ChainStep(gates, rest, warnings);
    rest := rest.rest;
    if marginCheck.Failed? {
      return RiskCheckResult(false, Some(marginCheck.message), warnings, None, None, None);
    }
    ChainWalkEnds(gates, warnings);

    var autoBreakeven := false;
    var trailingStop: Option<real> := None;
    if settings.autoBreakeven {
      autoBreakeven := true;
    }
    if settings.trailingStop {
      trailingStop := Some(settings.trailingStopPips);
    }
    var modifications := if autoBreakeven || trailingStop.Some? then Some(Modifications(autoBreakeven, trailingStop)) else None;

    result := RiskCheckResult(true, None, warnings, Some(sizing.lots), Some(sizing.riskAmount), modifications);
  }
}
