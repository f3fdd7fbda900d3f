/** The first-generation risk gate. An open signal with a side passes five checks in turn
    (concurrent trades, daily drawdown, spread, duplicates, margin); the first failing check
    rejects it. An approved signal becomes an order request: sized from the account equity
    and the stop-loss distance, with stop-loss and take-profit prices on either side of the
    current price. */
module RiskEngineV1 {
  import opened Wrappers
  import opened Numeric
  import opened Market
  import opened Text
  import opened Gating

  datatype RiskSettings = RiskSettings(
    maxDailyDrawdownPct: real,
    defaultRiskPct: real,
    maxConcurrentTrades: int,
    spreadFilterPips: real,
    newsFilterMinutes: real)

  /** Why a signal was rejected; the message text is not modelled, the values it shows are. */
  datatype Rejection =
    | NotAnOpenOrder
    | MaxConcurrentTradesReached(openTrades: nat, maxTrades: int)
    | DailyDrawdownLimitReached(drawdown: Extended, maxPct: real)
    | SpreadTooHigh(spread: real, maxSpread: real)
    | AlreadyHavePosition(side: Side, symbol: string)
    | InsufficientMargin(available: real, required: real)

  datatype Warning =
    | ApproachingDailyDrawdownLimit(drawdown: Extended, maxPct: real)
    | RiskRewardBelowOne(ratio: real)

  type Gate = Check<Rejection, Warning>

  datatype OrderRequest = OrderRequest(
    symbol: string,
    side: Side,
    volume: real,
    slPrice: real,
    tpPrice: real,
    slPips: real,
    tpPips: real,
    riskAmount: real,
    reason: Reason)

  datatype RiskCheckResult = RiskCheckResult(
    approved: bool,
    order: Option<OrderRequest>,
    rejectionReason: Option<Rejection>,
    warnings: seq<Warning>)

  // ---------------------------------------------------------------------------------------
  // Pips

  /** Value of one pip for one standard lot. The JPY pairs are written `1000 / 100`. */
  const PipValues: map<string, real> := map[
    "EURUSD" := 10.0, "GBPUSD" := 10.0, "AUDUSD" := 10.0, "NZDUSD" := 10.0,
    "USDCAD" := 10.0, "USDCHF" := 10.0,
    "USDJPY" := 1000.0 / 100.0, "EURJPY" := 1000.0 / 100.0, "GBPJPY" := 1000.0 / 100.0,
    "XAUUSD" := 1.0, "XAGUSD" := 0.5]

  /** `PIP_VALUES[symbol] || 10`: the symbol is looked up exactly as given (no case
      folding), and an unknown symbol is worth 10 per pip. */
  function BasePipValue(symbol: string): (v: real)
    ensures v > 0.0
    ensures symbol in PipValues ==> v == PipValues[symbol]
    ensures symbol !in PipValues ==> v == 10.0
    ensures v == 0.5 <==> symbol == "XAGUSD"
    ensures v == 1.0 <==> symbol == "XAUUSD"
    ensures v in {0.5, 1.0, 10.0}
  {
    if symbol in PipValues then OrElse(PipValues[symbol], 10.0) else 10.0
  }

  function PipValue(symbol: string, lotSize: real): (v: real)
    ensures lotSize > 0.0 ==> v > 0.0
  {
    BasePipValue(symbol) * lotSize
  }

  /** Unlike the second-generation engine, the table is case-sensitive: a lower-case gold
      symbol is priced like an unknown one. */
  lemma PipValueIsCaseSensitive()
    ensures BasePipValue("XAUUSD") == 1.0 && BasePipValue("xauusd") == 10.0
  {
    assert "xauusd" != "XAUUSD" by {
      assert "xauusd"[0] != "XAUUSD"[0];
    }
  }

  predicate IsJpyPair(symbol: string)
  {
    Contains(symbol, "JPY")
  }

  /** A pip distance as a price distance: 0.01 for a symbol containing "JPY" (checked
      first), 0.1 for one containing "XAU", 0.0001 for every other. The current price is
      accepted and not used. */
  function PipToPrice(symbol: string, pips: real, currentPrice: real): (offset: real)
    ensures (exists i :: OccursAt(symbol, "JPY", i)) ==> offset == pips * 0.01
    ensures !(exists i :: OccursAt(symbol, "JPY", i)) && (exists i :: OccursAt(symbol, "XAU", i)) ==>
      offset == pips * 0.1
    ensures !(exists i :: OccursAt(symbol, "JPY", i)) && !(exists i :: OccursAt(symbol, "XAU", i)) ==>
      offset == pips * 0.0001
    ensures pips > 0.0 ==> pips * 0.0001 <= offset <= pips * 0.1
  {
    ContainsIffOccurs(symbol, "JPY");
    ContainsIffOccurs(symbol, "XAU");
    if IsJpyPair(symbol) then
      pips * 0.01
    else if Contains(symbol, "XAU") then
      pips * 0.1
    else
      pips * 0.0001
  }

  // ---------------------------------------------------------------------------------------
  // Position sizing

  datatype Sizing = Sizing(lots: real, riskAmount: real)

  /** The lot count that would risk exactly `riskPct` percent of the equity. */
  function TargetLots(equity: real, riskPct: real, slPips: real, symbol: string): real
    requires slPips != 0.0
  {
    equity * (riskPct / 100.0) / (slPips * BasePipValue(symbol))
  }

  /** Lots are the target clamped to [0.01, 100] and rounded to the nearest hundredth; the
      risk amount is what those lots put at stake over the stop-loss distance. */
  function PositionSize(equity: real, riskPct: real, slPips: real, symbol: string): (s: Sizing)
    requires slPips != 0.0
    ensures 0.01 <= s.lots <= 100.0 && WholeHundredths(s.lots)
    ensures s.riskAmount == s.lots * slPips * BasePipValue(symbol)
  {
    var riskAmount := equity * (riskPct / 100.0);
    var pipValuePerLot := PipValue(symbol, 1.0);
    var lots := riskAmount / (slPips * pipValuePerLot);
    var clamped := Max(0.01, Min(lots, 100.0));
    var n := Round(clamped * 100.0);
    assert 1 <= n <= 10000;
    var rounded := n as real / 100.0;
    assert rounded * 100.0 == n as real;
    Sizing(rounded, rounded * slPips * pipValuePerLot)
  }

  /** Within the clamp the lots are the target to the nearest hundredth; outside it they
      are the nearer bound. */
  lemma PositionSizeNearest(equity: real, riskPct: real, slPips: real, symbol: string)
    requires slPips != 0.0
    ensures var lots := PositionSize(equity, riskPct, slPips, symbol).lots;
      var target := TargetLots(equity, riskPct, slPips, symbol);
      (target <= 0.01 ==> lots == 0.01) &&
      (target >= 100.0 ==> lots == 100.0) &&
      (0.01 <= target <= 100.0 ==> target - 0.005 < lots <= target + 0.005)
  {
    var target := TargetLots(equity, riskPct, slPips, symbol);
    var clamped := Max(0.01, Min(target, 100.0));
    var n := Round(clamped * 100.0);
    if target <= 0.01 {
      assert clamped * 100.0 == 1.0;
    } else if target >= 100.0 {
      assert clamped * 100.0 == 10000.0;
    } else {
      assert clamped * 100.0 - 0.5 < n as real <= clamped * 100.0 + 0.5;
    }
  }

  // ---------------------------------------------------------------------------------------
  // Checks

  function CheckMaxConcurrentTrades(positions: seq<Position>, maxConcurrent: int): (c: Gate)
    ensures c.Failed? <==> |positions| >= maxConcurrent
    ensures c.Failed? ==> c.message == MaxConcurrentTradesReached(|positions|, maxConcurrent)
    ensures c.Passed? ==> c.warning.None?
  {
    if |positions| >= maxConcurrent then Failed(MaxConcurrentTradesReached(|positions|, maxConcurrent))
    else Passed(None)
  }

  /** At or above the limit rejects; at or above 70% of it passes with a warning. The
      balance is accepted and not used: the drawdown is measured from the day's start
      balance. */
  function CheckDailyDrawdown(balance: real, equity: real, maxDrawdownPct: real, dailyStartBalance: real): (c: Gate)
    ensures c.Failed? <==> AtLeast(DrawdownPct(dailyStartBalance, equity), maxDrawdownPct)
    ensures c.Failed? ==> c.message.DailyDrawdownLimitReached?
    ensures c.Passed? && c.warning.Some? <==>
      !AtLeast(DrawdownPct(dailyStartBalance, equity), maxDrawdownPct) &&
      AtLeast(DrawdownPct(dailyStartBalance, equity), maxDrawdownPct * 0.7)
    ensures c.Passed? && c.warning.Some? ==> c.warning.value.ApproachingDailyDrawdownLimit?
  {
    var drawdown := DrawdownPct(dailyStartBalance, equity);
    if AtLeast(drawdown, maxDrawdownPct) then
      Failed(DailyDrawdownLimitReached(drawdown, maxDrawdownPct))
    else if AtLeast(drawdown, maxDrawdownPct * 0.7) then
      Passed(Some(ApproachingDailyDrawdownLimit(drawdown, maxDrawdownPct)))
    else
      Passed(None)
  }

  /** For a positive start balance the check rejects exactly when equity has fallen to
      `start * (1 - limit / 100)` or below. */
  lemma DailyDrawdownRejectsIffEquityFallen(balance: real, equity: real, limit: real, start: real)
    requires start > 0.0
    ensures CheckDailyDrawdown(balance, equity, limit, start).Failed? <==>
      equity <= start * (1.0 - limit / 100.0)
  {
    var pct := (start - equity) / start * 100.0;
    assert pct * start == (start - equity) * 100.0;
    if pct >= limit {
      ProductNonNegative(pct - limit, start);
    } else {
      ProductNonNegative(limit - pct, start);
      assert (limit - pct) * start > 0.0;
    }
  }

  /** A spread strictly above the filter rejects; an equal spread passes. */
  function CheckSpreadFilter(currentSpread: real, maxSpreadPips: real): (c: Gate)
    ensures c.Failed? <==> currentSpread > maxSpreadPips
    ensures c.Failed? ==> c.message == SpreadTooHigh(currentSpread, maxSpreadPips)
    ensures c.Passed? ==> c.warning.None?
  {
    if currentSpread > maxSpreadPips then Failed(SpreadTooHigh(currentSpread, maxSpreadPips))
    else Passed(None)
  }

  function CheckDuplicatePosition(positions: seq<Position>, symbol: string, side: Side): (c: Gate)
    ensures c.Failed? <==> exists k :: 0 <= k < |positions| && positions[k].symbol == symbol && positions[k].side == side
    ensures c.Failed? ==> c.message == AlreadyHavePosition(side, symbol)
    ensures c.Passed? ==> c.warning.None?
  {
    if exists k :: 0 <= k < |positions| && positions[k].symbol == symbol && positions[k].side == side then
      Failed(AlreadyHavePosition(side, symbol))
    else
      Passed(None)
  }

  /** The free margin must cover the required margin plus a 50% buffer. */
  function CheckMarginAvailable(freeMargin: real, requiredMargin: real): (c: Gate)
    ensures c.Failed? <==> freeMargin < requiredMargin * 1.5
    ensures c.Failed? ==> c.message == InsufficientMargin(freeMargin, requiredMargin * 1.5)
    ensures c.Passed? ==> c.warning.None?
  {
    if freeMargin < requiredMargin * 1.5 then Failed(InsufficientMargin(freeMargin, requiredMargin * 1.5))
    else Passed(None)
  }

  /** A rough margin estimate at about 30:1 leverage. */
  function EstimatedMargin(lots: real, currentPrice: real): real
  {
    lots * currentPrice * 1000.0 / 30.0
  }

  // ---------------------------------------------------------------------------------------
  // Evaluation

  /** `signal.slPips || 30` and `signal.tpPips || 60`. */
  function StopLossPips(signal: Signal): (sl: real)
    ensures sl != 0.0
  {
    PipsOr(signal.slPips, 30.0)
  }

  function TakeProfitPips(signal: Signal): (tp: real)
    ensures tp != 0.0
  {
    PipsOr(signal.tpPips, 60.0)
  }

  function SizeFor(signal: Signal, account: AccountInfo, settings: RiskSettings): Sizing
  {
    PositionSize(account.equity, settings.defaultRiskPct, StopLossPips(signal), signal.symbol)
  }

  /** The gates of an open signal with a side, in the order they run. */
  function Gates(signal: Signal, side: Side, account: AccountInfo, positions: seq<Position>, settings: RiskSettings,
                 currentPrice: real, currentSpread: real, dailyStartBalance: real): Checks<Rejection, Warning>
  {
    Then(CheckMaxConcurrentTrades(positions, settings.maxConcurrentTrades),
    Then(CheckDailyDrawdown(account.balance, account.equity, settings.maxDailyDrawdownPct, dailyStartBalance),
    Then(CheckSpreadFilter(currentSpread, settings.spreadFilterPips),
    Then(CheckDuplicatePosition(positions, signal.symbol, side),
    Then(CheckMarginAvailable(account.freeMargin,
        EstimatedMargin(SizeFor(signal, account, settings).lots, currentPrice)), Done)))))
  }

  /** `Math.round(x * 100000) / 100000`: to the nearest 0.00001. */
  function RoundToFiveDecimals(x: real): (y: real)
    ensures x - 0.000005 < y <= x + 0.000005
  {
    Round(x * 100000.0) as real / 100000.0
  }

  /** `Math.round(x * 100) / 100`: to the nearest cent. */
  function RoundToCents(x: real): (y: real)
    ensures x - 0.005 < y <= x + 0.005
  {
    Round(x * 100.0) as real / 100.0
  }

  /** The stop-loss goes against the trade and the take-profit with it: below and above
      the price for a buy, above and below for a sell. */
  function StopPrices(side: Side, currentPrice: real, slOffset: real, tpOffset: real): (p: (real, real))
    ensures side == Buy ==> p.0 == currentPrice - slOffset && p.1 == currentPrice + tpOffset
    ensures side == Sell ==> p.0 == currentPrice + slOffset && p.1 == currentPrice - tpOffset
  {
    if side == Buy then (currentPrice - slOffset, currentPrice + tpOffset)
    else (currentPrice + slOffset, currentPrice - tpOffset)
  }

  /** The order an approved signal becomes. */
  function OrderFor(signal: Signal, side: Side, sizing: Sizing, currentPrice: real): (o: OrderRequest)
    ensures o.symbol == signal.symbol && o.side == side && o.reason == signal.reason
    ensures o.volume == sizing.lots
    ensures o.slPips == StopLossPips(signal) && o.tpPips == TakeProfitPips(signal)
    ensures sizing.riskAmount - 0.005 < o.riskAmount <= sizing.riskAmount + 0.005
    ensures var slOffset := PipToPrice(signal.symbol, StopLossPips(signal), currentPrice);
      var tpOffset := PipToPrice(signal.symbol, TakeProfitPips(signal), currentPrice);
      var sl := if side == Buy then currentPrice - slOffset else currentPrice + slOffset;
      var tp := if side == Buy then currentPrice + tpOffset else currentPrice - tpOffset;
      && sl - 0.000005 < o.slPrice <= sl + 0.000005
      && tp - 0.000005 < o.tpPrice <= tp + 0.000005
  {
    var slPips := StopLossPips(signal);
    var tpPips := TakeProfitPips(signal);
    var prices := StopPrices(side, currentPrice,
      PipToPrice(signal.symbol, slPips, currentPrice), PipToPrice(signal.symbol, tpPips, currentPrice));
    OrderRequest(signal.symbol, side, sizing.lots,
      RoundToFiveDecimals(prices.0), RoundToFiveDecimals(prices.1),
      slPips, tpPips, RoundToCents(sizing.riskAmount), signal.reason)
  }

  /** The warning a take-profit closer than the stop-loss adds. */
  function RiskRewardWarning(slPips: real, tpPips: real): (w: seq<Warning>)
    requires slPips != 0.0
    ensures |w| <= 1
    ensures |w| == 1 <==> tpPips < slPips
  {
    if tpPips < slPips then [RiskRewardBelowOne(tpPips / slPips)] else []
  }

  /** The result for an open signal with a side, from the outcome of its gates. */
  function Verdict(outcome: Outcome<Rejection, Warning>, signal: Signal, side: Side, sizing: Sizing,
                   currentPrice: real): (r: RiskCheckResult)
    ensures r.approved <==> outcome.Cleared?
  {
    match outcome
    case Rejected(message, warnings) =>
      RiskCheckResult(false, None, Some(message), warnings)
    case Cleared(warnings) =>
      RiskCheckResult(true, Some(OrderFor(signal, side, sizing, currentPrice)), None,
        warnings + RiskRewardWarning(StopLossPips(signal), TakeProfitPips(signal)))
  }

  /** The decision for one signal. */
  function Evaluation(signal: Signal, account: AccountInfo, positions: seq<Position>, settings: RiskSettings,
                      currentPrice: real, currentSpread: real, dailyStartBalance: real): (r: RiskCheckResult)
    ensures r.approved <==> r.order.Some?
    ensures r.approved <==> r.rejectionReason.None?
    ensures signal.kind != OpenSignal || signal.side.None? ==>
      !r.approved && r.rejectionReason == Some(NotAnOpenOrder) && r.warnings == []
  {
    if signal.kind != OpenSignal || signal.side.None? then
      RiskCheckResult(false, None, Some(NotAnOpenOrder), [])
    else
      var side := signal.side.value;
      Verdict(Chain(Gates(signal, side, account, positions, settings, currentPrice, currentSpread, dailyStartBalance)),
        signal, side, SizeFor(signal, account, settings), currentPrice)
  }

  // ---------------------------------------------------------------------------------------
  // Properties of the evaluation

  /** The first failing gate decides: its message is the reason and the warnings are those
      raised before it. */
  lemma FirstFailingGateDecides(signal: Signal, account: AccountInfo, positions: seq<Position>, settings: RiskSettings,
                                currentPrice: real, currentSpread: real, dailyStartBalance: real, j: nat)
    requires signal.kind == OpenSignal && signal.side.Some?
    requires var gates := Gates(signal, signal.side.value, account, positions, settings, currentPrice, currentSpread, dailyStartBalance);
      j < gates.Length() && gates.At(j).Failed? && gates.PassedBefore(j)
    ensures var gates := Gates(signal, signal.side.value, account, positions, settings, currentPrice, currentSpread, dailyStartBalance);
      Evaluation(signal, account, positions, settings, currentPrice, currentSpread, dailyStartBalance)
        == RiskCheckResult(false, None, Some(gates.At(j).message), gates.WarningsBefore(j))
  {
    ChainFirstFailure(Gates(signal, signal.side.value, account, positions, settings, currentPrice, currentSpread, dailyStartBalance), j);
  }

  /** An open signal with a side is approved exactly when it meets every limit, read
      directly off the inputs. The order then carries the computed size, the stop-loss and
      take-profit distances with their defaults, and the warnings are the daily drawdown
      warning followed by the risk/reward warning, each when its condition holds. */
  lemma ApprovalConditions(signal: Signal, account: AccountInfo, positions: seq<Position>, settings: RiskSettings,
                           currentPrice: real, currentSpread: real, dailyStartBalance: real)
    requires signal.kind == OpenSignal && signal.side.Some?
    ensures var r := Evaluation(signal, account, positions, settings, currentPrice, currentSpread, dailyStartBalance);
      var sizing := SizeFor(signal, account, settings);
      r.approved <==>
        |positions| < settings.maxConcurrentTrades &&
        !AtLeast(DrawdownPct(dailyStartBalance, account.equity), settings.maxDailyDrawdownPct) &&
        currentSpread <= settings.spreadFilterPips &&
        (forall k :: 0 <= k < |positions| ==>
          !(positions[k].symbol == signal.symbol && positions[k].side == signal.side.value)) &&
        account.freeMargin >= EstimatedMargin(sizing.lots, currentPrice) * 1.5
    ensures var r := Evaluation(signal, account, positions, settings, currentPrice, currentSpread, dailyStartBalance);
      var sizing := SizeFor(signal, account, settings);
      var daily := CheckDailyDrawdown(account.balance, account.equity, settings.maxDailyDrawdownPct, dailyStartBalance);
      r.approved ==>
        r.order.value.side == signal.side.value && r.order.value.symbol == signal.symbol &&
        r.order.value.volume == sizing.lots &&
        0.01 <= r.order.value.volume <= 100.0 &&
        r.order.value.slPips == PipsOr(signal.slPips, 30.0) &&
        r.order.value.tpPips == PipsOr(signal.tpPips, 60.0) &&
        r.warnings == WarningOf(daily) + RiskRewardWarning(StopLossPips(signal), TakeProfitPips(signal))
  {
    var gates := Gates(signal, signal.side.value, account, positions, settings, currentPrice, currentSpread, dailyStartBalance);
    var w: seq<Warning> := [];
    ChainWalkEnds(gates, w);
    var rest := gates;
    ChainStep(gates, rest, w);
    if rest.check.Failed? {
      return;
    }
    w := w + rest.check.warning.ToSeq();
    rest := rest.rest;
    ChainStep(gates, rest, w);
    if rest.check.Failed? {
      return;
    }
    w := w + rest.check.warning.ToSeq();
    rest := rest.rest;
    ChainStep(gates, rest, w);
    if rest.check.Failed? {
      return;
    }
    w := w + rest.check.warning.ToSeq();
    rest := rest.rest;
    ChainStep(gates, rest, w);
    if rest.check.Failed? {
      return;
    }
    w := w + rest.check.warning.ToSeq();
    rest := rest.rest;
    ChainStep(gates, rest, w);
    if rest.check.Failed? {
      return;
    }
    w := w + rest.check.warning.ToSeq();
    rest := rest.rest;
    ChainWalkEnds(gates, w);
  }

  /** What each rejection reason says about the inputs: the condition of the one check
      that produces it. */
  predicate Justifies(reason: Rejection, signal: Signal, account: AccountInfo, positions: seq<Position>,
                      settings: RiskSettings, currentPrice: real, currentSpread: real, dailyStartBalance: real)
  {
    match reason
    case NotAnOpenOrder => signal.kind != OpenSignal || signal.side.None?
    case MaxConcurrentTradesReached(_, _) => |positions| >= settings.maxConcurrentTrades
    case DailyDrawdownLimitReached(_, _) =>
      AtLeast(DrawdownPct(dailyStartBalance, account.equity), settings.maxDailyDrawdownPct)
    case SpreadTooHigh(_, _) => currentSpread > settings.spreadFilterPips
    case AlreadyHavePosition(side, _) =>
      signal.side == Some(side) &&
      exists k :: 0 <= k < |positions| && positions[k].symbol == signal.symbol && positions[k].side == side
    case InsufficientMargin(_, _) =>
      account.freeMargin < EstimatedMargin(SizeFor(signal, account, settings).lots, currentPrice) * 1.5
  }

  /** Every rejection is justified by its reason. */
  lemma RejectionIsJustified(signal: Signal, account: AccountInfo, positions: seq<Position>, settings: RiskSettings,
                             currentPrice: real, currentSpread: real, dailyStartBalance: real)
    ensures var r := Evaluation(signal, account, positions, settings, currentPrice, currentSpread, dailyStartBalance);
      !r.approved ==>
        Justifies(r.rejectionReason.value, signal, account, positions, settings, currentPrice, currentSpread, dailyStartBalance)
  {
    if signal.kind != OpenSignal || signal.side.None? {
      return;
    }
    var gates := Gates(signal, signal.side.value, account, positions, settings, currentPrice, currentSpread, dailyStartBalance);
    var w: seq<Warning> := [];
    ChainWalkEnds(gates, w);
    var rest := gates;
    ChainStep(gates, rest, w);
    if rest.check.Failed? {
      return;
    }
    w := w + rest.check.warning.ToSeq();
    rest := rest.rest;
    ChainStep(gates, rest, w);
    if rest.check.Failed? {
      return;
    }
    w := w + rest.check.warning.ToSeq();
    rest := rest.rest;
    ChainStep(gates, rest, w);
    if rest.check.Failed? {
      return;
    }
    w := w + rest.check.warning.ToSeq();
    rest := rest.rest;
    ChainStep(gates, rest, w);
    if rest.check.Failed? {
      return;
    }
    w := w + rest.check.warning.ToSeq();
    rest := rest.rest;
    ChainStep(gates, rest, w);
    if rest.check.Failed? {
      return;
    }
    w := w + rest.check.warning.ToSeq();
    rest := rest.rest;
    ChainWalkEnds(gates, w);
  }

  /** The stop-loss and take-profit of an order bracket the current price on the correct
      sides, as long as each distance is more than half a tenth of a pip (rounding to five
      decimals could otherwise land on the price itself); the default distances always
      qualify. */
  lemma OrderBracketsPrice(signal: Signal, side: Side, sizing: Sizing, currentPrice: real)
    requires StopLossPips(signal) > 0.05 && TakeProfitPips(signal) > 0.05
    ensures var o := OrderFor(signal, side, sizing, currentPrice);
      (side == Buy ==> o.slPrice < currentPrice < o.tpPrice) &&
      (side == Sell ==> o.tpPrice < currentPrice < o.slPrice)
  {
    var slOffset := PipToPrice(signal.symbol, StopLossPips(signal), currentPrice);
    var tpOffset := PipToPrice(signal.symbol, TakeProfitPips(signal), currentPrice);
    assert slOffset > 0.000005 && tpOffset > 0.000005;
  }

  /** `evaluateRisk`: runs the checks one after another, returning at the first failure,
      and builds the order request of an approved signal. */
  method EvaluateRisk(signal: Signal, account: AccountInfo, positions: seq<Position>, settings: RiskSettings,
                      currentPrice: real, currentSpread: real, dailyStartBalance: real)
    returns (result: RiskCheckResult)
    ensures result == Evaluation(signal, account, positions, settings, currentPrice, currentSpread, dailyStartBalance)
  {
    var warnings: seq<Warning> := [];
    if signal.kind != OpenSignal || signal.side.None? {
      return RiskCheckResult(false, None, Some(NotAnOpenOrder), warnings);
    }
    var side := signal.side.value;
    ghost var gates := Gates(signal, side, account, positions, settings, currentPrice, currentSpread, dailyStartBalance);
    ChainWalkEnds(gates, warnings);
    ghost var rest := gates;

    var concurrentCheck := CheckMaxConcurrentTrades(positions, settings.maxConcurrentTrades);
    ChainStep(gates, rest, warnings);
    rest := rest.rest;
    if concurrentCheck.Failed? {
      return RiskCheckResult(false, None, Some(concurrentCheck.message), warnings);
    }

    var drawdownCheck := CheckDailyDrawdown(account.balance, account.equity, settings.maxDailyDrawdownPct, dailyStartBalance);
    ChainStep(gates, rest, warnings);
    rest := rest.rest;
    if drawdownCheck.Failed? {
      return RiskCheckResult(false, None, Some(drawdownCheck.message), warnings);
    }
    warnings := warnings + drawdownCheck.warning.ToSeq();

    var spreadCheck := CheckSpreadFilter(currentSpread, settings.spreadFilterPips);
    ChainStep(gates, rest, warnings);
    rest := rest.rest;
    if spreadCheck.Failed? {
      return RiskCheckResult(false, None, Some(spreadCheck.message), warnings);
    }

    var duplicateCheck := CheckDuplicatePosition(positions, signal.symbol, side);
    ChainStep(gates, rest, warnings);
    rest := rest.rest;
    if duplicateCheck.Failed? {
      return RiskCheckResult(false, None, Some(duplicateCheck.message), warnings);
    }

    var slPips := PipsOr(signal.slPips, 30.0);
    var tpPips := PipsOr(signal.tpPips, 60.0);
    var sizing := PositionSize(account.equity, settings.defaultRiskPct, slPips, signal.symbol);

    var estimatedMargin := EstimatedMargin(sizing.lots, currentPrice);
    var marginCheck := CheckMarginAvailable(account.freeMargin, estimatedMargin);
    ChainStep(gates, rest, warnings);
    rest := rest.rest;
    if marginCheck.Failed? {
      return RiskCheckResult(false, None, Some(marginCheck.message), warnings);
    }
    ChainWalkEnds(gates, warnings);

    var priceOffset := PipToPrice(signal.symbol, slPips, currentPrice);
    var tpOffset := PipToPrice(signal.symbol, tpPips, currentPrice);
    var slPrice: real;
    var tpPrice: real;
    if side == Buy {
      slPrice := currentPrice - priceOffset;
      tpPrice := currentPrice + tpOffset;
    } else {
      slPrice := currentPrice + priceOffset;
      tpPrice := currentPrice - tpOffset;
    }

    if tpPips < slPips {
      warnings := warnings + [RiskRewardBelowOne(tpPips / slPips)];
    }

    var order := OrderRequest(signal.symbol, side, sizing.lots,
      RoundToFiveDecimals(slPrice), RoundToFiveDecimals(tpPrice),
      slPips, tpPips, RoundToCents(sizing.riskAmount), signal.reason);
    result := RiskCheckResult(true, Some(order), None, warnings);
  }
}
