/** The three strategies of the backtesting edge function and the router between them. A
    strategy looks at the candles up to the current bar and at the simulated position, and
    answers with an action. Indicator values are read from the index-wise definitions in
    module Indicators, which the indicator loops of module BacktestIndicators produce. */
module BacktestStrategies {
  import opened Wrappers
  import opened Numeric
  import opened Market
  import opened Indicators

  /** The numeric strategy parameters. Each is `Number(params.x) || default`: 0 stands for
      a parameter that is absent, not a number, or zero. */
  datatype StrategyParams = StrategyParams(
    fastPeriod: nat,
    slowPeriod: nat,
    atrMultiplier: real,
    rsiPeriod: nat,
    oversold: real,
    overbought: real,
    bbPeriod: nat,
    bbStdDev: real,
    atrPeriod: nat)

  /** The one position the simulator may hold. */
  datatype SimPosition = SimPosition(side: Side, entryPrice: real, entryTime: int, volume: real, sl: real, tp: real)

  /** `{ action: null }`, `{ action: 'buy' | 'sell', sl, tp }` or `{ action: 'close' }`. */
  datatype Action = NoAction | Enter(side: Side, sl: real, tp: real) | Exit

  /** `atr[i] || 0.001`: an undefined or zero ATR falls back to 0.001. */
  function AtrOr(atr: Option<real>): (v: real)
    ensures atr.Some? && atr.value != 0.0 ==> v == atr.value
    ensures atr.None? || atr.value == 0.0 ==> v == 0.001
  {
    if atr.Some? && atr.value != 0.0 then atr.value else 0.001
  }

  /** An entry with its stop `atr * multiplier` against the trade and its target twice
      that distance with it. */
  function AtrEntry(side: Side, price: real, atr: real, multiplier: real): (a: Action)
    ensures a.Enter? && a.side == side
    ensures atr > 0.0 && multiplier > 0.0 ==>
      (side == Buy ==> a.sl < price < a.tp) && (side == Sell ==> a.tp < price < a.sl)
  {
    var distance := atr * multiplier;
    assert atr > 0.0 && multiplier > 0.0 ==> distance > 0.0;
    match side
    case Buy => Enter(Buy, price - distance, price + distance * 2.0)
    case Sell => Enter(Sell, price + distance, price - distance * 2.0)
  }

  /** EMA crossover: enter on a cross when flat, with stops at 1 and 2 ATR multiples;
      close a position when the averages stand against it. */
  function MaCross(candles: seq<Candle>, params: StrategyParams, position: Option<SimPosition>): (a: Action)
    ensures |candles| < PeriodOr(params.slowPeriod, 20) + 2 ==> a == NoAction
    ensures position.Some? ==> !a.Enter?
    ensures position.None? ==> !a.Exit?
    ensures |candles| >= PeriodOr(params.slowPeriod, 20) + 2 ==>
      var i := |candles| - 1;
      var closes := Closes(candles);
      var fastNow := BacktestEmaAt(closes, PeriodOr(params.fastPeriod, 10), i);
      var fastPrev := BacktestEmaAt(closes, PeriodOr(params.fastPeriod, 10), i - 1);
      var slowNow := BacktestEmaAt(closes, PeriodOr(params.slowPeriod, 20), i);
      var slowPrev := BacktestEmaAt(closes, PeriodOr(params.slowPeriod, 20), i - 1);
      && (position.None? ==>
        && (a.Enter? && a.side == Buy <==> fastPrev <= slowPrev && fastNow > slowNow)
        && (a.Enter? && a.side == Sell <==> fastPrev >= slowPrev && fastNow < slowNow))
      && (position.Some? ==>
        (a == Exit <==> (position.value.side == Buy && fastNow < slowNow) || (position.value.side == Sell && fastNow > slowNow)))
      && (a.Enter? ==>
        a == AtrEntry(a.side, candles[i].close, AtrOr(BacktestAtrAt(candles, 14, i)), OrElse(params.atrMultiplier, 1.5)))
  {
    var fastPeriod := PeriodOr(params.fastPeriod, 10);
    var slowPeriod := PeriodOr(params.slowPeriod, 20);
    var multiplier := OrElse(params.atrMultiplier, 1.5);
    var closes := Closes(candles);
    if |candles| < slowPeriod + 2 then NoAction
    else
      var i := |candles| - 1;
      var fastNow := BacktestEmaAt(closes, fastPeriod, i);
      var fastPrev := BacktestEmaAt(closes, fastPeriod, i - 1);
      var slowNow := BacktestEmaAt(closes, slowPeriod, i);
      var slowPrev := BacktestEmaAt(closes, slowPeriod, i - 1);
      var atr := AtrOr(BacktestAtrAt(candles, 14, i));
      var price := candles[i].close;
      if fastPrev <= slowPrev && fastNow > slowNow && position.None? then
        AtrEntry(Buy, price, atr, multiplier)
      else if fastPrev >= slowPrev && fastNow < slowNow && position.None? then
        AtrEntry(Sell, price, atr, multiplier)
      else if position.Some? && position.value.side == Buy && fastNow < slowNow then Exit
      else if position.Some? && position.value.side == Sell && fastNow > slowNow then Exit
      else NoAction
  }

  /** RSI crossing back over its oversold or overbought level: enter when flat, and close a
      long at overbought or a short at oversold. */
  function RsiBands(candles: seq<Candle>, params: StrategyParams, position: Option<SimPosition>): (a: Action)
    ensures |candles| < PeriodOr(params.rsiPeriod, 14) + 2 ==> a == NoAction
    ensures position.Some? ==> !a.Enter?
    ensures position.None? ==> !a.Exit?
    ensures |candles| >= PeriodOr(params.rsiPeriod, 14) + 2 ==>
      var i := |candles| - 1;
      var closes := Closes(candles);
      var oversold := OrElse(params.oversold, 30.0);
      var overbought := OrElse(params.overbought, 70.0);
      var rsiNow := RsiAt(closes, PeriodOr(params.rsiPeriod, 14), i).value;
      var rsiPrev := RsiAt(closes, PeriodOr(params.rsiPeriod, 14), i - 1).value;
      && (position.None? ==>
        && (a.Enter? && a.side == Buy <==> rsiPrev < oversold && rsiNow >= oversold)
        && (a.Enter? && a.side == Sell <==>
              !(rsiPrev < oversold && rsiNow >= oversold) && rsiPrev > overbought && rsiNow <= overbought))
      && (position.Some? ==>
        (a == Exit <==> (position.value.side == Buy && rsiNow >= overbought) || (position.value.side == Sell && rsiNow <= oversold)))
      && (a.Enter? ==>
        a == AtrEntry(a.side, candles[i].close, AtrOr(BacktestAtrAt(candles, 14, i)), OrElse(params.atrMultiplier, 1.5)))
  {
    var rsiPeriod := PeriodOr(params.rsiPeriod, 14);
    var oversold := OrElse(params.oversold, 30.0);
    var overbought := OrElse(params.overbought, 70.0);
    var multiplier := OrElse(params.atrMultiplier, 1.5);
    var closes := Closes(candles);
    if |candles| < rsiPeriod + 2 then NoAction
    else
      var i := |candles| - 1;
      var rsiNow := RsiAt(closes, rsiPeriod, i).value;
      var rsiPrev := RsiAt(closes, rsiPeriod, i - 1).value;
      var atr := AtrOr(BacktestAtrAt(candles, 14, i));
      var price := candles[i].close;
      if rsiPrev < oversold && rsiNow >= oversold && position.None? then
        AtrEntry(Buy, price, atr, multiplier)
      else if rsiPrev > overbought && rsiNow <= overbought && position.None? then
        AtrEntry(Sell, price, atr, multiplier)
      else if position.Some? && position.value.side == Buy && rsiNow >= overbought then Exit
      else if position.Some? && position.value.side == Sell && rsiNow <= oversold then Exit
      else NoAction
  }

  /** Bollinger bounce: enter when flat and the price comes back inside a band it touched
      on the previous bar, with the target at the middle band. It never closes. */
  function Scalper(candles: seq<Candle>, params: StrategyParams, position: Option<SimPosition>, sqrt: real -> real): (a: Action)
    ensures |candles| < PeriodOr(params.bbPeriod, 20) + 2 ==> a == NoAction
    ensures position.Some? ==> a == NoAction
    ensures !a.Exit?
    ensures position.None? && |candles| >= PeriodOr(params.bbPeriod, 20) + 2 ==>
      var i := |candles| - 1;
      var closes := Closes(candles);
      var period := PeriodOr(params.bbPeriod, 20);
      var k := OrElse(params.bbStdDev, 2.0);
      var touchedLower := candles[i - 1].close <= LowerAt(closes, period, k, sqrt, i - 1).value
        && candles[i].close > LowerAt(closes, period, k, sqrt, i).value;
      var touchedUpper := candles[i - 1].close >= UpperAt(closes, period, k, sqrt, i - 1).value
        && candles[i].close < UpperAt(closes, period, k, sqrt, i).value;
      var atr := AtrOr(BacktestAtrAt(candles, PeriodOr(params.atrPeriod, 14), i));
      && (a.Enter? && a.side == Buy <==> touchedLower)
      && (a.Enter? && a.side == Sell <==> !touchedLower && touchedUpper)
      && (a.Enter? ==> a.tp == SmaAt(closes, period, i).value)
      && (a.Enter? && a.side == Buy ==> a.sl == candles[i].close - atr * 1.5)
      && (a.Enter? && a.side == Sell ==> a.sl == candles[i].close + atr * 1.5)
  {
    var bbPeriod := PeriodOr(params.bbPeriod, 20);
    var bbStdDev := OrElse(params.bbStdDev, 2.0);
    var atrPeriod := PeriodOr(params.atrPeriod, 14);
    var closes := Closes(candles);
    if |candles| < bbPeriod + 2 then NoAction
    else
      var i := |candles| - 1;
      var price := candles[i].close;
      var prevPrice := candles[i - 1].close;
      var upper := UpperAt(closes, bbPeriod, bbStdDev, sqrt, i).value;
      var lower := LowerAt(closes, bbPeriod, bbStdDev, sqrt, i).value;
      var prevLower := LowerAt(closes, bbPeriod, bbStdDev, sqrt, i - 1).value;
      var prevUpper := UpperAt(closes, bbPeriod, bbStdDev, sqrt, i - 1).value;
      var middle := SmaAt(closes, bbPeriod, i).value;
      var atr := AtrOr(BacktestAtrAt(candles, atrPeriod, i));
      if prevPrice <= prevLower && price > lower && position.None? then
        Enter(Buy, price - atr * 1.5, middle)
      else if prevPrice >= prevUpper && price < upper && position.None? then
        Enter(Sell, price + atr * 1.5, middle)
      else NoAction
  }

  /** Routes a strategy id to its strategy; an unknown id runs the MA crossover. */
  function ExecuteStrategy(strategyId: string, candles: seq<Candle>, params: StrategyParams,
                           position: Option<SimPosition>, sqrt: real -> real): (a: Action)
    ensures strategyId != "rsi-bands" && strategyId != "RSI Bands" && strategyId != "scalper" && strategyId != "Scalper"
      ==> a == MaCross(candles, params, position)
    ensures strategyId == "rsi-bands" || strategyId == "RSI Bands" ==> a == RsiBands(candles, params, position)
    ensures strategyId == "scalper" || strategyId == "Scalper" ==> a == Scalper(candles, params, position, sqrt)
  {
    match strategyId
    case "ma-cross" => MaCross(candles, params, position)
    case "MA Cross" => MaCross(candles, params, position)
    case "rsi-bands" => RsiBands(candles, params, position)
    case "RSI Bands" => RsiBands(candles, params, position)
    case "scalper" => Scalper(candles, params, position, sqrt)
    case "Scalper" => Scalper(candles, params, position, sqrt)
    case _ => MaCross(candles, params, position)
  }

  /** Whatever the strategy, an entry is only ever proposed when no position is open, and
      a close only when one is. */
  lemma RoutedActionRespectsPosition(strategyId: string, candles: seq<Candle>, params: StrategyParams,
                                     position: Option<SimPosition>, sqrt: real -> real)
    ensures var a := ExecuteStrategy(strategyId, candles, params, position, sqrt);
      (position.Some? ==> !a.Enter?) && (position.None? ==> !a.Exit?)
  {
  }

  /** On well-formed bars the ATR fallback is positive. */
  lemma AtrOrPositive(candles: seq<Candle>, period: nat, i: nat)
    requires period >= 1 && i < |candles| && WellFormed(candles)
    ensures AtrOr(BacktestAtrAt(candles, period, i)) > 0.0
  {
    AtrNonNegative(candles, period, i);
  }

  /** With a non-negative multiplier (0 selects the default) on well-formed bars, the
      stops of an MA-crossover entry bracket the close: below and above for a buy, above
      and below for a sell. */
  lemma MaCrossStopsBracketClose(candles: seq<Candle>, params: StrategyParams, position: Option<SimPosition>)
    requires WellFormed(candles) && params.atrMultiplier >= 0.0
    ensures var a := MaCross(candles, params, position);
      a.Enter? ==>
        var price := candles[|candles| - 1].close;
        (a.side == Buy ==> a.sl < price < a.tp) && (a.side == Sell ==> a.tp < price < a.sl)
  {
    if |candles| >= PeriodOr(params.slowPeriod, 20) + 2 {
      AtrOrPositive(candles, 14, |candles| - 1);
    }
  }

  /** The same for an RSI-bands entry. */
  lemma RsiBandsStopsBracketClose(candles: seq<Candle>, params: StrategyParams, position: Option<SimPosition>)
    requires WellFormed(candles) && params.atrMultiplier >= 0.0
    ensures var a := RsiBands(candles, params, position);
      a.Enter? ==>
        var price := candles[|candles| - 1].close;
        (a.side == Buy ==> a.sl < price < a.tp) && (a.side == Sell ==> a.tp < price < a.sl)
  {
    if |candles| >= PeriodOr(params.rsiPeriod, 14) + 2 {
      AtrOrPositive(candles, 14, |candles| - 1);
    }
  }

  /** A scalper entry's stop is on the losing side of the close; its target is the middle
      band, which may lie on either side. */
  lemma ScalperStopAgainstTrade(candles: seq<Candle>, params: StrategyParams, position: Option<SimPosition>, sqrt: real -> real)
    requires WellFormed(candles)
    ensures var a := Scalper(candles, params, position, sqrt);
      a.Enter? ==>
        var price := candles[|candles| - 1].close;
        (a.side == Buy ==> a.sl < price) && (a.side == Sell ==> price < a.sl)
  {
    if |candles| >= PeriodOr(params.bbPeriod, 20) + 2 {
      AtrOrPositive(candles, PeriodOr(params.atrPeriod, 14), |candles| - 1);
    }
  }
}
