/** The strategy-engine edge function: three strategies that turn the latest candles into
    an opening signal, the router that picks one by name, and the handler loop that
    evaluates every configured strategy for the requested symbol and timeframe. Indicator
    values are read from the index-wise definitions in module Indicators, which the loops
    of module StrategyIndicators produce. `Date.now()` is the parameter `now`. */
module StrategyEngine {
  import opened Wrappers
  import opened Numeric
  import opened Market
  import opened Indicators

  /** The numeric strategy parameters. Each is `Number(params.x) || default`: 0 stands for
      a parameter that is absent, not a number, or zero. */
  datatype EngineParams = EngineParams(
    fast: nat,
    slow: nat,
    period: nat,
    overbought: real,
    oversold: real,
    atrPeriod: nat,
    multiplier: real)

  /** A configured strategy as the request lists it. */
  datatype StrategyConfig = StrategyConfig(
    id: string,
    name: string,
    symbol: string,
    timeframe: string,
    enabled: bool,
    params: EngineParams)

  /** An opening signal with the given confidence and stop and target distances. */
  predicate OpensWith(s: Signal, confidence: real, slPips: real, tpPips: real)
  {
    s.kind == OpenSignal && s.side.Some? && s.confidence == confidence
    && s.slPips == Some(slPips) && s.tpPips == Some(tpPips)
  }

  /** What every signal of the engine looks like: it opens, has a side and its confidence
      is a probability. */
  predicate Opening(s: Signal)
  {
    s.kind == OpenSignal && s.side.Some? && 0.0 <= s.confidence <= 1.0
  }

  /** `candles[0].symbol || ''`: the symbol a strategy stamps on its signal. */
  function FirstSymbol(candles: seq<Candle>): string
  {
    if |candles| == 0 then "" else candles[0].symbol
  }

  // ---------------------------------------------------------------- MA crossover

  /** The fast EMA crossed above the slow one between the last two bars. */
  predicate CrossedAbove(closes: seq<real>, fast: nat, slow: nat, i: nat)
    requires fast >= 1 && slow >= 1 && 1 <= i < |closes|
  {
    EmaAt(closes, fast, i - 1) <= EmaAt(closes, slow, i - 1) && EmaAt(closes, fast, i) > EmaAt(closes, slow, i)
  }

  /** The fast EMA crossed below the slow one between the last two bars. */
  predicate CrossedBelow(closes: seq<real>, fast: nat, slow: nat, i: nat)
    requires fast >= 1 && slow >= 1 && 1 <= i < |closes|
  {
    EmaAt(closes, fast, i - 1) >= EmaAt(closes, slow, i - 1) && EmaAt(closes, fast, i) < EmaAt(closes, slow, i)
  }

  /** EMA crossover, fast 9 and slow 21 by default: a buy on a cross above, a sell on a
      cross below, 30 pips of stop, 60 of target, confidence 0.7. */
  function MaCross(candles: seq<Candle>, params: EngineParams, now: int): (r: Option<Signal>)
    ensures |candles| < PeriodOr(params.slow, 21) + 2 ==> r.None?
    ensures r.Some? ==> (OpensWith(r.value, 0.7, 30.0, 60.0)
      && r.value.symbol == FirstSymbol(candles) && r.value.timestamp == now)
    ensures |candles| >= PeriodOr(params.slow, 21) + 2 ==>
      var closes, fast, slow, i := Closes(candles), PeriodOr(params.fast, 9), PeriodOr(params.slow, 21), |candles| - 1;
      && (r.Some? && r.value.side == Some(Buy) <==> CrossedAbove(closes, fast, slow, i))
      && (r.Some? && r.value.side == Some(Sell) <==> CrossedBelow(closes, fast, slow, i))
  {
    var fast := PeriodOr(params.fast, 9);
    var slow := PeriodOr(params.slow, 21);
    if |candles| < slow + 2 then None
    else
      var closes := Closes(candles);
      var i := |candles| - 1;
      var fastNow := EmaAt(closes, fast, i);
      var slowNow := EmaAt(closes, slow, i);
      var fastPrev := EmaAt(closes, fast, i - 1);
      var slowPrev := EmaAt(closes, slow, i - 1);
      if fastPrev <= slowPrev && fastNow > slowNow then
        Some(Signal(OpenSignal, Some(Buy), candles[0].symbol, MaCrossUp(fast, slow), 0.7, Some(30.0), Some(60.0), now))
      else if fastPrev >= slowPrev && fastNow < slowNow then
        Some(Signal(OpenSignal, Some(Sell), candles[0].symbol, MaCrossDown(fast, slow), 0.7, Some(30.0), Some(60.0), now))
      else None
  }

  /** A market whose closes never move gives no crossover, whatever the periods. */
  lemma MaCrossQuietOnFlatMarket(candles: seq<Candle>, params: EngineParams, now: int, c: real)
    requires forall k :: 0 <= k < |candles| ==> candles[k].close == c
    ensures MaCross(candles, params, now).None?
  {
    var fast := PeriodOr(params.fast, 9);
    var slow := PeriodOr(params.slow, 21);
    if |candles| >= slow + 2 {
      var closes := Closes(candles);
      var i := |candles| - 1;
      EmaOfConstant(closes, fast, c, i);
      EmaOfConstant(closes, slow, c, i);
    }
  }

  // ---------------------------------------------------------------- RSI bands

  /** The side an RSI move calls for: a buy when it rose from below `oversold` to
      `oversold` or above, checked first; a sell when it fell from above `overbought` to
      `overbought` or below. */
  function RsiCross(rsiPrev: real, rsiNow: real, oversold: real, overbought: real): (side: Option<Side>)
    ensures side == Some(Buy) <==> rsiPrev < oversold <= rsiNow
    ensures side == Some(Sell) <==> !(rsiPrev < oversold <= rsiNow) && rsiPrev > overbought >= rsiNow
  {
    if rsiPrev < oversold && rsiNow >= oversold then Some(Buy)
    else if rsiPrev > overbought && rsiNow <= overbought then Some(Sell)
    else None
  }

  /** RSI leaving the oversold zone (buy, checked first) or the overbought zone (sell),
      period 14 and levels 30 and 70 by default: 25 pips of stop, 50 of target, confidence
      0.65. Which side it takes is stated by RsiBandsSides. */
  function RsiBands(candles: seq<Candle>, params: EngineParams, now: int): (r: Option<Signal>)
    ensures |candles| < PeriodOr(params.period, 14) + 2 ==> r.None?
    ensures r.Some? ==> (OpensWith(r.value, 0.65, 25.0, 50.0)
      && r.value.symbol == FirstSymbol(candles) && r.value.timestamp == now)
    ensures |candles| >= PeriodOr(params.period, 14) + 2 ==>
      var closes, period, i := Closes(candles), PeriodOr(params.period, 14), |candles| - 1;
      var side := RsiCross(RsiAt(closes, period, i - 1).value, RsiAt(closes, period, i).value,
                           OrElse(params.oversold, 30.0), OrElse(params.overbought, 70.0));
      (r.Some? <==> side.Some?) && (r.Some? ==> r.value.side == side)
  {
    var period := PeriodOr(params.period, 14);
    var overbought := OrElse(params.overbought, 70.0);
    var oversold := OrElse(params.oversold, 30.0);
    if |candles| < period + 2 then None
    else
      var closes := Closes(candles);
      var i := |candles| - 1;
      // Both RSI values are defined from index `period` on, so the source's NaN test
      // never fires.
      var rsiNow := RsiAt(closes, period, i).value;
      var rsiPrev := RsiAt(closes, period, i - 1).value;
      match RsiCross(rsiPrev, rsiNow, oversold, overbought)
      case Some(Buy) =>
        Some(Signal(OpenSignal, Some(Buy), candles[0].symbol, RsiLeftOversold(period, oversold), 0.65, Some(25.0), Some(50.0), now))
      case Some(Sell) =>
        Some(Signal(OpenSignal, Some(Sell), candles[0].symbol, RsiLeftOverbought(period, overbought), 0.65, Some(25.0), Some(50.0), now))
      case None => None
  }

  /** On closes that never fall over the last `period + 1` bars the RSI stays at 100, so
      with levels no higher than 100 the strategy gives no signal. */
  lemma RsiBandsQuietOnRisingMarket(candles: seq<Candle>, params: EngineParams, now: int)
    requires OrElse(params.oversold, 30.0) <= 100.0 && OrElse(params.overbought, 70.0) <= 100.0
    requires forall k :: 0 < k < |candles| ==> candles[k - 1].close <= candles[k].close
    ensures RsiBands(candles, params, now).None?
  {
    var period := PeriodOr(params.period, 14);
    if |candles| >= period + 2 {
      var closes := Closes(candles);
      var i := |candles| - 1;
      assert forall k :: 0 < k < |closes| ==> closes[k - 1] <= closes[k] by {
        forall k | 0 < k < |closes| ensures closes[k - 1] <= closes[k] {
          assert closes[k - 1] == candles[k - 1].close && closes[k] == candles[k].close;
        }
      }
      RsiOfRisingWindow(closes, period, i);
      RsiOfRisingWindow(closes, period, i - 1);
    }
  }

  // ---------------------------------------------------------------- Bollinger scalper

  /** `Math.max(Math.round(distance * 10000), floor)`: a distance in price as whole pips,
      at least `floor`. */
  function PipsAtLeast(distance: real, floor: real): (pips: real)
    ensures pips >= floor
    ensures pips == floor || pips == Round(distance * 10000.0) as real
  {
    Max(Round(distance * 10000.0) as real, floor)
  }

  /** `currentATR * multiplier`: the scalper's stop distance in price. */
  function StopDistance(atr: real, multiplier: real): real
  {
    atr * multiplier
  }

  /** Bollinger band touch (20 bars, 2 deviations) with ATR-sized stops, ATR period 14 and
      multiplier 1.5 by default: a buy at or below the lower band, checked first, a sell at
      or above the upper band; stop at least 10 pips, target at least 20, confidence 0.6.
      There is no signal while the ATR or the bands are still undefined. */
  function Scalper(candles: seq<Candle>, params: EngineParams, sqrt: real -> real, now: int): (r: Option<Signal>)
    ensures |candles| < PeriodOr(params.atrPeriod, 14) + 5 || |candles| < 20 ==> r.None?
    ensures r.Some? ==> (Opening(r.value) && r.value.confidence == 0.6
      && r.value.slPips.Some? && r.value.slPips.value >= 10.0
      && r.value.tpPips.Some? && r.value.tpPips.value >= 20.0
      && r.value.symbol == FirstSymbol(candles) && r.value.timestamp == now)
    ensures r.Some? ==>
      var atr := AtrAt(candles, PeriodOr(params.atrPeriod, 14), |candles| - 1);
      var distance := StopDistance(atr.value, OrElse(params.multiplier, 1.5));
      && atr.Some?
      && r.value.slPips == Some(PipsAtLeast(distance, 10.0))
      && r.value.tpPips == Some(PipsAtLeast(distance * 2.0, 20.0))
    ensures |candles| >= PeriodOr(params.atrPeriod, 14) + 5 && |candles| >= 20 ==>
      var closes, i := Closes(candles), |candles| - 1;
      var price, lower, upper := closes[i], LowerAt(closes, 20, 2.0, sqrt, i).value, UpperAt(closes, 20, 2.0, sqrt, i).value;
      && (r.Some? && r.value.side == Some(Buy) <==> price <= lower)
      && (r.Some? && r.value.side == Some(Sell) <==> lower < price && upper <= price)
  {
    var atrPeriod := PeriodOr(params.atrPeriod, 14);
    var multiplier := OrElse(params.multiplier, 1.5);
    if |candles| < atrPeriod + 5 then None
    else
      var closes := Closes(candles);
      var i := |candles| - 1;
      var price := closes[i];
      var atr := AtrAt(candles, atrPeriod, i);
      var upper := UpperAt(closes, 20, 2.0, sqrt, i);
      var lower := LowerAt(closes, 20, 2.0, sqrt, i);
      if atr.None? || upper.None? || lower.None? then None
      else
        var slPips := PipsAtLeast(StopDistance(atr.value, multiplier), 10.0);
        var tpPips := PipsAtLeast(StopDistance(atr.value, multiplier) * 2.0, 20.0);
        if price <= lower.value then
          Some(Signal(OpenSignal, Some(Buy), candles[0].symbol, TouchedLowerBand, 0.6, Some(slPips), Some(tpPips), now))
        else if price >= upper.value then
          Some(Signal(OpenSignal, Some(Sell), candles[0].symbol, TouchedUpperBand, 0.6, Some(slPips), Some(tpPips), now))
        else None
  }

  /** On well-formed bars with a non-negative multiplier, a scalper signal's target is at
      least as far as its stop. */
  lemma ScalperTargetBeyondStop(candles: seq<Candle>, params: EngineParams, sqrt: real -> real, now: int)
    requires WellFormed(candles) && params.multiplier >= 0.0
    ensures var r := Scalper(candles, params, sqrt, now);
      r.Some? ==> r.value.slPips.value <= r.value.tpPips.value
  {
    var atrPeriod := PeriodOr(params.atrPeriod, 14);
    var multiplier := OrElse(params.multiplier, 1.5);
    if |candles| >= atrPeriod + 5 {
      var i := |candles| - 1;
      AtrNonNegative(candles, atrPeriod, i);
      var atr := AtrAt(candles, atrPeriod, i);
      if atr.Some? {
        var distance := StopDistance(atr.value, multiplier);
        assert distance >= 0.0;
      }
    }
  }

  // ---------------------------------------------------------------- router and handler

  /** Runs the strategy named in the configuration; a disabled strategy or an unknown name
      gives no signal. */
  function EvaluateStrategy(strategy: StrategyConfig, candles: seq<Candle>, sqrt: real -> real, now: int): (r: Option<Signal>)
    ensures !strategy.enabled ==> r.None?
    ensures strategy.name != "MA Cross" && strategy.name != "RSI Bands" && strategy.name != "Scalper" ==> r.None?
    ensures strategy.enabled && strategy.name == "MA Cross" ==> r == MaCross(candles, strategy.params, now)
    ensures strategy.enabled && strategy.name == "RSI Bands" ==> r == RsiBands(candles, strategy.params, now)
    ensures strategy.enabled && strategy.name == "Scalper" ==> r == Scalper(candles, strategy.params, sqrt, now)
  {
    if !strategy.enabled then None
    else
      match strategy.name
      case "MA Cross" => MaCross(candles, strategy.params, now)
      case "RSI Bands" => RsiBands(candles, strategy.params, now)
      case "Scalper" => Scalper(candles, strategy.params, sqrt, now)
      case _ => None
  }

  /** Every signal the router returns opens a position on a side, with a confidence that
      is a probability, stamped with the first candle's symbol and the time `now`. */
  lemma EvaluatedSignalOpens(strategy: StrategyConfig, candles: seq<Candle>, sqrt: real -> real, now: int)
    ensures var r := EvaluateStrategy(strategy, candles, sqrt, now);
      r.Some? ==> Opening(r.value) && r.value.symbol == FirstSymbol(candles) && r.value.timestamp == now
  {
  }

  /** The strategy is evaluated for this request: it is enabled and configured for the
      requested symbol and timeframe. */
  predicate Selected(strategy: StrategyConfig, symbol: string, timeframe: string)
  {
    strategy.symbol == symbol && strategy.timeframe == timeframe && strategy.enabled
  }

  /** What one configured strategy contributes to the response: its signal, re-stamped
      with the requested symbol, if it is selected and produced one. */
  function Contribution(strategy: StrategyConfig, candles: seq<Candle>, symbol: string, timeframe: string,
                        sqrt: real -> real, now: int): (out: seq<Signal>)
    ensures |out| <= 1
    ensures |out| == 1 ==> (Selected(strategy, symbol, timeframe) && out[0].symbol == symbol
      && EvaluateStrategy(strategy, candles, sqrt, now) == Some(out[0].(symbol := FirstSymbol(candles))))
  {
    if Selected(strategy, symbol, timeframe) then
      match EvaluateStrategy(strategy, candles, sqrt, now)
      case Some(signal) => [signal.(symbol := symbol)]
      case None => []
    else []
  }

  /** The signals of the strategies in order. */
  function Collected(strategies: seq<StrategyConfig>, candles: seq<Candle>, symbol: string, timeframe: string,
                     sqrt: real -> real, now: int): seq<Signal>
  {
    if strategies == [] then [] else
    var last := |strategies| - 1;
    Collected(strategies[..last], candles, symbol, timeframe, sqrt, now)
      + Contribution(strategies[last], candles, symbol, timeframe, sqrt, now)
  }

  /** `strategies.filter(s => s.enabled)`. */
  function Enabled(strategies: seq<StrategyConfig>): (e: seq<StrategyConfig>)
    ensures |e| <= |strategies|
    ensures forall k :: 0 <= k < |e| ==> e[k].enabled
    ensures forall c :: c in e <==> c in strategies && c.enabled
    ensures forall c :: multiset(e)[c] == if c.enabled then multiset(strategies)[c] else 0
  {
    if strategies == [] then [] else
    var init, last := strategies[..|strategies| - 1], strategies[|strategies| - 1];
    assert strategies == init + [last];
    Enabled(init) + (if last.enabled then [last] else [])
  }

  /** The handler's loop: evaluates each selected strategy and keeps its signal with the
      requested symbol; `evaluated` is the number of enabled strategies. */
  method CollectSignals(strategies: seq<StrategyConfig>, candles: seq<Candle>, symbol: string, timeframe: string,
                        sqrt: real -> real, now: int)
    returns (signals: seq<Signal>, evaluated: nat)
    ensures signals == Collected(strategies, candles, symbol, timeframe, sqrt, now)
    ensures evaluated == |Enabled(strategies)|
  {
    signals := [];
    for k := 0 to |strategies|
      invariant signals == Collected(strategies[..k], candles, symbol, timeframe, sqrt, now)
    {
      var strategy := strategies[k];
      assert strategies[..k + 1][..k] == strategies[..k];
      if strategy.symbol == symbol && strategy.timeframe == timeframe && strategy.enabled {
        var signal := EvaluateStrategy(strategy, candles, sqrt, now);
        if signal.Some? {
          signals := signals + [signal.value.(symbol := symbol)];
        }
      }
    }
    assert strategies[..|strategies|] == strategies;
    evaluated := |Enabled(strategies)|;
  }

  /** Collecting over two lists of strategies one after the other gives the first list's
      signals followed by the second's: the response keeps the input order. */
  lemma {:induction false} CollectedAppend(first: seq<StrategyConfig>, second: seq<StrategyConfig>, candles: seq<Candle>,
                                           symbol: string, timeframe: string, sqrt: real -> real, now: int)
    ensures Collected(first + second, candles, symbol, timeframe, sqrt, now)
      == Collected(first, candles, symbol, timeframe, sqrt, now) + Collected(second, candles, symbol, timeframe, sqrt, now)
    decreases |second|
  {
    if second == [] {
      assert first + second == first;
    } else {
      var init := second[..|second| - 1];
      var last := second[|second| - 1];
      assert (first + second)[..|first + second| - 1] == first + init;
      assert (first + second)[|first + second| - 1] == last;
      CollectedAppend(first, init, candles, symbol, timeframe, sqrt, now);
    }
  }

  /** At most one signal per selected strategy, every one of them carrying the requested
      symbol; their number never exceeds the `evaluated` count. */
  lemma {:induction false} CollectedBounds(strategies: seq<StrategyConfig>, candles: seq<Candle>, symbol: string,
                                           timeframe: string, sqrt: real -> real, now: int)
    ensures var out := Collected(strategies, candles, symbol, timeframe, sqrt, now);
      && |out| <= |Enabled(strategies)|
      && forall k :: 0 <= k < |out| ==> out[k].symbol == symbol && Opening(out[k])
    decreases |strategies|
  {
    if strategies != [] {
      var init := strategies[..|strategies| - 1];
      var last := strategies[|strategies| - 1];
      CollectedBounds(init, candles, symbol, timeframe, sqrt, now);
      EvaluatedSignalOpens(last, candles, sqrt, now);
      var before := Collected(init, candles, symbol, timeframe, sqrt, now);
      var added := Contribution(last, candles, symbol, timeframe, sqrt, now);
      assert Collected(strategies, candles, symbol, timeframe, sqrt, now) == before + added;
      if |added| == 1 {
        assert added[0].kind == EvaluateStrategy(last, candles, sqrt, now).value.kind;
      }
    }
  }

  /** A single strategy contributes exactly its own signal when it is selected and
      produces one, and nothing otherwise. */
  lemma CollectedOne(strategy: StrategyConfig, candles: seq<Candle>, symbol: string, timeframe: string,
                     sqrt: real -> real, now: int)
    ensures var r := EvaluateStrategy(strategy, candles, sqrt, now);
      Collected([strategy], candles, symbol, timeframe, sqrt, now)
        == if Selected(strategy, symbol, timeframe) && r.Some? then [r.value.(symbol := symbol)] else []
  {
    assert [strategy][..0] == [];
  }
}
