/** The indicator loops of the backtesting edge function. Each builds its output array by
    pushing one entry per input element; each is proved to produce the index-wise
    definition in module Indicators. */
module BacktestIndicators {
  import opened Wrappers
  import opened Numeric
  import opened Market
  import opened Indicators

  method CalculateSma(prices: seq<real>, period: nat) returns (sma: seq<Option<real>>)
    requires period >= 1
    ensures |sma| == |prices|
    ensures forall i :: 0 <= i < |prices| ==> sma[i] == SmaAt(prices, period, i)
  {
    sma := [];
    for i := 0 to |prices|
      invariant |sma| == i
      invariant forall k {:trigger sma[k]} :: 0 <= k < i ==> sma[k] == SmaAt(prices, period, k)
    {
      if i < period - 1 {
        sma := sma + [None];
      } else {
        var slice := prices[i - period + 1 .. i + 1];
        sma := sma + [Some(Sum(slice) / period as real)];
      }
    }
  }

  method CalculateEma(prices: seq<real>, period: nat) returns (ema: seq<real>)
    requires period >= 1
    ensures |ema| == |prices|
    ensures forall i :: 0 <= i < |prices| ==> ema[i] == BacktestEmaAt(prices, period, i)
  {
    ema := [];
    for i := 0 to |prices|
      invariant |ema| == i
      invariant forall k {:trigger ema[k]} :: 0 <= k < i ==> ema[k] == BacktestEmaAt(prices, period, k)
    {
      var next;
      if i == 0 {
        next := prices[i];
      } else if i < period - 1 {
        next := RunningMean(prices[i], ema[i - 1], i);
      } else {
        next := EmaStep(prices[i], ema[i - 1], period);
      }
      assert next == BacktestEmaAt(prices, period, i);
      ema := ema + [next];
      assert forall k :: 0 <= k < i ==> ema[k] == BacktestEmaAt(prices, period, k);
    }
  }

  method CalculateRsi(prices: seq<real>, period: nat) returns (rsi: seq<Option<real>>)
    requires period >= 1
    ensures |rsi| == |prices|
    ensures forall i :: 0 <= i < |prices| ==> rsi[i] == RsiAt(prices, period, i)
  {
    rsi := [];
    var gains: seq<real> := [];
    var losses: seq<real> := [];
    for i := 0 to |prices|
      invariant |rsi| == i
      invariant |gains| == |losses| == if i == 0 then 0 else i - 1
      invariant gains == Gains(prices)[..|gains|] && losses == Losses(prices)[..|losses|]
      invariant forall k {:trigger rsi[k]} :: 0 <= k < i ==> rsi[k] == RsiAt(prices, period, k)
    {
      var next: Option<real>;
      if i == 0 {
        next := None;
      } else {
        var change := prices[i] - prices[i - 1];
        gains := gains + [if change > 0.0 then change else 0.0];
        losses := losses + [if change < 0.0 then -change else 0.0];
        ChangesStep(prices, i);
        if i < period {
          next := None;
        } else {
          var value := RsiOfHistory(gains, losses, period, prices, i);
          next := Some(value);
        }
      }
      assert next == RsiAt(prices, period, i);
      ghost var before := rsi;
      rsi := rsi + [next];
      forall k | 0 <= k <= i ensures rsi[k] == RsiAt(prices, period, k) {
        if k < i {
          assert rsi[k] == before[k];
        }
      }
    }
  }

  method CalculateAtr(candles: seq<Candle>, period: nat) returns (atr: seq<Option<real>>)
    requires period >= 1
    ensures |atr| == |candles|
    ensures forall i :: 0 <= i < |candles| ==> atr[i] == BacktestAtrAt(candles, period, i)
  {
    atr := [];
    var tr: seq<real> := [];
    for i := 0 to |candles|
      invariant |atr| == i
      invariant tr == TrueRanges(candles)[..i]
      invariant forall k {:trigger atr[k]} :: 0 <= k < i ==> atr[k] == BacktestAtrAt(candles, period, k)
    {
      var next: Option<real>;
      if i == 0 {
        TrueRangesStep(candles, tr, i, candles[i].high - candles[i].low);
        tr := tr + [candles[i].high - candles[i].low];
        next := None;
      } else {
        var high := candles[i].high;
        var low := candles[i].low;
        var prevClose := candles[i - 1].close;
        var trueRange := Max(Max(high - low, Abs(high - prevClose)), Abs(low - prevClose));
        TrueRangesStep(candles, tr, i, trueRange);
        tr := tr + [trueRange];
        if i < period - 1 {
          next := None;
        } else if i == period - 1 {
          assert tr[..period] == tr;
          next := Some(Sum(tr[..period]) / period as real);
        } else {
          // NaN times anything is NaN: an undefined previous value stays undefined.
          next := match atr[i - 1]
            case None => None
            case Some(prev) => Some(WilderStep(prev, trueRange, period));
        }
      }
      assert next == BacktestAtrAt(candles, period, i);
      ghost var before := atr;
      atr := atr + [next];
      assert forall k :: 0 <= k < i ==> atr[k] == before[k];
    }
  }

  method CalculateBollingerBands(prices: seq<real>, period: nat, stdDev: real, sqrt: real -> real)
    returns (bands: Bands)
    requires period >= 1
    ensures BandsMatch(bands, prices, period, stdDev, sqrt)
  {
    var sma := CalculateSma(prices, period);
    var upper: seq<Option<real>> := [];
    var lower: seq<Option<real>> := [];
    for i := 0 to |prices|
      invariant |upper| == i && |lower| == i
      invariant forall k {:trigger upper[k]} {:trigger lower[k]} :: 0 <= k < i ==>
        upper[k] == UpperAt(prices, period, stdDev, sqrt, k) &&
        lower[k] == LowerAt(prices, period, stdDev, sqrt, k)
    {
      if i < period - 1 {
        upper := upper + [None];
        lower := lower + [None];
      } else {
        var slice := prices[i - period + 1 .. i + 1];
        var mean := sma[i].value;
        var variance := SquaredDeviations(slice, mean) / period as real;
        var std := sqrt(variance);
        BandsAt(prices, period, stdDev, sqrt, i, mean, std);
        upper := upper + [Some(mean + Deviations(stdDev, std))];
        lower := lower + [Some(mean - Deviations(stdDev, std))];
      }
    }
    bands := Bands(sma, upper, lower);
  }
}
