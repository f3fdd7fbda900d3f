/** The indicator loops of the strategy-engine edge function, each proved to produce the
    index-wise definition in module Indicators. RSI and ATR are computed in two passes,
    as there. */
module StrategyIndicators {
  import opened Wrappers
  import opened Numeric
  import opened Market
  import opened Indicators

  method CalculateSma(prices: seq<real>, period: nat) returns (sma: seq<Option<real>>)
    requires period >= 1
    ensures |sma| == |prices|
    ensures forall i :: 0 <= i < |prices| ==> sma[i] == SmaAt(prices, period, i)
  {
    sma := [];
    for i := 0 to |prices|
      invariant |sma| == i
      invariant forall k {:trigger sma[k]} :: 0 <= k < i ==> sma[k] == SmaAt(prices, period, k)
    {
      if i < period - 1 {
        sma := sma + [None];
      } else {
        var sum := Sum(prices[i - period + 1 .. i + 1]);
        sma := sma + [Some(sum / period as real)];
      }
    }
  }

  method CalculateEma(prices: seq<real>, period: nat) returns (ema: seq<real>)
    requires period >= 1
    ensures |ema| == |prices|
    ensures forall i :: 0 <= i < |prices| ==> ema[i] == EmaAt(prices, period, i)
  {
    ema := [];
    for i := 0 to |prices|
      invariant |ema| == i
      invariant forall k {:trigger ema[k]} :: 0 <= k < i ==> ema[k] == EmaAt(prices, period, k)
    {
      var next;
      if i == 0 {
        next := prices[i];
      } else if i < period - 1 {
        var sum := Sum(prices[..i + 1]);
        next := sum / (i as real + 1.0);
      } else if i == period - 1 {
        var sum := Sum(prices[..period]);
        next := sum / period as real;
      } else {
        next := EmaStep(prices[i], ema[i - 1], period);
      }
      assert next == EmaAt(prices, period, i);
      ghost var before := ema;
      ema := ema + [next];
      assert forall k :: 0 <= k < i ==> ema[k] == before[k];
    }
  }

  /** The RSI value at `i` from the full change sequences: the mean gain and mean loss of
      the `period` changes before `i`. */
  method RsiOfChanges(gains: seq<real>, losses: seq<real>, period: nat, i: nat, ghost prices: seq<real>)
    returns (rsi: real)
    requires period >= 1 && period <= i < |prices|
    requires gains == Gains(prices) && losses == Losses(prices)
    ensures RsiAt(prices, period, i) == Some(rsi)
  {
    var avgGain := Sum(gains[i - period .. i]) / period as real;
    var avgLoss := Sum(losses[i - period .. i]) / period as real;
    assert avgGain == AverageGain(prices, period, i) && avgLoss == AverageLoss(prices, period, i);
    if avgLoss == 0.0 {
      rsi := 100.0;
    } else {
      var rs := avgGain / avgLoss;
      rsi := 100.0 - (100.0 / (1.0 + rs));
    }
  }

  method CalculateRsi(prices: seq<real>, period: nat) returns (rsi: seq<Option<real>>)
    requires period >= 1
    ensures |rsi| == |prices|
    ensures forall i :: 0 <= i < |prices| ==> rsi[i] == RsiAt(prices, period, i)
  {
    var gains: seq<real> := [];
    var losses: seq<real> := [];
    var i := 1;
    while i < |prices|
      invariant 1 <= i && i - 1 <= |Gains(prices)| && i - 1 <= |Losses(prices)|
      invariant |prices| >= 1 ==> i <= |prices|
      invariant gains == Gains(prices)[..i - 1] && losses == Losses(prices)[..i - 1]
    {
      var change := prices[i] - prices[i - 1];
      ChangesStep(prices, i);
      gains := gains + [if change > 0.0 then change else 0.0];
      losses := losses + [if change < 0.0 then Abs(change) else 0.0];
      i := i + 1;
    }
    assert gains == Gains(prices)[..|Gains(prices)|] && losses == Losses(prices)[..|Losses(prices)|];
    rsi := [];
    for i := 0 to |prices|
      invariant |rsi| == i
      invariant forall k {:trigger rsi[k]} :: 0 <= k < i ==> rsi[k] == RsiAt(prices, period, k)
    {
      var next: Option<real>;
      if i < period {
        next := None;
      } else {
        var value := RsiOfChanges(gains, losses, period, i, prices);
        next := Some(value);
      }
      ghost var before := rsi;
      rsi := rsi + [next];
      assert forall k :: 0 <= k < i ==> rsi[k] == before[k];
    }
  }

  method CalculateAtr(candles: seq<Candle>, period: nat) returns (atr: seq<Option<real>>)
    requires period >= 1
    ensures |atr| == |candles|
    ensures forall i :: 0 <= i < |candles| ==> atr[i] == AtrAt(candles, period, i)
  {
    var tr: seq<real> := [];
    for i := 0 to |candles|
      invariant tr == TrueRanges(candles)[..i]
    {
      if i == 0 {
        TrueRangesStep(candles, tr, i, candles[i].high - candles[i].low);
        tr := tr + [candles[i].high - candles[i].low];
      } else {
        var hl := candles[i].high - candles[i].low;
        var hc := Abs(candles[i].high - candles[i - 1].close);
        var lc := Abs(candles[i].low - candles[i - 1].close);
        TrueRangesStep(candles, tr, i, Max(Max(hl, hc), lc));
        tr := tr + [Max(Max(hl, hc), lc)];
      }
    }
    assert tr == TrueRanges(candles);
    atr := [];
    for i := 0 to |tr|
      invariant |atr| == i
      invariant forall k {:trigger atr[k]} :: 0 <= k < i ==> atr[k] == AtrAt(candles, period, k)
    {
      var next: Option<real>;
      if i < period - 1 {
        next := None;
      } else if i == period - 1 {
        next := Some(Sum(tr[..period]) / period as real);
      } else {
        next := Some(WilderStep(atr[i - 1].value, tr[i], period));
      }
      assert next == AtrAt(candles, period, i);
      ghost var before := atr;
      atr := atr + [next];
      assert forall k :: 0 <= k < i ==> atr[k] == before[k];
    }
  }

  method CalculateBollingerBands(prices: seq<real>, period: nat, stdDev: real, sqrt: real -> real)
    returns (bands: Bands)
    requires period >= 1
    ensures BandsMatch(bands, prices, period, stdDev, sqrt)
  {
    var sma := CalculateSma(prices, period);
    var upper: seq<Option<real>> := [];
    var lower: seq<Option<real>> := [];
    for i := 0 to |prices|
      invariant |upper| == i && |lower| == i
      invariant forall k {:trigger upper[k]} {:trigger lower[k]} :: 0 <= k < i ==>
        upper[k] == UpperAt(prices, period, stdDev, sqrt, k) &&
        lower[k] == LowerAt(prices, period, stdDev, sqrt, k)
    {
      if i < period - 1 {
        upper := upper + [None];
        lower := lower + [None];
      } else {
        var slice := prices[i - period + 1 .. i + 1];
        var mean := sma[i].value;
        var variance := SquaredDeviations(slice, mean) / period as real;
        var std := sqrt(variance);
        BandsAt(prices, period, stdDev, sqrt, i, mean, std);
        upper := upper + [Some(mean + Deviations(stdDev, std))];
        lower := lower + [Some(mean - Deviations(stdDev, std))];
      }
    }
    bands := Bands(sma, upper, lower);
  }
}
