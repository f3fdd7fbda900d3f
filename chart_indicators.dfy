/** The overlay computations of the price chart component: the same indicators with
    `null` (here `None`) where the edge functions push `NaN`. */
module ChartIndicators {
  import opened Wrappers
  import opened Numeric
  import opened Indicators

  method CalculateSma(data: seq<real>, period: nat) returns (result: seq<Option<real>>)
    requires period >= 1
    ensures |result| == |data|
    ensures forall i :: 0 <= i < |data| ==> result[i] == SmaAt(data, period, i)
  {
    result := [];
    for i := 0 to |data|
      invariant |result| == i
      invariant forall k {:trigger result[k]} :: 0 <= k < i ==> result[k] == SmaAt(data, period, k)
    {
      if i < period - 1 {
        result := result + [None];
      } else {
        var sum := Sum(data[i - period + 1 .. i + 1]);
        result := result + [Some(sum / period as real)];
      }
    }
  }

  method CalculateRsi(closes: seq<real>, period: nat) returns (result: seq<Option<real>>)
    requires period >= 1
    ensures |result| == |closes|
    ensures forall i :: 0 <= i < |closes| ==> result[i] == RsiAt(closes, period, i)
  {
    result := [];
    var gains: seq<real> := [];
    var losses: seq<real> := [];
    for i := 0 to |closes|
      invariant |result| == i
      invariant |gains| == |losses| == if i == 0 then 0 else i - 1
      invariant gains == Gains(closes)[..|gains|] && losses == Losses(closes)[..|losses|]
      invariant forall k {:trigger result[k]} :: 0 <= k < i ==> result[k] == RsiAt(closes, period, k)
    {
      var next: Option<real>;
      if i == 0 {
        next := None;
      } else {
        var change := closes[i] - closes[i - 1];
        gains := gains + [if change > 0.0 then change else 0.0];
        losses := losses + [if change < 0.0 then Abs(change) else 0.0];
        ChangesStep(closes, i);
        if i < period {
          next := None;
        } else {
          var value := RsiOfHistory(gains, losses, period, closes, i);
          next := Some(value);
        }
      }
      ghost var before := result;
      result := result + [next];
      assert forall k :: 0 <= k < i ==> result[k] == before[k];
    }
  }

  /** The window is clipped at the start of the data and the variance divides by its
      length; wherever the middle band is defined the window is a full one. */
  method CalculateBollingerBands(data: seq<real>, period: nat, stdDev: real, sqrt: real -> real)
    returns (bands: Bands)
    requires period >= 1
    ensures BandsMatch(bands, data, period, stdDev, sqrt)
  {
    var sma := CalculateSma(data, period);
    var upper: seq<Option<real>> := [];
    var lower: seq<Option<real>> := [];
    for i := 0 to |data|
      invariant |upper| == i && |lower| == i
      invariant forall k {:trigger upper[k]} {:trigger lower[k]} :: 0 <= k < i ==>
        upper[k] == UpperAt(data, period, stdDev, sqrt, k) &&
        lower[k] == LowerAt(data, period, stdDev, sqrt, k)
    {
      if sma[i].None? {
        upper := upper + [None];
        lower := lower + [None];
      } else {
        SmaDefinedAfterWarmup(data, period, i);
        var start := if i - period + 1 > 0 then i - period + 1 else 0;
        assert start == i - period + 1;
        var slice := data[start .. i + 1];
        assert |slice| == period;
        var mean := sma[i].value;
        var variance := SquaredDeviations(slice, mean) / |slice| as real;
        var std := sqrt(variance);
        BandsAt(data, period, stdDev, sqrt, i, mean, std);
        upper := upper + [Some(mean + Deviations(stdDev, std))];
        lower := lower + [Some(mean - Deviations(stdDev, std))];
      }
    }
    bands := Bands(sma, upper, lower);
  }
}
