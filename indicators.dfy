/** Index-wise definitions of the technical indicators. Each function gives the value an
    indicator array holds at index `i`; `None` stands for the `NaN` (or `null`) warm-up entries.
    The loops that build the arrays in the edge functions and in the chart component are
    proved equal to these definitions (modules BacktestIndicators, StrategyIndicators and
    ChartIndicators). */
module Indicators {
  import opened Wrappers
  import opened Numeric
  import opened Market

  // ---------------------------------------------------------------- SMA

  /** Simple moving average: the mean of the `period` prices ending at `i`. */
  function SmaAt(p: seq<real>, period: nat, i: nat): Option<real>
    requires period >= 1 && i < |p|
  {
    if i < period - 1 then None else Some(Sum(p[i - period + 1 .. i + 1]) / period as real)
  }

  lemma SmaDefinedAfterWarmup(p: seq<real>, period: nat, i: nat)
    requires period >= 1 && i < |p|
    ensures SmaAt(p, period, i).None? <==> i < period - 1
    ensures SmaAt(p, period, i).Some? ==>
      |p[i - period + 1 .. i + 1]| == period &&
      SmaAt(p, period, i).value * period as real == Sum(p[i - period + 1 .. i + 1])
  {
  }

  /** A constant series has a constant moving average. */
  lemma {:induction false} SmaOfConstant(p: seq<real>, period: nat, c: real, i: nat)
    requires period >= 1 && i < |p| && i >= period - 1
    requires forall k :: 0 <= k < |p| ==> p[k] == c
    ensures SmaAt(p, period, i) == Some(c)
  {
    var w := p[i - period + 1 .. i + 1];
    assert |w| == period;
    SumConstant(w, c);
    assert Sum(w) == period as real * c;
    assert (period as real * c) / period as real == c;
    assert SmaAt(p, period, i) == Some(Sum(w) / period as real);
  }

  // ---------------------------------------------------------------- EMA

  function Multiplier(period: nat): real
  {
    2.0 / (period as real + 1.0)
  }

  /** The recurrence both engines use once warmed up. */
  function EmaStep(price: real, prev: real, period: nat): real
  {
    (price - prev) * Multiplier(period) + prev
  }

  /** The backtesting engine's warm-up step: the mean of `n` earlier values extended by `price`. */
  function RunningMean(price: real, prev: real, n: nat): real
  {
    (price + prev * n as real) / (n as real + 1.0)
  }

  /** The backtesting engine's EMA: a running average before index `period - 1`,
      the recurrence from index `period - 1` on. */
  function BacktestEmaAt(p: seq<real>, period: nat, i: nat): real
    requires period >= 1 && i < |p|
    decreases i
  {
    if i == 0 then p[0]
    else
      var prev := BacktestEmaAt(p, period, i - 1);
      if i < period - 1 then RunningMean(p[i], prev, i)
      else EmaStep(p[i], prev, period)
  }

  /** The strategy engine's EMA: the exact mean of the prefix up to index `period - 1`
      (so the seed is the SMA), the recurrence afterwards. */
  function EmaAt(p: seq<real>, period: nat, i: nat): real
    requires period >= 1 && i < |p|
    decreases i
  {
    if i == 0 then p[0]
    else if i < period - 1 then Sum(p[..i + 1]) / (i as real + 1.0)
    else if i == period - 1 then Sum(p[..period]) / period as real
    else EmaStep(p[i], EmaAt(p, period, i - 1), period)
  }

  /** The backtesting engine's running average is the exact prefix mean during warm-up. */
  lemma {:induction false} BacktestEmaWarmupIsPrefixMean(p: seq<real>, period: nat, i: nat)
    requires period >= 1 && i < |p| && (i == 0 || i < period - 1)
    ensures BacktestEmaAt(p, period, i) == Sum(p[..i + 1]) / (i as real + 1.0)
  {
    SumSnoc(p, i);
    if i == 0 {
      assert p[..0] == [];
    } else {
      BacktestEmaWarmupIsPrefixMean(p, period, i - 1);
      var prev := BacktestEmaAt(p, period, i - 1);
      assert prev * i as real == Sum(p[..i]);
    }
  }

  /** Before index `period - 1` the two engines' EMAs coincide. */
  lemma EmaVariantsAgreeDuringWarmup(p: seq<real>, period: nat, i: nat)
    requires period >= 1 && i < |p| && i < period - 1
    ensures BacktestEmaAt(p, period, i) == EmaAt(p, period, i)
  {
    BacktestEmaWarmupIsPrefixMean(p, period, i);
    if i == 0 {
      assert p[..1] == [p[0]];
      assert Sum(p[..1]) == Sum([]) + p[0];
    }
  }

  /** The strategy engine seeds its EMA with the SMA at index `period - 1`. */
  lemma {:induction false} EmaSeedIsSma(p: seq<real>, period: nat)
    requires period >= 1 && period - 1 < |p|
    ensures SmaAt(p, period, period - 1) == Some(EmaAt(p, period, period - 1))
  {
    assert p[period - 1 - period + 1 .. period - 1 + 1] == p[..period];
    if period == 1 {
      assert p[..1] == [p[0]];
      assert Sum(p[..1]) == Sum([]) + p[0];
    }
  }

  lemma {:induction false} BacktestEmaOfConstant(p: seq<real>, period: nat, c: real, i: nat)
    requires period >= 1 && i < |p|
    requires forall k :: 0 <= k < |p| ==> p[k] == c
    ensures BacktestEmaAt(p, period, i) == c
  {
    if i > 0 {
      BacktestEmaOfConstant(p, period, c, i - 1);
      if i < period - 1 {
        assert (c + c * i as real) == c * (i as real + 1.0);
      }
    }
  }

  lemma {:induction false} EmaOfConstant(p: seq<real>, period: nat, c: real, i: nat)
    requires period >= 1 && i < |p|
    requires forall k :: 0 <= k < |p| ==> p[k] == c
    ensures EmaAt(p, period, i) == c
  {
    if i > 0 {
      if i < period - 1 {
        SumConstant(p[..i + 1], c);
      } else if i == period - 1 {
        SumConstant(p[..period], c);
      } else {
        EmaOfConstant(p, period, c, i - 1);
      }
    }
  }

  // ---------------------------------------------------------------- RSI

  /** `gains[k]` is the rise from price `k` to price `k + 1`, or 0. */
  function Gains(p: seq<real>): (g: seq<real>)
    ensures |g| == if |p| == 0 then 0 else |p| - 1
    ensures forall k :: 0 <= k < |g| ==> g[k] >= 0.0
  {
    seq(if |p| == 0 then 0 else |p| - 1,
        k requires 0 <= k < |p| - 1 => if p[k + 1] - p[k] > 0.0 then p[k + 1] - p[k] else 0.0)
  }

  /** `losses[k]` is the fall from price `k` to price `k + 1`, or 0. */
  function Losses(p: seq<real>): (l: seq<real>)
    ensures |l| == if |p| == 0 then 0 else |p| - 1
    ensures forall k :: 0 <= k < |l| ==> l[k] >= 0.0
  {
    seq(if |p| == 0 then 0 else |p| - 1,
        k requires 0 <= k < |p| - 1 => if p[k + 1] - p[k] < 0.0 then Abs(p[k + 1] - p[k]) else 0.0)
  }

  /** `100 - 100 / (1 + avgGain / avgLoss)`, and exactly 100 when there was no loss. */
  function RsiFromAverages(avgGain: real, avgLoss: real): real
    requires avgGain >= 0.0 && avgLoss >= 0.0
  {
    if avgLoss == 0.0 then 100.0 else 100.0 - 100.0 / (1.0 + avgGain / avgLoss)
  }

  /** Mean of the `period` gains up to price `i`. */
  function AverageGain(p: seq<real>, period: nat, i: nat): (r: real)
    requires period >= 1 && period <= i < |p|
    ensures r >= 0.0
  {
    var g := Gains(p)[i - period .. i];
    SumNonNegative(g);
    QuotientNonNegative(Sum(g), period as real);
    Sum(g) / period as real
  }

  /** Mean of the `period` losses up to price `i`. */
  function AverageLoss(p: seq<real>, period: nat, i: nat): (r: real)
    requires period >= 1 && period <= i < |p|
    ensures r >= 0.0
  {
    var l := Losses(p)[i - period .. i];
    SumNonNegative(l);
    QuotientNonNegative(Sum(l), period as real);
    Sum(l) / period as real
  }

  /** RSI over the `period` price changes ending at index `i`; undefined before index `period`. */
  function RsiAt(p: seq<real>, period: nat, i: nat): Option<real>
    requires period >= 1 && i < |p|
  {
    if i < period then None
    else Some(RsiFromAverages(AverageGain(p, period, i), AverageLoss(p, period, i)))
  }

  /** One more price change extends both change sequences by one entry. */
  lemma ChangesStep(p: seq<real>, i: nat)
    requires 1 <= i < |p|
    ensures Gains(p)[..i] == Gains(p)[..i - 1] + [if p[i] - p[i - 1] > 0.0 then p[i] - p[i - 1] else 0.0]
    ensures Losses(p)[..i] == Losses(p)[..i - 1] + [if p[i] - p[i - 1] < 0.0 then -(p[i] - p[i - 1]) else 0.0]
  {
    assert Gains(p)[..i] == Gains(p)[..i - 1] + [Gains(p)[i - 1]];
    assert Losses(p)[..i] == Losses(p)[..i - 1] + [Losses(p)[i - 1]];
  }

  /** The last `period` entries of a prefix of length `n` are the window ending before `n`. */
  lemma TailOfPrefix(xs: seq<real>, prefix: seq<real>, n: nat, period: nat)
    requires period <= n <= |xs| && prefix == xs[..n]
    ensures prefix[|prefix| - period ..] == xs[n - period .. n]
  {
  }

  /** The RSI value of bar `i` from the gain and loss histories of bars 1..i: the mean
      gain and mean loss of the last `period` changes. */
  method RsiOfHistory(gains: seq<real>, losses: seq<real>, period: nat, ghost prices: seq<real>, ghost i: nat)
    returns (rsi: real)
    requires period >= 1 && period <= i < |prices|
    requires gains == Gains(prices)[..i] && losses == Losses(prices)[..i]
    ensures RsiAt(prices, period, i) == Some(rsi)
  {
    TailOfPrefix(Gains(prices), gains, i, period);
    TailOfPrefix(Losses(prices), losses, i, period);
    var avgGain := Sum(gains[|gains| - period ..]) / period as real;
    var avgLoss := Sum(losses[|losses| - period ..]) / period as real;
    assert avgGain == AverageGain(prices, period, i) && avgLoss == AverageLoss(prices, period, i);
    if avgLoss == 0.0 {
      rsi := 100.0;
    } else {
      var rs := avgGain / avgLoss;
      rsi := 100.0 - (100.0 / (1.0 + rs));
    }
  }

  /** The RSI rule yields 100 exactly when there was no loss, and a value in [0, 100) otherwise. */
  lemma RsiFromAveragesRange(avgGain: real, avgLoss: real)
    requires avgGain >= 0.0 && avgLoss >= 0.0
    ensures avgLoss == 0.0 ==> RsiFromAverages(avgGain, avgLoss) == 100.0
    ensures avgLoss != 0.0 ==> 0.0 <= RsiFromAverages(avgGain, avgLoss) < 100.0
  {
    if avgLoss != 0.0 {
      QuotientNonNegative(avgGain, avgLoss);
      QuotientBounds(100.0, 1.0 + avgGain / avgLoss);
    }
  }

  /** Where defined, RSI is 100 exactly when the window held no loss, and in [0, 100) otherwise. */
  lemma RsiRange(p: seq<real>, period: nat, i: nat)
    requires period >= 1 && i < |p|
    ensures RsiAt(p, period, i).None? <==> i < period
    ensures RsiAt(p, period, i).Some? ==>
      var r := RsiAt(p, period, i).value;
      (Sum(Losses(p)[i - period .. i]) == 0.0 ==> r == 100.0) &&
      (Sum(Losses(p)[i - period .. i]) != 0.0 ==> 0.0 <= r < 100.0)
  {
    if i >= period {
      RsiFromAveragesRange(AverageGain(p, period, i), AverageLoss(p, period, i));
      QuotientZero(Sum(Losses(p)[i - period .. i]), period as real);
    }
  }

  /** A series that never falls over the window has RSI exactly 100. */
  lemma {:induction false} RsiOfRisingWindow(p: seq<real>, period: nat, i: nat)
    requires period >= 1 && period <= i < |p|
    requires forall k :: i - period < k <= i ==> p[k - 1] <= p[k]
    ensures RsiAt(p, period, i) == Some(100.0)
  {
    var l := Losses(p)[i - period .. i];
    forall k | 0 <= k < |l| ensures l[k] == 0.0 {
      assert l[k] == Losses(p)[i - period + k];
      assert p[i - period + k] <= p[i - period + k + 1];
    }
    SumConstant(l, 0.0);
    assert AverageLoss(p, period, i) == 0.0;
    RsiFromAveragesRange(AverageGain(p, period, i), 0.0);
  }

  // ---------------------------------------------------------------- ATR

  /** True range of bar `i`: the high-low range widened to the previous close; bar 0 has
      no previous close. */
  function TrueRange(c: seq<Candle>, i: nat): real
    requires i < |c|
  {
    if i == 0 then c[0].high - c[0].low
    else
      var high, low, prevClose := c[i].high, c[i].low, c[i - 1].close;
      Max(Max(high - low, Abs(high - prevClose)), Abs(low - prevClose))
  }

  function TrueRanges(c: seq<Candle>): (tr: seq<real>)
    ensures |tr| == |c|
    ensures forall i :: 0 <= i < |c| ==> tr[i] == TrueRange(c, i)
  {
    seq(|c|, i requires 0 <= i < |c| => TrueRange(c, i))
  }

  lemma TrueRangeCoversBar(c: seq<Candle>, i: nat)
    requires i < |c|
    ensures TrueRange(c, i) >= c[i].high - c[i].low
    ensures c[i].low <= c[i].high ==> TrueRange(c, i) >= 0.0
  {
  }

  /** Pushing the true range of bar `i` extends the prefix of true ranges by one. */
  lemma TrueRangesStep(c: seq<Candle>, tr: seq<real>, i: nat, trueRange: real)
    requires i < |c| && tr == TrueRanges(c)[..i] && trueRange == TrueRange(c, i)
    ensures tr + [trueRange] == TrueRanges(c)[..i + 1]
  {
  }

  /** Wilder smoothing step. */
  function WilderStep(prev: real, tr: real, period: nat): real
    requires period >= 1
  {
    (prev * (period - 1) as real + tr) / period as real
  }

  lemma WilderStepNonNegative(prev: real, tr: real, period: nat)
    requires period >= 1 && prev >= 0.0 && tr >= 0.0
    ensures WilderStep(prev, tr, period) >= 0.0
  {
    ProductNonNegative(prev, (period - 1) as real);
    QuotientNonNegative(prev * (period - 1) as real + tr, period as real);
  }

  /** The strategy engine's ATR: undefined before `period - 1`, seeded with the mean of the
      first `period` true ranges, then Wilder-smoothed. */
  function AtrAt(c: seq<Candle>, period: nat, i: nat): (r: Option<real>)
    requires period >= 1 && i < |c|
    ensures r.Some? <==> i >= period - 1
    decreases i
  {
    if i < period - 1 then None
    else if i == period - 1 then Some(Sum(TrueRanges(c)[..period]) / period as real)
    else Some(WilderStep(AtrAt(c, period, i - 1).value, TrueRange(c, i), period))
  }

  /** The backtesting engine's ATR. Bar 0 is skipped before the seed test, so with
      `period == 1` there is no seed and the `NaN` propagates through every later bar. */
  function BacktestAtrAt(c: seq<Candle>, period: nat, i: nat): Option<real>
    requires period >= 1 && i < |c|
    decreases i
  {
    if i == 0 || i < period - 1 then None
    else if i == period - 1 then Some(Sum(TrueRanges(c)[..period]) / period as real)
    else
      match BacktestAtrAt(c, period, i - 1)
      case None => None
      case Some(prev) => Some(WilderStep(prev, TrueRange(c, i), period))
  }

  /** The two ATR variants agree whenever the period is at least 2. */
  lemma {:induction false} AtrVariantsAgree(c: seq<Candle>, period: nat, i: nat)
    requires period >= 2 && i < |c|
    ensures BacktestAtrAt(c, period, i) == AtrAt(c, period, i)
  {
    if i > period - 1 {
      AtrVariantsAgree(c, period, i - 1);
    }
  }

  /** With period 1 the backtesting engine's ATR is never defined. */
  lemma {:induction false} BacktestAtrPeriodOneUndefined(c: seq<Candle>, i: nat)
    requires i < |c|
    ensures BacktestAtrAt(c, 1, i).None?
  {
    if i > 0 {
      BacktestAtrPeriodOneUndefined(c, i - 1);
    }
  }

  /** On well-formed bars ATR is non-negative wherever it is defined. */
  lemma {:induction false} AtrNonNegative(c: seq<Candle>, period: nat, i: nat)
    requires period >= 1 && i < |c| && WellFormed(c)
    ensures AtrAt(c, period, i).Some? ==> AtrAt(c, period, i).value >= 0.0
    ensures BacktestAtrAt(c, period, i).Some? ==> BacktestAtrAt(c, period, i).value >= 0.0
  {
    if i >= period - 1 {
      var tr := TrueRanges(c)[..period];
      forall k | 0 <= k < |tr| ensures tr[k] >= 0.0 {
        TrueRangeCoversBar(c, k);
      }
      SumNonNegative(tr);
      QuotientNonNegative(Sum(tr), period as real);
    }
    if i > period - 1 {
      AtrNonNegative(c, period, i - 1);
      TrueRangeCoversBar(c, i);
      WilderStepNonNegative(AtrAt(c, period, i - 1).value, TrueRange(c, i), period);
      if BacktestAtrAt(c, period, i - 1).Some? {
        WilderStepNonNegative(BacktestAtrAt(c, period, i - 1).value, TrueRange(c, i), period);
      }
    }
  }

  /** The ATR seed is the mean of the first `period` true ranges. */
  lemma AtrSeed(c: seq<Candle>, period: nat)
    requires period >= 1 && period - 1 < |c|
    ensures AtrAt(c, period, period - 1) == Some(Sum(TrueRanges(c)[..period]) / period as real)
    ensures period >= 2 ==> BacktestAtrAt(c, period, period - 1) == AtrAt(c, period, period - 1)
  {
  }

  // ---------------------------------------------------------------- Bollinger bands

  /** `slice.reduce((sum, v) => sum + Math.pow(v - mean, 2), 0)`. */
  function SquaredDeviations(s: seq<real>, mean: real): real
  {
    if s == [] then 0.0
    else SquaredDeviations(s[..|s| - 1], mean) + (s[|s| - 1] - mean) * (s[|s| - 1] - mean)
  }

  lemma {:induction false} SquaredDeviationsNonNegative(s: seq<real>, mean: real)
    ensures SquaredDeviations(s, mean) >= 0.0
    decreases |s|
  {
    if s != [] {
      SquaredDeviationsNonNegative(s[..|s| - 1], mean);
      SquareNonNegative(s[|s| - 1] - mean);
    }
  }

  /** `Math.sqrt` is a parameter of the model; it is only assumed not to return negatives. */
  ghost predicate NonNegativeRoot(sqrt: real -> real)
  {
    forall x :: sqrt(x) >= 0.0
  }

  /** Population standard deviation of the window ending at `i`. */
  function StdAt(p: seq<real>, period: nat, sqrt: real -> real, i: nat): real
    requires period >= 1 && period - 1 <= i < |p|
  {
    sqrt(SquaredDeviations(p[i - period + 1 .. i + 1], SmaAt(p, period, i).value) / period as real)
  }

  /** `k` standard deviations: the distance of each band from the middle one. */
  function Deviations(k: real, std: real): real
  {
    k * std
  }

  function UpperAt(p: seq<real>, period: nat, k: real, sqrt: real -> real, i: nat): Option<real>
    requires period >= 1 && i < |p|
  {
    if i < period - 1 then None else Some(SmaAt(p, period, i).value + Deviations(k, StdAt(p, period, sqrt, i)))
  }

  function LowerAt(p: seq<real>, period: nat, k: real, sqrt: real -> real, i: nat): Option<real>
    requires period >= 1 && i < |p|
  {
    if i < period - 1 then None else Some(SmaAt(p, period, i).value - Deviations(k, StdAt(p, period, sqrt, i)))
  }

  /** The bands at a defined index are the middle value shifted by `k` deviations. */
  lemma BandsAt(p: seq<real>, period: nat, k: real, sqrt: real -> real, i: nat, mean: real, std: real)
    requires period >= 1 && period - 1 <= i < |p|
    requires SmaAt(p, period, i).Some? && mean == SmaAt(p, period, i).value
    requires std == StdAt(p, period, sqrt, i)
    ensures UpperAt(p, period, k, sqrt, i) == Some(mean + Deviations(k, std))
    ensures LowerAt(p, period, k, sqrt, i) == Some(mean - Deviations(k, std))
  {
    assert !(i < period - 1);
  }

  /** The three bands as the edge functions and the chart return them. */
  datatype Bands = Bands(middle: seq<Option<real>>, upper: seq<Option<real>>, lower: seq<Option<real>>)

  /** The band arrays hold the definitions above at every index. */
  ghost predicate BandsMatch(b: Bands, p: seq<real>, period: nat, k: real, sqrt: real -> real)
    requires period >= 1
  {
    |b.middle| == |p| && |b.upper| == |p| && |b.lower| == |p| &&
    forall i :: 0 <= i < |p| ==>
      b.middle[i] == SmaAt(p, period, i) &&
      b.upper[i] == UpperAt(p, period, k, sqrt, i) &&
      b.lower[i] == LowerAt(p, period, k, sqrt, i)
  }

  /** The bands are defined exactly where the middle band is, are ordered for a
      non-negative multiplier and sit symmetrically about the middle. */
  lemma BandsOrdered(p: seq<real>, period: nat, k: real, sqrt: real -> real, i: nat)
    requires period >= 1 && i < |p| && k >= 0.0 && NonNegativeRoot(sqrt)
    ensures UpperAt(p, period, k, sqrt, i).Some? <==> SmaAt(p, period, i).Some?
    ensures LowerAt(p, period, k, sqrt, i).Some? <==> SmaAt(p, period, i).Some?
    ensures SmaAt(p, period, i).Some? ==>
      var m, u, l := SmaAt(p, period, i).value, UpperAt(p, period, k, sqrt, i).value, LowerAt(p, period, k, sqrt, i).value;
      l <= m <= u && u - m == m - l
  {
    if i >= period - 1 {
      assert StdAt(p, period, sqrt, i) >= 0.0;
    }
  }
}
