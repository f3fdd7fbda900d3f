/** The bar-by-bar simulation of the backtesting edge function and the statistics it
    reports. `Run` is the state after a number of bars, `RunBacktest` is the loop that
    computes it, and `Report` turns the final state into the result. */
module BacktestSimulator {
  import opened Wrappers
  import opened Numeric
  import opened Market
  import opened BacktestStrategies

  /** The request's configuration; the date range only selects the candles. */
  datatype BacktestConfig = BacktestConfig(
    strategyId: string,
    symbol: string,
    timeframe: string,
    initialBalance: real,
    spread: real,
    slippage: real,
    params: StrategyParams)

  /** A closed trade. Its id `trade-<number>` is kept as the number; `Id` renders it. */
  datatype Trade = Trade(
    number: nat,
    time: int,
    closeTime: int,
    symbol: string,
    side: Side,
    entryPrice: real,
    exitPrice: real,
    volume: real,
    pnl: real,
    pips: real,
    strategy: string)

  datatype CurvePoint = CurvePoint(time: int, equity: real)

  /** The loop's variables. The trade counter is always the number of trades. */
  datatype SimState = SimState(
    trades: seq<Trade>,
    curve: seq<CurvePoint>,
    equity: real,
    position: Option<SimPosition>,
    maxEquity: real,
    maxDrawdown: Extended)

  datatype BacktestResult = BacktestResult(
    totalTrades: nat,
    winningTrades: nat,
    losingTrades: nat,
    winRate: real,
    profitFactor: Extended,
    totalPnL: real,
    maxDrawdown: Extended,
    maxDrawdownPct: Extended,
    sharpeRatio: real,
    avgWin: real,
    avgLoss: real,
    avgRR: real,
    largestWin: real,
    largestLoss: real,
    avgTradeDuration: real,
    equityCurve: seq<CurvePoint>,
    trades: seq<Trade>)

  /** The first bar the simulation looks at. */
  const FirstBar: nat := 50

  /** The lot size of every simulated position. */
  const LotSize: real := 0.1

  function Initial(config: BacktestConfig): SimState
  {
    SimState([], [], config.initialBalance, None, config.initialBalance, Finite(0.0))
  }

  /** Price movement in the trade's favour, in pips of 0.0001. */
  function PipsGained(side: Side, entryPrice: real, exitPrice: real): real
  {
    if side == Buy then (exitPrice - entryPrice) * 10000.0 else (entryPrice - exitPrice) * 10000.0
  }

  /** The trade recorded when a position closes: about $10 per pip per lot, numbered from 1. */
  function ClosedTrade(config: BacktestConfig, p: SimPosition, exitPrice: real, closeTime: int, count: nat): Trade
  {
    var pips := PipsGained(p.side, p.entryPrice, exitPrice);
    Trade(count + 1, p.entryTime, closeTime, config.symbol, p.side,
          p.entryPrice, exitPrice, p.volume, pips * p.volume * 10.0, pips, config.strategyId)
  }

  /** The trade's id as the result reports it. */
  function Id(t: Trade): (id: string)
    ensures |id| > 6 && id[..6] == "trade-"
  {
    "trade-" + NatToString(t.number)
  }

  /** What the loop promises of the `k`-th trade it records. */
  predicate Recorded(config: BacktestConfig, t: Trade, k: nat)
  {
    && t.number == k + 1
    && t.symbol == config.symbol
    && t.strategy == config.strategyId
    && t.volume == LotSize
    && t.pips == PipsGained(t.side, t.entryPrice, t.exitPrice)
    && t.pnl == t.pips * t.volume * 10.0
  }

  /** Closes the open position at `exitPrice`: one trade is recorded and its profit booked. */
  function Close(config: BacktestConfig, s: SimState, exitPrice: real, closeTime: int): (r: SimState)
    requires s.position.Some?
    ensures r.trades == s.trades + [ClosedTrade(config, s.position.value, exitPrice, closeTime, |s.trades|)]
    ensures r.equity == s.equity + r.trades[|s.trades|].pnl
    ensures r.position.None?
    ensures r.curve == s.curve && r.maxEquity == s.maxEquity && r.maxDrawdown == s.maxDrawdown
  {
    var t := ClosedTrade(config, s.position.value, exitPrice, closeTime, |s.trades|);
    s.(trades := s.trades + [t], equity := s.equity + t.pnl, position := None)
  }

  /** The price a bar's range forces the position out at, if any. The stop is checked first
      and is filled `slippage` pips worse; the target is filled exactly. */
  function StopExit(p: SimPosition, bar: Candle, slippage: real): Option<real>
  {
    if p.side == Buy then
      if bar.low <= p.sl then Some(p.sl - slippage * 0.0001)
      else if bar.high >= p.tp then Some(p.tp)
      else None
    else
      if bar.high >= p.sl then Some(p.sl + slippage * 0.0001)
      else if bar.low <= p.tp then Some(p.tp)
      else None
  }

  /** The stop and target check at the start of a bar. */
  function AfterStops(config: BacktestConfig, s: SimState, bar: Candle): SimState
  {
    if s.position.Some? && StopExit(s.position.value, bar, config.slippage).Some? then
      Close(config, s, StopExit(s.position.value, bar, config.slippage).value, bar.time)
    else s
  }

  /** A new position at the bar's close, worse by the spread and the slippage; a zero stop
      or target falls back to 20 or 40 pips. */
  function Opened(config: BacktestConfig, side: Side, sl: real, tp: real, bar: Candle): (p: SimPosition)
    ensures p.side == side && p.entryTime == bar.time && p.volume == LotSize
    ensures side == Buy ==> p.entryPrice == bar.close + config.spread * 0.0001 + config.slippage * 0.0001
    ensures side == Sell ==> p.entryPrice == bar.close - config.spread * 0.0001 - config.slippage * 0.0001
    ensures p.sl == OrElse(sl, if side == Buy then p.entryPrice - 0.002 else p.entryPrice + 0.002)
    ensures p.tp == OrElse(tp, if side == Buy then p.entryPrice + 0.004 else p.entryPrice - 0.004)
  {
    match side
    case Buy =>
      var entry := bar.close + config.spread * 0.0001 + config.slippage * 0.0001;
      SimPosition(Buy, entry, bar.time, LotSize, OrElse(sl, entry - 0.002), OrElse(tp, entry + 0.004))
    case Sell =>
      var entry := bar.close - config.spread * 0.0001 - config.slippage * 0.0001;
      SimPosition(Sell, entry, bar.time, LotSize, OrElse(sl, entry + 0.002), OrElse(tp, entry - 0.004))
  }

  /** Acts on the strategy's answer: enter only when flat, close only when in a position. */
  function ApplyAction(config: BacktestConfig, s: SimState, action: Action, bar: Candle): SimState
  {
    if action.Enter? && s.position.None? then
      s.(position := Some(Opened(config, action.side, action.sl, action.tp, bar)))
    else if action.Exit? && s.position.Some? then
      Close(config, s, bar.close, bar.time)
    else s
  }

  /** The equity sample bar `i` adds: one point on every tenth bar, none otherwise. */
  function SampleAt(i: nat, bar: Candle, equity: real): (points: seq<CurvePoint>)
    ensures i % 10 == 0 ==> points == [CurvePoint(bar.time, equity)]
    ensures i % 10 != 0 ==> points == []
  {
    if i % 10 == 0 then [CurvePoint(bar.time, equity)] else []
  }

  /** The running peak, the deepest drawdown in percent and the equity sample every tenth bar. */
  function Track(s: SimState, i: nat, bar: Candle): SimState
  {
    var maxEquity := Max(s.maxEquity, s.equity);
    s.(maxEquity := maxEquity,
       maxDrawdown := MaxExtended(s.maxDrawdown, DrawdownPct(maxEquity, s.equity)),
       curve := if i % 10 == 0 then s.curve + [CurvePoint(bar.time, s.equity)] else s.curve)
  }

  /** How the loop asks for a decision: the candles so far and the open position. */
  type Strategy = (seq<Candle>, Option<SimPosition>) -> Action

  /** The configured strategy, routed by its id. */
  function StrategyFor(config: BacktestConfig, sqrt: real -> real): Strategy
  {
    (candles: seq<Candle>, position: Option<SimPosition>) =>
      ExecuteStrategy(config.strategyId, candles, config.params, position, sqrt)
  }

  /** One pass of the loop body for bar `i`; the strategy sees the candles up to and
      including bar `i` and the position that survived the stop check. */
  function Bar(config: BacktestConfig, candles: seq<Candle>, strategy: Strategy, s: SimState, i: nat): SimState
    requires i < |candles|
  {
    var stopped := AfterStops(config, s, candles[i]);
    var action := strategy(candles[..i + 1], stopped.position);
    Track(ApplyAction(config, stopped, action, candles[i]), i, candles[i])
  }

  /** A bar step: the state after bar `i` from the state before it. */
  type Step = (SimState, nat) -> SimState

  /** The state once bars `FirstBar .. n - 1` have each been passed through `step`. */
  function Iterate(step: Step, start: SimState, n: nat): SimState
    decreases n
  {
    if n <= FirstBar then start else step(Iterate(step, start, n - 1), n - 1)
  }

  /** The loop body as a step; past the last candle nothing changes. */
  function BarStep(config: BacktestConfig, candles: seq<Candle>, strategy: Strategy): Step
  {
    (s: SimState, i: nat) => if i < |candles| then Bar(config, candles, strategy, s, i) else s
  }

  /** The state once bars `FirstBar .. n - 1` have been processed. */
  function Run(config: BacktestConfig, candles: seq<Candle>, strategy: Strategy, n: nat): SimState
  {
    Iterate(BarStep(config, candles, strategy), Initial(config), n)
  }

  // ---------------------------------------------------------------- statistics

  function Pnls(ts: seq<Trade>): (r: seq<real>)
    ensures |r| == |ts| && forall k :: 0 <= k < |ts| ==> r[k] == ts[k].pnl
  {
    if ts == [] then [] else Pnls(ts[..|ts| - 1]) + [ts[|ts| - 1].pnl]
  }

  /** `trades.filter(t => t.pnl > 0)`. */
  function Winners(ts: seq<Trade>): (w: seq<Trade>)
    ensures forall k :: 0 <= k < |w| ==> w[k].pnl > 0.0
    ensures |w| <= |ts|
  {
    if ts == [] then []
    else Winners(ts[..|ts| - 1]) + (if ts[|ts| - 1].pnl > 0.0 then [ts[|ts| - 1]] else [])
  }

  /** `trades.filter(t => t.pnl <= 0)`. */
  function Losers(ts: seq<Trade>): (l: seq<Trade>)
    ensures forall k :: 0 <= k < |l| ==> l[k].pnl <= 0.0
    ensures |l| <= |ts|
  {
    if ts == [] then []
    else Losers(ts[..|ts| - 1]) + (if ts[|ts| - 1].pnl <= 0.0 then [ts[|ts| - 1]] else [])
  }

  function Durations(ts: seq<Trade>): (r: seq<real>)
    ensures |r| == |ts| && forall k :: 0 <= k < |ts| ==> r[k] == (ts[k].closeTime - ts[k].time) as real
  {
    if ts == [] then [] else Durations(ts[..|ts| - 1]) + [(ts[|ts| - 1].closeTime - ts[|ts| - 1].time) as real]
  }

  function SquaredDeviations(xs: seq<real>, mean: real): (r: seq<real>)
    ensures |r| == |xs| && forall k :: 0 <= k < |xs| ==> r[k] == (xs[k] - mean) * (xs[k] - mean)
  {
    if xs == [] then [] else SquaredDeviations(xs[..|xs| - 1], mean) + [(xs[|xs| - 1] - mean) * (xs[|xs| - 1] - mean)]
  }

  /** `Math.max(...xs)` of a non-empty list. */
  function Largest(xs: seq<real>): (m: real)
    requires |xs| >= 1
    ensures (exists k :: 0 <= k < |xs| && xs[k] == m) && forall k :: 0 <= k < |xs| ==> xs[k] <= m
  {
    if |xs| == 1 then xs[0] else Max(Largest(xs[..|xs| - 1]), xs[|xs| - 1])
  }

  /** `Math.min(...xs)` of a non-empty list. */
  function Smallest(xs: seq<real>): (m: real)
    requires |xs| >= 1
    ensures (exists k :: 0 <= k < |xs| && xs[k] == m) && forall k :: 0 <= k < |xs| ==> m <= xs[k]
  {
    if |xs| == 1 then xs[0] else Min(Smallest(xs[..|xs| - 1]), xs[|xs| - 1])
  }

  /** Mean of a list, 0 for an empty one. */
  function MeanOrZero(xs: seq<real>): real
  {
    if |xs| > 0 then Sum(xs) / |xs| as real else 0.0
  }

  /** Gross profit over gross loss, +∞ when there are profits and no losses, and 0 when
      there are neither. */
  function ProfitFactor(totalWins: real, totalLosses: real): (f: Extended)
    ensures f == PositiveInfinity <==> totalLosses <= 0.0 && totalWins > 0.0
    ensures f != PositiveInfinity ==> f.Finite?
    ensures totalWins >= 0.0 && f.Finite? ==> f.value >= 0.0
  {
    if totalLosses > 0.0 then
      assert totalWins >= 0.0 ==> totalWins / totalLosses >= 0.0;
      Finite(totalWins / totalLosses)
    else if totalWins > 0.0 then PositiveInfinity
    else Finite(0.0)
  }

  /** An amount per trade, 0 when there are no trades. */
  function PerTrade(total: real, count: nat): (r: real)
    ensures count == 0 ==> r == 0.0
    ensures total >= 0.0 ==> r >= 0.0
  {
    if count > 0 then
      assert total >= 0.0 ==> total / count as real >= 0.0;
      total / count as real
    else 0.0
  }

  /** The share of winning trades in percent, 0 when there are no trades. */
  function WinRate(winners: nat, trades: nat): (r: real)
    ensures trades == 0 ==> r == 0.0
    ensures winners <= trades ==> 0.0 <= r <= 100.0
  {
    if trades > 0 then
      assert winners <= trades ==> winners as real / trades as real <= 1.0;
      winners as real / trades as real * 100.0
    else 0.0
  }

  /** The population standard deviation of the returns. */
  function ReturnsStdDev(pnls: seq<real>, sqrt: real -> real): real
  {
    sqrt(MeanOrZero(SquaredDeviations(pnls, MeanOrZero(pnls))))
  }

  /** Mean return over its population standard deviation, times √252; 0 without spread. */
  function SharpeRatio(pnls: seq<real>, sqrt: real -> real): real
  {
    var avgReturn := MeanOrZero(pnls);
    var stdDev := ReturnsStdDev(pnls, sqrt);
    if stdDev > 0.0 then avgReturn / stdDev * sqrt(252.0) else 0.0
  }

  /** The `maxDrawdown` amount exactly as the result computes it. */
  function MaxDrawdownAsWritten(pct: Extended, maxEquity: real, equity: real): Extended
  {
    Shift(Times(Scale(pct, 0.01), maxEquity), maxEquity - equity)
  }

  /** The deepest drawdown, in money at the final peak. */
  function MaxDrawdownAmount(pct: Extended, maxEquity: real): Extended
  {
    Times(Scale(pct, 0.01), maxEquity)
  }

  /** `totalWins`: the sum of the winners' profits. */
  function GrossProfit(ts: seq<Trade>): real
  {
    Sum(Pnls(Winners(ts)))
  }

  /** The sum of the losers' profits, before `Math.abs`. */
  function GrossLoss(ts: seq<Trade>): real
  {
    Sum(Pnls(Losers(ts)))
  }

  /** `totalWins / totalLosses` with the result's conventions, over the trades' groups. */
  function TradesProfitFactor(ts: seq<Trade>): Extended
  {
    ProfitFactor(GrossProfit(ts), Abs(GrossLoss(ts)))
  }

  /** `Math.max` of the winners' profits, 0 without winners. */
  function LargestWin(ts: seq<Trade>): real
  {
    if |Winners(ts)| > 0 then Largest(Pnls(Winners(ts))) else 0.0
  }

  /** `Math.min` of the losers' profits, 0 without losers. */
  function LargestLoss(ts: seq<Trade>): real
  {
    if |Losers(ts)| > 0 then Smallest(Pnls(Losers(ts))) else 0.0
  }

  /** The statistics of a finished run. */
  function Report(config: BacktestConfig, s: SimState, sqrt: real -> real): (r: BacktestResult)
    ensures r.totalTrades == |s.trades| && r.trades == s.trades && r.equityCurve == s.curve
    ensures r.totalPnL == s.equity - config.initialBalance
    ensures r.maxDrawdownPct == s.maxDrawdown
    ensures r.maxDrawdown == MaxDrawdownAsWritten(s.maxDrawdown, s.maxEquity, s.equity)
    ensures r.winningTrades == |Winners(s.trades)| && r.losingTrades == |Losers(s.trades)|
    ensures r.winRate == WinRate(|Winners(s.trades)|, |s.trades|)
    ensures r.profitFactor == TradesProfitFactor(s.trades)
    ensures r.sharpeRatio == SharpeRatio(Pnls(s.trades), sqrt)
    ensures r.avgWin == PerTrade(GrossProfit(s.trades), |Winners(s.trades)|)
    ensures r.avgLoss == PerTrade(Abs(GrossLoss(s.trades)), |Losers(s.trades)|)
    ensures r.largestWin == LargestWin(s.trades) && r.largestLoss == LargestLoss(s.trades)
    ensures s.trades == [] ==>
      && r.winningTrades == 0 && r.losingTrades == 0
      && r.winRate == 0.0 && r.profitFactor == Finite(0.0) && r.sharpeRatio == 0.0
      && r.avgWin == 0.0 && r.avgLoss == 0.0 && r.avgRR == 0.0
      && r.largestWin == 0.0 && r.largestLoss == 0.0 && r.avgTradeDuration == 0.0
  {
    var winners := Winners(s.trades);
    var losers := Losers(s.trades);
    var avgWin := PerTrade(GrossProfit(s.trades), |winners|);
    var avgLoss := PerTrade(Abs(GrossLoss(s.trades)), |losers|);
    BacktestResult(
      |s.trades|,
      |winners|,
      |losers|,
      WinRate(|winners|, |s.trades|),
      TradesProfitFactor(s.trades),
      s.equity - config.initialBalance,
      MaxDrawdownAsWritten(s.maxDrawdown, s.maxEquity, s.equity),
      s.maxDrawdown,
      SharpeRatio(Pnls(s.trades), sqrt),
      avgWin,
      avgLoss,
      if avgLoss > 0.0 then avgWin / avgLoss else 0.0,
      LargestWin(s.trades),
      LargestLoss(s.trades),
      PerTrade(Sum(Durations(s.trades)), |s.trades|) / 3600000.0,
      s.curve,
      s.trades)
  }

  /** One more bar of the run is one more pass of the loop body. */
  lemma RunStep(config: BacktestConfig, candles: seq<Candle>, strategy: Strategy, s: SimState, n: nat, next: nat)
    requires FirstBar <= n < |candles| && next == n + 1 && s == Run(config, candles, strategy, n)
    ensures Run(config, candles, strategy, next) == Bar(config, candles, strategy, s, n)
  {
    IterateStep(BarStep(config, candles, strategy), Initial(config), n, next);
  }

  lemma IterateStep(step: Step, start: SimState, n: nat, next: nat)
    requires FirstBar <= n && next == n + 1
    ensures Iterate(step, start, next) == step(Iterate(step, start, n), n)
  {
  }

  // ---------------------------------------------------------------- the loop

  /** The simulation loop over bars 50 onwards, for any strategy. */
  method Simulate(config: BacktestConfig, candles: seq<Candle>, strategy: Strategy) returns (final: SimState)
    ensures final == Run(config, candles, strategy, |candles|)
  {
    var trades: seq<Trade> := [];
    var equityCurve: seq<CurvePoint> := [];
    var equity := config.initialBalance;
    var position: Option<SimPosition> := None;
    var maxEquity := equity;
    var maxDrawdown: Extended := Finite(0.0);
    var tradeIdCounter: nat := 0;
    var i: nat := FirstBar;
    while i < |candles|
      invariant FirstBar <= i && (i <= |candles| || i == FirstBar)
      invariant tradeIdCounter == |trades|
      invariant i <= |candles| ==>
        SimState(trades, equityCurve, equity, position, maxEquity, maxDrawdown) == Run(config, candles, strategy, i)
      invariant i > |candles| ==>
        SimState(trades, equityCurve, equity, position, maxEquity, maxDrawdown) == Initial(config)
    {
      ghost var before := SimState(trades, equityCurve, equity, position, maxEquity, maxDrawdown);
      assert before == Run(config, candles, strategy, i);
      var bar := candles[i];
      if position.Some? {
        var exitPrice := StopExit(position.value, bar, config.slippage);
        if exitPrice.Some? {
          var trade := ClosedTrade(config, position.value, exitPrice.value, bar.time, tradeIdCounter);
          tradeIdCounter := tradeIdCounter + 1;
          trades := trades + [trade];
          equity := equity + trade.pnl;
          position := None;
        }
      }
      ghost var stopped := SimState(trades, equityCurve, equity, position, maxEquity, maxDrawdown);
      assert stopped == AfterStops(config, before, bar);
      var action := strategy(candles[..i + 1], position);
      if action.Enter? && position.None? {
        position := Some(Opened(config, action.side, action.sl, action.tp, bar));
      } else if action.Exit? && position.Some? {
        var trade := ClosedTrade(config, position.value, bar.close, bar.time, tradeIdCounter);
        tradeIdCounter := tradeIdCounter + 1;
        trades := trades + [trade];
        equity := equity + trade.pnl;
        position := None;
      }
      ghost var acted := SimState(trades, equityCurve, equity, position, maxEquity, maxDrawdown);
      assert acted == ApplyAction(config, stopped, action, bar);
      maxEquity := Max(maxEquity, equity);
      maxDrawdown := MaxExtended(maxDrawdown, DrawdownPct(maxEquity, equity));
      if i % 10 == 0 {
        equityCurve := equityCurve + [CurvePoint(bar.time, equity)];
      }
      assert SimState(trades, equityCurve, equity, position, maxEquity, maxDrawdown)
        == Bar(config, candles, strategy, before, i);
      ghost var processed := i;
      i := i + 1;
      RunStep(config, candles, strategy, before, processed, i);
    }
    final := SimState(trades, equityCurve, equity, position, maxEquity, maxDrawdown);
    if i <= |candles| {
      assert i == |candles|;
    }
  }

  /** `runBacktest`: the simulation with the configured strategy, then the statistics. */
  method RunBacktest(config: BacktestConfig, candles: seq<Candle>, sqrt: real -> real) returns (result: BacktestResult)
    ensures result == Report(config, Run(config, candles, StrategyFor(config, sqrt), |candles|), sqrt)
  {
    var final := Simulate(config, candles, StrategyFor(config, sqrt));
    result := Report(config, final, sqrt);
  }

  // ---------------------------------------------------------------- properties of a run

  /** The bookkeeping every state of a run satisfies: the `k`-th trade is recorded as the
      loop records it, the open position has the fixed lot size, and the equity is the
      initial balance plus the profit of every trade so far. */
  predicate Books(config: BacktestConfig, s: SimState)
  {
    && (forall k :: 0 <= k < |s.trades| ==> Recorded(config, s.trades[k], k))
    && (s.position.Some? ==> s.position.value.volume == LotSize)
    && s.equity == config.initialBalance + Sum(Pnls(s.trades))
  }

  lemma SumPnlsSnoc(ts: seq<Trade>, t: Trade)
    ensures Sum(Pnls(ts + [t])) == Sum(Pnls(ts)) + t.pnl
  {
    assert Pnls(ts + [t]) == Pnls(ts) + [t.pnl];
    assert (Pnls(ts) + [t.pnl])[..|ts|] == Pnls(ts);
  }

  /** Closing a position records exactly one trade and books exactly its profit. */
  lemma CloseKeepsBooks(config: BacktestConfig, s: SimState, exitPrice: real, closeTime: int)
    requires Books(config, s) && s.position.Some?
    ensures Books(config, Close(config, s, exitPrice, closeTime))
  {
    var r := Close(config, s, exitPrice, closeTime);
    SumPnlsSnoc(s.trades, r.trades[|s.trades|]);
    assert forall k :: 0 <= k < |s.trades| ==> r.trades[k] == s.trades[k];
  }

  /** The stop check keeps the books and records a trade only by closing the position. */
  lemma StopsKeepBooks(config: BacktestConfig, s: SimState, bar: Candle)
    requires Books(config, s)
    ensures var r := AfterStops(config, s, bar);
      && Books(config, r)
      && (r.trades == s.trades || (r.position.None? && |r.trades| == |s.trades| + 1 && r.trades[..|s.trades|] == s.trades))
  {
    if s.position.Some? && StopExit(s.position.value, bar, config.slippage).Some? {
      var r := AfterStops(config, s, bar);
      CloseKeepsBooks(config, s, StopExit(s.position.value, bar, config.slippage).value, bar.time);
      assert r.trades[..|s.trades|] == s.trades;
    }
  }

  /** Acting on the strategy keeps the books and records a trade only by closing a position. */
  lemma ActionKeepsBooks(config: BacktestConfig, s: SimState, action: Action, bar: Candle)
    requires Books(config, s)
    ensures var r := ApplyAction(config, s, action, bar);
      && Books(config, r)
      && (r.trades == s.trades || (s.position.Some? && |r.trades| == |s.trades| + 1 && r.trades[..|s.trades|] == s.trades))
  {
    if action.Exit? && s.position.Some? {
      var r := ApplyAction(config, s, action, bar);
      CloseKeepsBooks(config, s, bar.close, bar.time);
      assert r.trades[..|s.trades|] == s.trades;
    }
  }

  /** One bar keeps the books, adds at most one trade and never rewrites an earlier one. */
  lemma BarKeepsBooks(config: BacktestConfig, candles: seq<Candle>, strategy: Strategy, s: SimState, i: nat)
    requires i < |candles| && Books(config, s)
    ensures var r := Bar(config, candles, strategy, s, i);
      && Books(config, r)
      && |s.trades| <= |r.trades| <= |s.trades| + 1
      && r.trades[..|s.trades|] == s.trades
  {
    var stopped := AfterStops(config, s, candles[i]);
    StopsKeepBooks(config, s, candles[i]);
    var action := strategy(candles[..i + 1], stopped.position);
    var acted := ApplyAction(config, stopped, action, candles[i]);
    ActionKeepsBooks(config, stopped, action, candles[i]);
    var r := Bar(config, candles, strategy, s, i);
    assert r.trades == acted.trades && r.equity == acted.equity && r.position == acted.position;
  }

  /** `step` keeps the books on every bar. */
  ghost predicate KeepsBooks(config: BacktestConfig, step: Step)
  {
    forall s: SimState, i: nat :: Books(config, s) ==> Books(config, step(s, i))
  }

  lemma {:induction false} IterateKeepsBooks(config: BacktestConfig, step: Step, start: SimState, n: nat)
    requires KeepsBooks(config, step) && Books(config, start)
    ensures Books(config, Iterate(step, start, n))
    decreases n
  {
    if n > FirstBar {
      IterateKeepsBooks(config, step, start, n - 1);
    }
  }

  lemma BarStepKeepsBooks(config: BacktestConfig, candles: seq<Candle>, strategy: Strategy)
    ensures KeepsBooks(config, BarStep(config, candles, strategy))
  {
    forall s: SimState, i: nat | Books(config, s)
      ensures Books(config, BarStep(config, candles, strategy)(s, i))
    {
      if i < |candles| {
        BarKeepsBooks(config, candles, strategy, s, i);
      }
    }
  }

  /** Every state of a run keeps the books; in particular the equity is always the initial
      balance plus the sum of the recorded profits. */
  lemma RunKeepsBooks(config: BacktestConfig, candles: seq<Candle>, strategy: Strategy, n: nat)
    ensures Books(config, Run(config, candles, strategy, n))
  {
    BarStepKeepsBooks(config, candles, strategy);
    IterateKeepsBooks(config, BarStep(config, candles, strategy), Initial(config), n);
  }

  /** The drawdown of a state against its running peak, in percent. */
  function CurrentDrawdown(s: SimState): real
    requires s.maxEquity > 0.0
  {
    (s.maxEquity - s.equity) / s.maxEquity * 100.0
  }

  /** The running statistics of a state with a positive initial balance: the peak is at
      least the initial balance and the equity, and the deepest drawdown is a non-negative
      number no smaller than the current one. */
  predicate Peaks(config: BacktestConfig, s: SimState)
  {
    && config.initialBalance <= s.maxEquity
    && s.equity <= s.maxEquity
    && s.maxDrawdown.Finite?
    && 0.0 <= s.maxDrawdown.value
    && (s.maxEquity > 0.0 ==> CurrentDrawdown(s) <= s.maxDrawdown.value)
  }

  /** One bar only raises the peak and the deepest drawdown, and the new deepest drawdown
      is the larger of the old one and the bar's own. */
  lemma BarKeepsPeaks(config: BacktestConfig, candles: seq<Candle>, strategy: Strategy, s: SimState, i: nat)
    requires i < |candles| && config.initialBalance > 0.0 && Peaks(config, s)
    ensures var r := Bar(config, candles, strategy, s, i);
      && Peaks(config, r)
      && s.maxEquity <= r.maxEquity
      && r.maxDrawdown.value == Max(s.maxDrawdown.value, CurrentDrawdown(r))
  {
    var r := Bar(config, candles, strategy, s, i);
    assert r.maxEquity > 0.0;
    assert r.maxEquity - r.equity >= 0.0;
    QuotientNonNegative(r.maxEquity - r.equity, r.maxEquity);
  }

  /** `step` keeps the running statistics sound, never lowers the peak, and takes the
      deeper of the old deepest drawdown and the new current one. */
  ghost predicate RaisesPeaks(config: BacktestConfig, step: Step)
  {
    forall s: SimState, i: nat :: config.initialBalance > 0.0 && Peaks(config, s) ==>
      && Peaks(config, step(s, i))
      && s.maxEquity <= step(s, i).maxEquity
      && step(s, i).maxDrawdown.value == Max(s.maxDrawdown.value, CurrentDrawdown(step(s, i)))
  }

  lemma {:induction false} IterateKeepsPeaks(config: BacktestConfig, step: Step, start: SimState, n: nat)
    requires RaisesPeaks(config, step) && config.initialBalance > 0.0 && Peaks(config, start)
    ensures Peaks(config, Iterate(step, start, n))
    decreases n
  {
    if n > FirstBar {
      IterateKeepsPeaks(config, step, start, n - 1);
    }
  }

  lemma BarStepRaisesPeaks(config: BacktestConfig, candles: seq<Candle>, strategy: Strategy)
    ensures RaisesPeaks(config, BarStep(config, candles, strategy))
  {
    forall s: SimState, i: nat | config.initialBalance > 0.0 && Peaks(config, s)
      ensures var r := BarStep(config, candles, strategy)(s, i);
        && Peaks(config, r)
        && s.maxEquity <= r.maxEquity
        && r.maxDrawdown.value == Max(s.maxDrawdown.value, CurrentDrawdown(r))
    {
      if i < |candles| {
        BarKeepsPeaks(config, candles, strategy, s, i);
      }
    }
  }

  /** With a positive initial balance the peak never falls, the deepest drawdown is a finite
      non-negative percentage, and it is the largest of the drawdowns seen after each bar. */
  lemma RunKeepsPeaks(config: BacktestConfig, candles: seq<Candle>, strategy: Strategy, n: nat)
    requires config.initialBalance > 0.0
    ensures Peaks(config, Run(config, candles, strategy, n))
    ensures FirstBar <= n ==>
      var before := Run(config, candles, strategy, n);
      var after := Run(config, candles, strategy, n + 1);
      before.maxEquity <= after.maxEquity &&
      after.maxDrawdown.value == Max(before.maxDrawdown.value, CurrentDrawdown(after))
  {
    var step := BarStep(config, candles, strategy);
    BarStepRaisesPeaks(config, candles, strategy);
    IterateKeepsPeaks(config, step, Initial(config), n);
    if FirstBar <= n {
      assert Iterate(step, Initial(config), n + 1) == step(Iterate(step, Initial(config), n), n);
    }
  }

  /** Bar `m` adds an equity sample exactly when it is a multiple of ten; counting from bar
      50, the samples so far are those of bars 50, 60, 70, ... */
  lemma SampleCount(m: nat)
    requires m >= FirstBar
    ensures (m + 1 - FirstBar + 9) / 10 == (m - FirstBar + 9) / 10 + (if m % 10 == 0 then 1 else 0)
    ensures m % 10 == 0 ==> FirstBar + 10 * ((m - FirstBar + 9) / 10) == m
  {
    var d := m - FirstBar;
    var q := d / 10;
    var r := d % 10;
    assert d == 10 * q + r && 0 <= r < 10;
    assert m % 10 == r;
    assert (d + 10) / 10 == q + 1;
    assert (d + 9) / 10 == q + (if r == 0 then 0 else 1);
  }

  /** A bar appends its sample, the equity after the bar, exactly when its index is a
      multiple of ten. */
  lemma BarSamples(config: BacktestConfig, candles: seq<Candle>, strategy: Strategy, s: SimState, i: nat)
    requires i < |candles|
    ensures var r := Bar(config, candles, strategy, s, i);
      r.curve == s.curve + SampleAt(i, candles[i], r.equity)
  {
  }

  /** `step` appends bar `i`'s sample to the curve and changes it in no other way. */
  ghost predicate SamplesEveryTenth(candles: seq<Candle>, step: Step)
  {
    forall s: SimState, i: nat :: i < |candles| ==> step(s, i).curve == s.curve + SampleAt(i, candles[i], step(s, i).equity)
  }

  /** The equity samples of the bars before `n`: bars 50, 60, 70, ... each with the
      equity after it. */
  ghost function Samples(step: Step, start: SimState, candles: seq<Candle>, n: nat): seq<CurvePoint>
    requires n <= |candles|
  {
    if n <= FirstBar then []
    else Samples(step, start, candles, n - 1) + SampleAt(n - 1, candles[n - 1], Iterate(step, start, n).equity)
  }

  lemma {:induction false} IterateCurve(step: Step, start: SimState, candles: seq<Candle>, n: nat)
    requires n <= |candles| && SamplesEveryTenth(candles, step) && start.curve == []
    ensures Iterate(step, start, n).curve == Samples(step, start, candles, n)
    decreases n
  {
    if n > FirstBar {
      IterateCurve(step, start, candles, n - 1);
    }
  }

  /** Sample `k` belongs to bar `50 + 10k`, and there is one per tenth bar. */
  lemma {:induction false} SamplesShape(step: Step, start: SimState, candles: seq<Candle>, n: nat)
    requires n <= |candles|
    ensures var samples := Samples(step, start, candles, n);
      && |samples| == (if n <= FirstBar then 0 else (n - FirstBar + 9) / 10)
      && forall k :: 0 <= k < |samples| ==>
           && FirstBar + 10 * k < n
           && samples[k] == CurvePoint(candles[FirstBar + 10 * k].time, Iterate(step, start, FirstBar + 10 * k + 1).equity)
    decreases n
  {
    if n > FirstBar {
      var before := Samples(step, start, candles, n - 1);
      SamplesShape(step, start, candles, n - 1);
      SampleCount(n - 1);
      if (n - 1) % 10 == 0 {
        var k := |before|;
        assert FirstBar + 10 * k == n - 1;
      }
    }
  }

  lemma BarStepSamples(config: BacktestConfig, candles: seq<Candle>, strategy: Strategy)
    ensures SamplesEveryTenth(candles, BarStep(config, candles, strategy))
  {
    forall s: SimState, i: nat | i < |candles|
      ensures var r := BarStep(config, candles, strategy)(s, i);
        r.curve == s.curve + SampleAt(i, candles[i], r.equity)
    {
      BarSamples(config, candles, strategy, s, i);
    }
  }

  /** The equity curve holds one point for every tenth bar from bar 50 on: point `k` is bar
      `50 + 10k`, with the equity after that bar. */
  lemma CurveSampling(config: BacktestConfig, candles: seq<Candle>, strategy: Strategy, n: nat)
    requires FirstBar <= n <= |candles|
    ensures var curve := Run(config, candles, strategy, n).curve;
      && |curve| == (n - FirstBar + 9) / 10
      && forall k :: 0 <= k < |curve| ==>
           && FirstBar + 10 * k < n
           && curve[k].time == candles[FirstBar + 10 * k].time
           && curve[k].equity == Run(config, candles, strategy, FirstBar + 10 * k + 1).equity
  {
    var step := BarStep(config, candles, strategy);
    BarStepSamples(config, candles, strategy);
    IterateCurve(step, Initial(config), candles, n);
    SamplesShape(step, Initial(config), candles, n);
  }

  /** The price the stop fills at: `slippage` pips beyond the stop level. */
  function StopFill(p: SimPosition, slippage: real): real
  {
    if p.side == Buy then p.sl - slippage * 0.0001 else p.sl + slippage * 0.0001
  }

  /** The bar reached the stop: at or below it for a long, at or above it for a short. */
  predicate StopTouched(p: SimPosition, bar: Candle)
  {
    if p.side == Buy then bar.low <= p.sl else bar.high >= p.sl
  }

  /** The bar reached the target: at or above it for a long, at or below it for a short. */
  predicate TargetTouched(p: SimPosition, bar: Candle)
  {
    if p.side == Buy then bar.high >= p.tp else bar.low <= p.tp
  }

  /** On a bar that reaches the stop the position closes at the stop fill, even when the
      bar also reaches the target; otherwise a bar that reaches the target closes it at the
      target; otherwise only the strategy can close it, at the bar's close. Either way the
      bar records exactly one trade when the stop or the target is reached. */
  lemma StopBeforeTarget(config: BacktestConfig, candles: seq<Candle>, strategy: Strategy, s: SimState, i: nat)
    requires i < |candles| && s.position.Some?
    ensures var p := s.position.value;
      var bar := candles[i];
      var r := Bar(config, candles, strategy, s, i);
      && (StopTouched(p, bar) ==>
            |r.trades| == |s.trades| + 1 && r.trades[|s.trades|].exitPrice == StopFill(p, config.slippage)
            && r.trades[|s.trades|].closeTime == bar.time)
      && (!StopTouched(p, bar) && TargetTouched(p, bar) ==>
            |r.trades| == |s.trades| + 1 && r.trades[|s.trades|].exitPrice == p.tp
            && r.trades[|s.trades|].closeTime == bar.time)
      && (!StopTouched(p, bar) && !TargetTouched(p, bar) ==>
            r.trades == s.trades || (|r.trades| == |s.trades| + 1 && r.trades[|s.trades|].exitPrice == bar.close))
  {
  }

  /** An open position is never replaced: a bar that ends with a different position than the
      one that survived its stop check opened it on this bar, from flat. */
  lemma EntryOnlyWhenFlat(config: BacktestConfig, candles: seq<Candle>, strategy: Strategy, s: SimState, i: nat)
    requires i < |candles|
    ensures var stopped := AfterStops(config, s, candles[i]);
      var r := Bar(config, candles, strategy, s, i);
      && (stopped.position.Some? ==> r.position == stopped.position || r.position.None?)
      && (r.position.Some? && r.position != stopped.position ==>
            stopped.position.None? && r.position.value.entryTime == candles[i].time)
  {
  }

  // ---------------------------------------------------------------- properties of the report

  /** The filters and the profit list grow by one trade at a time. */
  lemma TradesSnoc(init: seq<Trade>, t: Trade)
    ensures Winners(init + [t]) == Winners(init) + (if t.pnl > 0.0 then [t] else [])
    ensures Losers(init + [t]) == Losers(init) + (if t.pnl <= 0.0 then [t] else [])
  {
    assert (init + [t])[..|init|] == init;
  }

  /** A trade is a winner exactly when it is one of the trades and made a profit, and a
      loser exactly when it is one of the trades and did not. */
  lemma {:induction false} WinnersLosersMembers(ts: seq<Trade>)
    ensures forall t :: t in Winners(ts) <==> t in ts && t.pnl > 0.0
    ensures forall t :: t in Losers(ts) <==> t in ts && t.pnl <= 0.0
    decreases |ts|
  {
    if ts != [] {
      var init := ts[..|ts| - 1];
      var t := ts[|ts| - 1];
      assert ts == init + [t];
      WinnersLosersMembers(init);
      TradesSnoc(init, t);
    }
  }

  /** Every trade is kept by exactly one of the two filters, as often as it occurs. */
  lemma {:induction false} WinnersLosersSplit(ts: seq<Trade>)
    ensures multiset(Winners(ts)) + multiset(Losers(ts)) == multiset(ts)
    decreases |ts|
  {
    if ts != [] {
      var t := ts[|ts| - 1];
      assert ts == ts[..|ts| - 1] + [t];
      WinnersLosersSplit(ts[..|ts| - 1]);
    }
  }

  /** Every trade is either a winner (profit above zero) or a loser (zero or below), and the
      two groups' profits add up to the total. */
  lemma {:induction false} WinnersLosersPartition(ts: seq<Trade>)
    ensures |Winners(ts)| + |Losers(ts)| == |ts|
    ensures Sum(Pnls(Winners(ts))) + Sum(Pnls(Losers(ts))) == Sum(Pnls(ts))
    decreases |ts|
  {
    if ts != [] {
      var t := ts[|ts| - 1];
      assert ts == ts[..|ts| - 1] + [t];
      WinnersLosersPartition(ts[..|ts| - 1]);
      TradesSnoc(ts[..|ts| - 1], t);
      SumPnlsSnoc(ts[..|ts| - 1], t);
      if t.pnl > 0.0 {
        assert Winners(ts) == Winners(ts[..|ts| - 1]) + [t];
        assert Losers(ts) == Losers(ts[..|ts| - 1]);
        SumPnlsSnoc(Winners(ts[..|ts| - 1]), t);
      } else {
        assert Winners(ts) == Winners(ts[..|ts| - 1]);
        assert Losers(ts) == Losers(ts[..|ts| - 1]) + [t];
        SumPnlsSnoc(Losers(ts[..|ts| - 1]), t);
      }
    }
  }

  /** Winners sum to a positive amount exactly when there are any; losers never sum above 0. */
  lemma {:induction false} GroupSums(ts: seq<Trade>)
    ensures Sum(Pnls(Winners(ts))) > 0.0 <==> |Winners(ts)| > 0
    ensures Sum(Pnls(Winners(ts))) >= 0.0
    ensures Sum(Pnls(Losers(ts))) <= 0.0
    decreases |ts|
  {
    if ts != [] {
      var t := ts[|ts| - 1];
      assert ts == ts[..|ts| - 1] + [t];
      GroupSums(ts[..|ts| - 1]);
      TradesSnoc(ts[..|ts| - 1], t);
      if t.pnl > 0.0 {
        assert Winners(ts) == Winners(ts[..|ts| - 1]) + [t];
        assert Losers(ts) == Losers(ts[..|ts| - 1]);
        SumPnlsSnoc(Winners(ts[..|ts| - 1]), t);
      } else {
        assert Winners(ts) == Winners(ts[..|ts| - 1]);
        assert Losers(ts) == Losers(ts[..|ts| - 1]) + [t];
        SumPnlsSnoc(Losers(ts[..|ts| - 1]), t);
      }
    }
  }

  /** Winners and losers partition the trades and the win rate is a percentage. */
  lemma ReportCounts(config: BacktestConfig, s: SimState, sqrt: real -> real)
    ensures var r := Report(config, s, sqrt);
      && r.winningTrades + r.losingTrades == r.totalTrades
      && 0.0 <= r.winRate <= 100.0
  {
    WinnersLosersPartition(s.trades);
    var r := Report(config, s, sqrt);
    assert r.winningTrades == |Winners(s.trades)| && r.losingTrades == |Losers(s.trades)|;
    assert r.winRate == WinRate(|Winners(s.trades)|, |s.trades|);
  }

  /** The profit factor is 0 without winners, +∞ with winners and no net loss, and
      otherwise the non-negative ratio of gross profit to gross loss. */
  lemma ProfitFactorCases(ts: seq<Trade>)
    ensures |Winners(ts)| == 0 ==> TradesProfitFactor(ts) == Finite(0.0)
    ensures |Winners(ts)| > 0 && GrossLoss(ts) == 0.0 ==> TradesProfitFactor(ts) == PositiveInfinity
    ensures GrossLoss(ts) < 0.0 ==>
      && TradesProfitFactor(ts) == Finite(GrossProfit(ts) / -GrossLoss(ts))
      && GrossProfit(ts) / -GrossLoss(ts) >= 0.0
  {
    GroupSums(ts);
    GroupsProfitFactor(GrossProfit(ts), GrossLoss(ts));
  }

  /** The profit factor of a non-negative gross profit and a non-positive gross loss. */
  lemma GroupsProfitFactor(wins: real, losses: real)
    requires wins >= 0.0 && losses <= 0.0
    ensures wins == 0.0 ==> ProfitFactor(wins, Abs(losses)) == Finite(0.0)
    ensures wins > 0.0 && losses == 0.0 ==> ProfitFactor(wins, Abs(losses)) == PositiveInfinity
    ensures losses < 0.0 ==>
      && ProfitFactor(wins, Abs(losses)) == Finite(wins / -losses)
      && wins / -losses >= 0.0
  {
    if losses < 0.0 && wins == 0.0 {
      assert wins / -losses == 0.0;
    }
  }

  /** The largest win is positive when there are winners and the largest loss is never
      positive. */
  lemma ExtremesSigns(ts: seq<Trade>)
    ensures |Winners(ts)| > 0 ==> LargestWin(ts) > 0.0
    ensures LargestLoss(ts) <= 0.0
  {
  }

  /** The reported total profit is the sum of the trades' profits. */
  lemma TotalPnLIsSumOfTrades(config: BacktestConfig, candles: seq<Candle>, sqrt: real -> real)
    ensures var s := Run(config, candles, StrategyFor(config, sqrt), |candles|);
      Report(config, s, sqrt).totalPnL == Sum(Pnls(s.trades))
  {
    RunKeepsBooks(config, candles, StrategyFor(config, sqrt), |candles|);
  }

  // ---------------------------------------------------------------- the drawdown amount

  /** As written, the amount adds the final shortfall below the peak to the deepest
      drawdown. */
  lemma MaxDrawdownAsWrittenAddsShortfall(pct: Extended, maxEquity: real, equity: real)
    requires pct.Finite?
    ensures MaxDrawdownAsWritten(pct, maxEquity, equity)
      == Finite(MaxDrawdownAmount(pct, maxEquity).value + (maxEquity - equity))
  {
  }

  /** Initial balance 1000 and a single trade losing 100: the deepest drawdown is 10% of a
      peak of 1000, but as written the amount is reported as 200. */
  lemma MaxDrawdownAsWrittenCountsTwice()
    ensures MaxDrawdownAsWritten(Finite(10.0), 1000.0, 900.0) == Finite(200.0)
    ensures MaxDrawdownAmount(Finite(10.0), 1000.0) == Finite(100.0)
  {
  }

  lemma ShortfallFromPercent(pct: real, maxEquity: real, equity: real)
    requires maxEquity > 0.0 && (maxEquity - equity) / maxEquity * 100.0 <= pct
    ensures maxEquity - equity <= pct * 0.01 * maxEquity
    ensures (maxEquity - equity) / maxEquity * 100.0 == pct ==> maxEquity - equity == pct * 0.01 * maxEquity
  {
    var c := (maxEquity - equity) / maxEquity;
    assert c * maxEquity == maxEquity - equity;
    assert c <= pct * 0.01;
    assert c * maxEquity <= pct * 0.01 * maxEquity;
  }

  /** For a state whose running statistics are sound, the amount is a finite sum of money,
      at least the current shortfall below the peak, and exactly that shortfall when the
      current drawdown is the deepest one. */
  lemma AmountCoversShortfall(config: BacktestConfig, s: SimState)
    requires config.initialBalance > 0.0 && Peaks(config, s)
    ensures s.maxEquity > 0.0
    ensures MaxDrawdownAmount(s.maxDrawdown, s.maxEquity).Finite?
    ensures 0.0 <= s.maxEquity - s.equity <= MaxDrawdownAmount(s.maxDrawdown, s.maxEquity).value
    ensures s.maxDrawdown.value == CurrentDrawdown(s) ==>
      MaxDrawdownAmount(s.maxDrawdown, s.maxEquity).value == s.maxEquity - s.equity
  {
    ShortfallFromPercent(s.maxDrawdown.value, s.maxEquity, s.equity);
  }

  /** With a positive initial balance this holds after every bar of a run. */
  lemma MaxDrawdownAmountCoversShortfall(config: BacktestConfig, candles: seq<Candle>, strategy: Strategy, n: nat)
    requires config.initialBalance > 0.0
    ensures var s := Run(config, candles, strategy, n);
      && s.maxEquity > 0.0
      && MaxDrawdownAmount(s.maxDrawdown, s.maxEquity).Finite?
      && 0.0 <= s.maxEquity - s.equity <= MaxDrawdownAmount(s.maxDrawdown, s.maxEquity).value
  {
    RunKeepsPeaks(config, candles, strategy, n);
    AmountCoversShortfall(config, Run(config, candles, strategy, n));
  }

  /** The amount the result reports after a run with a positive initial balance: the
      deepest drawdown in money plus the final shortfall below the peak, so it is never
      below the corrected amount and equals it only when the run ends at its peak. */
  lemma ReportedDrawdownAddsShortfall(config: BacktestConfig, candles: seq<Candle>, sqrt: real -> real)
    requires config.initialBalance > 0.0
    ensures var s := Run(config, candles, StrategyFor(config, sqrt), |candles|);
      var reported := Report(config, s, sqrt).maxDrawdown;
      && reported.Finite? && MaxDrawdownAmount(s.maxDrawdown, s.maxEquity).Finite?
      && reported.value == MaxDrawdownAmount(s.maxDrawdown, s.maxEquity).value + (s.maxEquity - s.equity)
      && reported.value >= MaxDrawdownAmount(s.maxDrawdown, s.maxEquity).value
      && (reported.value == MaxDrawdownAmount(s.maxDrawdown, s.maxEquity).value <==> s.equity == s.maxEquity)
  {
    var s := Run(config, candles, StrategyFor(config, sqrt), |candles|);
    MaxDrawdownAmountCoversShortfall(config, candles, StrategyFor(config, sqrt), |candles|);
    MaxDrawdownAsWrittenAddsShortfall(s.maxDrawdown, s.maxEquity, s.equity);
  }

  // ---------------------------------------------------------------- the Sharpe ratio

  /** With a positive √252, the ratio is 0 without spread in the returns, and otherwise
      has the sign of the mean return. */
  lemma SharpeRatioSign(pnls: seq<real>, sqrt: real -> real)
    requires sqrt(252.0) > 0.0
    ensures var r, avg, sd := SharpeRatio(pnls, sqrt), MeanOrZero(pnls), ReturnsStdDev(pnls, sqrt);
      && (sd <= 0.0 ==> r == 0.0)
      && (sd > 0.0 ==> (r > 0.0 <==> avg > 0.0) && (r < 0.0 <==> avg < 0.0))
  {
    var avg, sd := MeanOrZero(pnls), ReturnsStdDev(pnls, sqrt);
    if sd > 0.0 {
      var q := avg / sd;
      assert q * sd == avg;
      assert q > 0.0 <==> avg > 0.0;
      assert q < 0.0 <==> avg < 0.0;
      assert SharpeRatio(pnls, sqrt) == q * sqrt(252.0);
    }
  }

  /** Returns that are all equal have no spread, so the ratio is 0 whatever their value. */
  lemma SharpeRatioOfEqualReturns(pnls: seq<real>, c: real, sqrt: real -> real)
    requires sqrt(0.0) == 0.0
    requires forall k :: 0 <= k < |pnls| ==> pnls[k] == c
    ensures ReturnsStdDev(pnls, sqrt) == 0.0
    ensures SharpeRatio(pnls, sqrt) == 0.0
  {
    var avg := MeanOrZero(pnls);
    if |pnls| > 0 {
      SumConstant(pnls, c);
      assert avg == c;
    }
    var deviations := SquaredDeviations(pnls, avg);
    if |pnls| > 0 {
      assert forall k :: 0 <= k < |deviations| ==> deviations[k] == 0.0;
      SumConstant(deviations, 0.0);
    }
    assert MeanOrZero(deviations) == 0.0;
  }
}
