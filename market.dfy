/** The data model shared by the edge functions and the client: candles, positions,
    account snapshots and trade signals. */
module Market {
  import opened Wrappers
  import opened Numeric

  datatype Side = Buy | Sell

  /** A price bar. An absent symbol or timeframe is the empty string. Times are milliseconds. */
  datatype Candle = Candle(
    symbol: string,
    timeframe: string,
    time: int,
    open: real,
    high: real,
    low: real,
    close: real,
    volume: real)

  /** `candles.map(c => c.close)`. */
  function Closes(candles: seq<Candle>): (closes: seq<real>)
    ensures |closes| == |candles|
    ensures forall i :: 0 <= i < |candles| ==> closes[i] == candles[i].close
  {
    seq(|candles|, i requires 0 <= i < |candles| => candles[i].close)
  }

  /** Every bar's low is at or below its high. */
  predicate WellFormed(candles: seq<Candle>)
  {
    forall i :: 0 <= i < |candles| ==> candles[i].low <= candles[i].high
  }

  datatype PositionStatus = StatusOpen | StatusClosed | StatusPending

  /** An open position as the broker reports it. */
  datatype Position = Position(
    id: string,
    ticket: nat,
    symbol: string,
    side: Side,
    volume: real,
    openPrice: real,
    currentPrice: real,
    sl: real,
    tp: real,
    profit: real,
    openTime: int,
    status: Option<PositionStatus>)

  datatype AccountInfo = AccountInfo(
    balance: real,
    equity: real,
    margin: real,
    freeMargin: real,
    currency: string)

  datatype SignalKind = OpenSignal | CloseSignal | HoldSignal | ModifySignal

  /** Why a strategy produced a signal; the text rendering of these is not modelled. */
  datatype Reason =
    | MaCrossUp(fast: nat, slow: nat)
    | MaCrossDown(fast: nat, slow: nat)
    | RsiLeftOversold(period: nat, level: real)
    | RsiLeftOverbought(period: nat, level: real)
    | TouchedLowerBand
    | TouchedUpperBand
    | Text(text: string)

  /** A trade signal. `slPips`/`tpPips` are `None` when absent; the risk engines treat
      `Some(0.0)` like an absent value, as JavaScript's `||` does. */
  datatype Signal = Signal(
    kind: SignalKind,
    side: Option<Side>,
    symbol: string,
    reason: Reason,
    confidence: real,
    slPips: Option<real>,
    tpPips: Option<real>,
    timestamp: int)

  /** `x || d` for an optional number: absent and zero both fall back to `d`. */
  function PipsOr(x: Option<real>, d: real): (r: real)
    ensures x.Some? && x.value != 0.0 ==> r == x.value
    ensures x.None? || x.value == 0.0 ==> r == d
  {
    if x.Some? && x.value != 0.0 then x.value else d
  }

  /** The drawdown in percent of a start balance, `((start - equity) / start) * 100`, with
      the infinities and NaN that a zero start balance gives. */
  function DrawdownPct(start: real, equity: real): (d: Extended)
    ensures start != 0.0 ==> d == Finite((start - equity) / start * 100.0)
  {
    Scale(Divide(start - equity, start), 100.0)
  }
}
