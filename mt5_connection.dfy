/** The client-side state of the MT5 bridge connection hook: the log buffer, the API-key
    guard in front of `connect`, the socket's open, error and close handlers, and the
    reducers applied to the bridge's messages. The socket itself, its timers and the toasts
    are not modelled; `Date.now()` is the parameter `now`. */
module Mt5Connection {
  import opened Wrappers
  import opened Numeric
  import opened Market
  import opened Text

  datatype ConnectionStatus = Disconnected | Connecting | Connected | Error

  /** One line of the activity log. */
  datatype LogEntry = LogEntry(time: int, level: string, message: string)

  /** The bridge's messages by `type`. Numbers and payloads that the hook interpolates into
      a log line are carried as the text they render to. `OtherMessage` is `pong` or an
      unknown type. */
  datatype Message =
    | Welcome
    | AuthSuccess
    | AuthFailed(error: string)
    | Tick(symbol: string, bid: string, ask: string)
    | CandleMessage(candle: Candle)
    | AccountUpdate(account: AccountInfo, balance: string)
    | OrderUpdate(position: Position)
    | OrderResult(payload: string)
    | Command(action: string)
    | KillSwitch(reason: string)
    | ErrorMessage(error: string)
    | OtherMessage

  const LogCapacity: nat := 100
  const CandleCapacity: nat := 100

  // ---------------------------------------------------------------- generic list helpers

  /** `findIndex`: the first position whose element satisfies `p`. */
  function FindIndex<T>(s: seq<T>, p: T -> bool): (r: Option<nat>)
    ensures r.Some? ==> r.value < |s| && p(s[r.value]) && forall j :: 0 <= j < r.value ==> !p(s[j])
    ensures r.None? ==> forall j :: 0 <= j < |s| ==> !p(s[j])
  {
    if s == [] then None
    else if p(s[0]) then Some(0)
    else match FindIndex(s[1..], p)
      case Some(k) => Some(k + 1)
      case None => None
  }

  /** `filter`: the elements satisfying `p`, in their original order. */
  function Filter<T>(s: seq<T>, p: T -> bool): (r: seq<T>)
    ensures |r| <= |s|
    ensures forall k :: 0 <= k < |r| ==> p(r[k]) && r[k] in s
    ensures forall k :: 0 <= k < |s| && p(s[k]) ==> s[k] in r
  {
    if s == [] then []
    else (if p(s[0]) then [s[0]] else []) + Filter(s[1..], p)
  }

  /** `slice(-n)`: the last `n` elements, or all of them when there are fewer. */
  function LastN<T>(s: seq<T>, n: nat): (r: seq<T>)
    ensures |r| == if |s| <= n then |s| else n
    ensures r == s[|s| - |r|..]
  {
    if |s| <= n then s else s[|s| - n..]
  }

  /** `prev.slice(0, n)`: the first `n` elements, or all of them when there are fewer. */
  function FirstN<T>(s: seq<T>, n: nat): (r: seq<T>)
    ensures |r| == if |s| <= n then |s| else n
    ensures forall k :: 0 <= k < |r| ==> r[k] == s[k]
  {
    if |s| <= n then s else s[..n]
  }

  function Reversed<T>(s: seq<T>): (r: seq<T>)
    ensures |r| == |s|
    ensures forall k :: 0 <= k < |s| ==> r[k] == s[|s| - 1 - k]
  {
    if s == [] then [] else [s[|s| - 1]] + Reversed(s[..|s| - 1])
  }

  // ---------------------------------------------------------------- the log

  /** `addLog`: the new entry goes first and only the 99 most recent older entries stay,
      in their order, so the log never holds more than 100 entries. */
  function WithLog(logs: seq<LogEntry>, entry: LogEntry): (r: seq<LogEntry>)
    ensures |r| == if |logs| < LogCapacity then |logs| + 1 else LogCapacity
    ensures r[0] == entry
    ensures forall k :: 1 <= k < |r| ==> r[k] == logs[k - 1]
  {
    [entry] + FirstN(logs, LogCapacity - 1)
  }

  /** The log after the entries have been added one after the other, oldest first. */
  function LogAll(logs: seq<LogEntry>, entries: seq<LogEntry>): seq<LogEntry>
  {
    if entries == [] then logs
    else WithLog(LogAll(logs, entries[..|entries| - 1]), entries[|entries| - 1])
  }

  /** Whatever is logged, the log shows the most recent 100 entries, newest first: the
      added entries in reverse order of arrival, then the older log. */
  lemma {:induction false} LogAllKeepsNewest(logs: seq<LogEntry>, entries: seq<LogEntry>)
    requires |logs| <= LogCapacity
    ensures var all := Reversed(entries) + logs;
      LogAll(logs, entries) == FirstN(all, LogCapacity)
    decreases |entries|
  {
    if entries != [] {
      var init := entries[..|entries| - 1];
      var last := entries[|entries| - 1];
      LogAllKeepsNewest(logs, init);
      var before := LogAll(logs, init);
      var all := Reversed(entries) + logs;
      var prior := Reversed(init) + logs;
      assert all == [last] + prior;
      var r := LogAll(logs, entries);
      assert r == WithLog(before, last);
      assert |r| == |FirstN(all, LogCapacity)|;
      forall k | 0 <= k < |r|
        ensures r[k] == FirstN(all, LogCapacity)[k]
      {
        if k > 0 {
          assert r[k] == before[k - 1] == prior[k - 1] == all[k];
        }
      }
    }
  }

  // ---------------------------------------------------------------- candles

  /** Two candles for the same bar: same open time and same symbol. */
  predicate SameBar(a: Candle, b: Candle)
  {
    a.time == b.time && a.symbol == b.symbol
  }

  /** No two candles in the buffer are for the same bar. */
  predicate BarsDistinct(candles: seq<Candle>)
  {
    forall i, j :: 0 <= i < j < |candles| ==> !SameBar(candles[i], candles[j])
  }

  /** The test `c.time === newCandle.time && c.symbol === newCandle.symbol`. */
  function BarOf(candle: Candle): Candle -> bool
  {
    (c: Candle) => SameBar(c, candle)
  }

  /** The `candle` reducer: a candle for a bar already in the buffer replaces that entry
      in place; any other candle is appended after the 99 most recent entries. */
  function UpsertCandle(candles: seq<Candle>, candle: Candle): (r: seq<Candle>)
    ensures match FindIndex(candles, BarOf(candle))
      case Some(k) => (|r| == |candles| && r[k] == candle
        && forall j :: 0 <= j < |r| && j != k ==> r[j] == candles[j])
      case None => (|r| == (if |candles| < CandleCapacity then |candles| + 1 else CandleCapacity)
        && r[|r| - 1] == candle
        && r[..|r| - 1] == candles[|candles| - (|r| - 1)..])
  {
    match FindIndex(candles, BarOf(candle))
    case Some(k) => candles[k := candle]
    case None => LastN(candles, CandleCapacity - 1) + [candle]
  }

  /** The upsert keeps a buffer within its 100 entries and its bars distinct, and the
      new candle is then the one entry for its bar. */
  lemma UpsertCandleKeepsBuffer(candles: seq<Candle>, candle: Candle)
    requires |candles| <= CandleCapacity && BarsDistinct(candles)
    ensures var r := UpsertCandle(candles, candle);
      && |r| <= CandleCapacity
      && BarsDistinct(r)
      && candle in r
      && forall c :: c in r && SameBar(c, candle) ==> c == candle
  {
    var r := UpsertCandle(candles, candle);
    match FindIndex(candles, BarOf(candle))
    case Some(k) =>
      forall i, j | 0 <= i < j < |r|
        ensures !SameBar(r[i], r[j])
      {
        if i != k && j != k {
          assert r[i] == candles[i] && r[j] == candles[j];
        } else if i == k {
          assert SameBar(candles[k], candle) && r[j] == candles[j];
        } else {
          assert SameBar(candles[k], candle) && r[i] == candles[i];
        }
      }
    case None =>
      forall i, j | 0 <= i < j < |r|
        ensures !SameBar(r[i], r[j])
      {
        var offset := |candles| - (|r| - 1);
        assert r[i] == r[..|r| - 1][i] == candles[offset + i];
        if j < |r| - 1 {
          assert r[j] == r[..|r| - 1][j] == candles[offset + j];
        }
      }
      assert r[|r| - 1] == candle;
  }

  // ---------------------------------------------------------------- positions

  predicate IsClosed(position: Position)
  {
    position.status == Some(StatusClosed)
  }

  /** No ticket appears twice among the positions. */
  predicate TicketsDistinct(positions: seq<Position>)
  {
    forall i, j :: 0 <= i < j < |positions| ==> positions[i].ticket != positions[j].ticket
  }

  /** `p.ticket === ticket`. */
  function HasTicket(ticket: nat): Position -> bool
  {
    (q: Position) => q.ticket == ticket
  }

  /** `p.ticket !== ticket`. */
  function OtherTicket(ticket: nat): Position -> bool
  {
    (q: Position) => q.ticket != ticket
  }

  /** The `order_update` reducer: a closed position removes every position with its
      ticket; any other status replaces the first position with that ticket in place, or
      is appended when there is none. */
  function ApplyOrderUpdate(positions: seq<Position>, position: Position): (r: seq<Position>)
    ensures IsClosed(position) ==>
      && (forall q :: q in r ==> q.ticket != position.ticket && q in positions)
      && (forall q :: q in positions && q.ticket != position.ticket ==> q in r)
    ensures !IsClosed(position) ==> match FindIndex(positions, HasTicket(position.ticket))
      case Some(k) => (|r| == |positions| && r[k] == position
        && forall j :: 0 <= j < |r| && j != k ==> r[j] == positions[j])
      case None => r == positions + [position]
  {
    var existing := FindIndex(positions, HasTicket(position.ticket));
    if IsClosed(position) then Filter(positions, OtherTicket(position.ticket))
    else match existing
      case Some(k) => positions[k := position]
      case None => positions + [position]
  }

  /** Order updates keep tickets distinct; afterwards a closed ticket is gone and any
      other update is the one position holding its ticket. */
  lemma {:induction false} OrderUpdateKeepsTicketsDistinct(positions: seq<Position>, position: Position)
    requires TicketsDistinct(positions)
    ensures var r := ApplyOrderUpdate(positions, position);
      && TicketsDistinct(r)
      && (IsClosed(position) ==> forall q :: q in r ==> q.ticket != position.ticket)
      && (!IsClosed(position) ==> position in r && forall q :: q in r && q.ticket == position.ticket ==> q == position)
  {
    var r := ApplyOrderUpdate(positions, position);
    if IsClosed(position) {
      FilterKeepsTicketsDistinct(positions, OtherTicket(position.ticket));
    } else {
      match FindIndex(positions, HasTicket(position.ticket))
      case Some(k) =>
        forall i, j | 0 <= i < j < |r|
          ensures r[i].ticket != r[j].ticket
        {
          if i != k && j != k {
            assert r[i] == positions[i] && r[j] == positions[j];
          } else if i == k {
            assert r[j] == positions[j];
          } else {
            assert r[i] == positions[i];
          }
        }
        assert r[k] == position;
      case None =>
        assert r[|r| - 1] == position;
    }
  }

  /** Filtering keeps tickets distinct and the surviving positions in order. */
  lemma {:induction false} FilterKeepsTicketsDistinct(positions: seq<Position>, p: Position -> bool)
    requires TicketsDistinct(positions)
    ensures TicketsDistinct(Filter(positions, p))
    decreases |positions|
  {
    if positions != [] {
      var rest := positions[1..];
      assert TicketsDistinct(rest) by {
        forall i, j | 0 <= i < j < |rest|
          ensures rest[i].ticket != rest[j].ticket
        {
          assert rest[i] == positions[i + 1] && rest[j] == positions[j + 1];
        }
      }
      FilterKeepsTicketsDistinct(rest, p);
      var tail := Filter(rest, p);
      if p(positions[0]) {
        forall q | q in tail
          ensures q.ticket != positions[0].ticket
        {
          var m :| 0 <= m < |rest| && rest[m] == q;
          assert positions[m + 1] == q;
        }
      }
    }
  }

  // ---------------------------------------------------------------- trading flag and guard

  /** `isTrading` after a message: a `start` command sets it, a `stop` command and the kill
      switch clear it, anything else leaves it. */
  function TradingAfter(isTrading: bool, message: Message): (t: bool)
    ensures message == Command("start") ==> t
    ensures message == Command("stop") || message.KillSwitch? ==> !t
    ensures !isTrading && t ==> message == Command("start")
    ensures isTrading && !t ==> message == Command("stop") || message.KillSwitch?
  {
    match message
    case Command(action) => if action == "start" then true else if action == "stop" then false else isTrading
    case KillSwitch(_) => false
    case _ => isTrading
  }

  /** `connect` goes ahead only with an API key at least 8 UTF-16 code units long. */
  function KeyAccepted(apiKey: Option<string>): (ok: bool)
    ensures ok <==> apiKey.Some? && Utf16Length(apiKey.value) >= 8
    ensures apiKey.Some? && |apiKey.value| >= 8 ==> ok
    ensures apiKey.Some? && |apiKey.value| < 4 ==> !ok
  {
    match apiKey
    case Some(key) =>
      Utf16LengthBounds(key);
      !(Utf16Length(key) < 8)
    case None => false
  }

  /** Four characters beyond the Basic Multilingual Plane make a key of length 8, which is
      accepted although it holds only four characters. */
  lemma AstralKeyAccepted()
    ensures KeyAccepted(Some("\U{1F511}\U{1F511}\U{1F511}\U{1F511}"))
  {
    Utf16LengthOfAstralKey();
  }

  /** `reason || 'Emergency stop'`. */
  function KillSwitchReason(reason: string): string
  {
    if reason == "" then "Emergency stop" else reason
  }

  /** `Order <ticket>: <status>`. */
  function StatusText(status: Option<PositionStatus>): string
  {
    match status
    case Some(StatusOpen) => "open"
    case Some(StatusClosed) => "closed"
    case Some(StatusPending) => "pending"
    case None => "undefined"
  }

  // ---------------------------------------------------------------- the hook's state

  /** The state the hook keeps: connection status, account, the trading flag and the three
      buffers. `socketOpen` stands for `wsRef.current?.readyState === WebSocket.OPEN`. */
  class Mt5Session {
    var status: ConnectionStatus
    var socketOpen: bool
    var isTrading: bool
    var accountInfo: Option<AccountInfo>
    var logs: seq<LogEntry>
    var candles: seq<Candle>
    var positions: seq<Position>

    /** The buffers stay within their capacities, candles are one per bar and tickets
        are distinct. */
    predicate Valid()
      reads this
    {
      |logs| <= LogCapacity && |candles| <= CandleCapacity && BarsDistinct(candles) && TicketsDistinct(positions)
    }

    constructor ()
      ensures Valid()
      ensures status == Disconnected && !socketOpen && !isTrading && accountInfo.None?
      ensures logs == [] && candles == [] && positions == []
    {
      status := Disconnected;
      socketOpen := false;
      isTrading := false;
      accountInfo := None;
      logs := [];
      candles := [];
      positions := [];
    }

    method AddLog(message: string, level: string, now: int)
      requires Valid()
      modifies this
      ensures Valid()
      ensures logs == WithLog(old(logs), LogEntry(now, level, message))
      ensures status == old(status) && socketOpen == old(socketOpen) && isTrading == old(isTrading)
      ensures accountInfo == old(accountInfo) && candles == old(candles) && positions == old(positions)
    {
      logs := WithLog(logs, LogEntry(now, level, message));
    }

    /** The start of `connect`: a missing or short key sets the status to error and opens
        nothing; an open socket is left alone; otherwise the status becomes connecting and
        `opening` says that a socket is to be created. */
    method Connect(apiKey: Option<string>, now: int) returns (opening: bool)
      requires Valid()
      modifies this
      ensures Valid()
      ensures opening <==> KeyAccepted(apiKey) && !old(socketOpen)
      ensures !KeyAccepted(apiKey) ==> (status == Error
        && logs == WithLog(old(logs), LogEntry(now, "info", "API key is required to connect")))
      ensures KeyAccepted(apiKey) && old(socketOpen) ==> (status == old(status)
        && logs == WithLog(old(logs), LogEntry(now, "info", "Already connected")))
      ensures opening ==> (status == Connecting
        && logs == WithLog(old(logs), LogEntry(now, "info", "Connecting to MT5 bridge...")))
      ensures socketOpen == old(socketOpen) && isTrading == old(isTrading)
      ensures accountInfo == old(accountInfo) && candles == old(candles) && positions == old(positions)
    {
      if !KeyAccepted(apiKey) {
        AddLog("API key is required to connect", "info", now);
        status := Error;
        return false;
      }
      if socketOpen {
        AddLog("Already connected", "info", now);
        return false;
      }
      status := Connecting;
      AddLog("Connecting to MT5 bridge...", "info", now);
      opening := true;
    }

    /** The socket's open handler: connected, and the socket is open. */
    method OnOpen(now: int)
      requires Valid()
      modifies this
      ensures Valid()
      ensures status == Connected && socketOpen && isTrading == old(isTrading)
      ensures logs == WithLog(old(logs), LogEntry(now, "info", "Connected to MT5 bridge"))
      ensures accountInfo == old(accountInfo) && candles == old(candles) && positions == old(positions)
    {
      status := Connected;
      socketOpen := true;
      AddLog("Connected to MT5 bridge", "info", now);
    }

    /** The socket's error handler: the status becomes error. */
    method OnError(now: int)
      requires Valid()
      modifies this
      ensures Valid()
      ensures status == Error && socketOpen == old(socketOpen) && isTrading == old(isTrading)
      ensures logs == WithLog(old(logs), LogEntry(now, "info", "Connection error occurred"))
      ensures accountInfo == old(accountInfo) && candles == old(candles) && positions == old(positions)
    {
      status := Error;
      AddLog("Connection error occurred", "info", now);
    }

    /** The socket's close handler: disconnected, and trading stops. */
    method OnClose(now: int)
      requires Valid()
      modifies this
      ensures Valid()
      ensures status == Disconnected && !socketOpen && !isTrading
      ensures logs == WithLog(old(logs), LogEntry(now, "info", "Disconnected from MT5 bridge"))
      ensures accountInfo == old(accountInfo) && candles == old(candles) && positions == old(positions)
    {
      status := Disconnected;
      socketOpen := false;
      isTrading := false;
      AddLog("Disconnected from MT5 bridge", "info", now);
    }

    /** `disconnect`: the socket is closed by hand, and trading stops. */
    method Disconnect(now: int)
      requires Valid()
      modifies this
      ensures Valid()
      ensures status == Disconnected && !socketOpen && !isTrading
      ensures logs == WithLog(old(logs), LogEntry(now, "info", "Disconnected manually"))
      ensures accountInfo == old(accountInfo) && candles == old(candles) && positions == old(positions)
    {
      socketOpen := false;
      status := Disconnected;
      isTrading := false;
      AddLog("Disconnected manually", "info", now);
    }

    /** `handleMessage`: one message applied to the state. */
    method HandleMessage(message: Message, now: int)
      requires Valid()
      modifies this
      ensures Valid()
      ensures isTrading == TradingAfter(old(isTrading), message)
      ensures status == if message.AuthFailed? then Error else old(status)
      ensures socketOpen == old(socketOpen)
      ensures accountInfo == if message.AccountUpdate? then Some(message.account) else old(accountInfo)
      ensures candles == if message.CandleMessage? then UpsertCandle(old(candles), message.candle) else old(candles)
      ensures positions == if message.OrderUpdate? then ApplyOrderUpdate(old(positions), message.position) else old(positions)
      ensures match message
        case Welcome => logs == WithLog(old(logs), LogEntry(now, "info", "Received welcome from server"))
        case AuthSuccess => logs == WithLog(old(logs), LogEntry(now, "info", "Authentication successful"))
        case AuthFailed(error) => logs == WithLog(old(logs), LogEntry(now, "info", "Authentication failed: " + error))
        case Tick(symbol, bid, ask) =>
          logs == WithLog(old(logs), LogEntry(now, "info", "Tick: " + symbol + " " + bid + "/" + ask))
        case CandleMessage(_) => logs == old(logs)
        case AccountUpdate(_, balance) =>
          logs == WithLog(old(logs), LogEntry(now, "info", "Account update: Balance " + balance))
        case OrderUpdate(p) => logs == WithLog(old(logs),
          LogEntry(now, "info", "Order " + NatToString(p.ticket) + ": " + StatusText(p.status)))
        case OrderResult(payload) => logs == WithLog(old(logs), LogEntry(now, "info", "Order result: " + payload))
        case Command(action) => logs == (if action == "start" then WithLog(old(logs), LogEntry(now, "info", "Trading started"))
          else if action == "stop" then WithLog(old(logs), LogEntry(now, "info", "Trading stopped"))
          else old(logs))
        case KillSwitch(reason) => logs == WithLog(old(logs),
          LogEntry(now, "info", "KILL SWITCH ACTIVATED: " + KillSwitchReason(reason)))
        case ErrorMessage(error) => logs == WithLog(old(logs), LogEntry(now, "info", "Error: " + error))
        case OtherMessage => logs == old(logs)
    {
      match message
      case Welcome =>
        AddLog("Received welcome from server", "info", now);
      case AuthSuccess =>
        AddLog("Authentication successful", "info", now);
      case AuthFailed(error) =>
        AddLog("Authentication failed: " + error, "info", now);
        status := Error;
      case Tick(symbol, bid, ask) =>
        AddLog("Tick: " + symbol + " " + bid + "/" + ask, "info", now);
      case CandleMessage(candle) =>
        UpsertCandleKeepsBuffer(candles, candle);
        candles := UpsertCandle(candles, candle);
      case AccountUpdate(account, balance) =>
        accountInfo := Some(account);
        AddLog("Account update: Balance " + balance, "info", now);
      case OrderUpdate(position) =>
        OrderUpdateKeepsTicketsDistinct(positions, position);
        positions := ApplyOrderUpdate(positions, position);
        AddLog("Order " + NatToString(position.ticket) + ": " + StatusText(position.status), "info", now);
      case OrderResult(payload) =>
        AddLog("Order result: " + payload, "info", now);
      case Command(action) =>
        if action == "start" {
          isTrading := true;
          AddLog("Trading started", "info", now);
        } else if action == "stop" {
          isTrading := false;
          AddLog("Trading stopped", "info", now);
        }
      case KillSwitch(reason) =>
        isTrading := false;
        AddLog("KILL SWITCH ACTIVATED: " + KillSwitchReason(reason), "info", now);
      case ErrorMessage(error) =>
        AddLog("Error: " + error, "info", now);
      case OtherMessage =>
    }
  }
}
