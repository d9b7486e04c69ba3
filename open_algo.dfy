/**
 * The authenticated feed (src/services/openalgo.js): a managed socket that authenticates with an
 * API key, answers server pings, replays its subscriptions after every successful
 * authentication and reconnects with capped backoff; the handlers that turn quote frames into
 * chart candles and watchlist rows; and the history request's row-to-candle conversion.
 */
module OpenAlgo {
  import opened Wrappers
  import opened Series
  import opened Reconnect

  /** India Standard Time is UTC + 5 h 30 min; candles are stamped in IST seconds. */
  const IstOffsetSeconds: int := 19800
  const DefaultExchange: string := "NSE"

  // ---------------------------------------------------------------- credentials

  /** The characters String.prototype.trim removes (ECMAScript WhiteSpace and LineTerminator). */
  predicate IsJsWhitespace(c: char) {
    || c == '\t' || c == '\n' || c == '\U{B}' || c == '\U{C}' || c == '\r' || c == ' '
    || c == '\U{A0}' || c == '\U{1680}' || ('\U{2000}' <= c <= '\U{200A}')
    || c == '\U{2028}' || c == '\U{2029}' || c == '\U{202F}' || c == '\U{205F}' || c == '\U{3000}' || c == '\U{FEFF}'
  }

  /** s.trim() === '' */
  function TrimsToEmpty(s: string): (r: bool)
    ensures r <==> forall i :: 0 <= i < |s| ==> IsJsWhitespace(s[i])
  {
    if s == [] then true else IsJsWhitespace(s[0]) && TrimsToEmpty(s[1..])
  }

  /** checkAuth: the user counts as logged in exactly when a stored API key holds a character that is not
      white space. `stored` is the value under 'oa_apikey'; None stands for a missing key and for a
      storage read that throws. */
  function CheckAuth(stored: Option<string>): (r: bool)
    ensures r <==> stored.Some? && exists i :: 0 <= i < |stored.value| && !IsJsWhitespace(stored.value[i])
  {
    stored.Some? && !TrimsToEmpty(stored.value)
  }

  /** getApiKey: the stored key, or the empty string. */
  function ApiKey(stored: Option<string>): (r: string)
    ensures stored.None? ==> r == ""
    ensures stored.Some? ==> r == stored.value
  {
    stored.GetOr("")
  }

  /** A user that passes checkAuth authenticates sockets with a non-blank key. */
  lemma AuthenticatedUserHasKey(stored: Option<string>)
    requires CheckAuth(stored)
    ensures ApiKey(stored) != "" && !TrimsToEmpty(ApiKey(stored))
  {
  }

  // ---------------------------------------------------------------- intervals

  /** convertInterval: the chart's daily/weekly/monthly codes become the API's single letters; the
      letters themselves are kept and every other interval is passed through unchanged. */
  function ConvertInterval(interval: string): (r: string)
    ensures interval == "1d" || interval == "D" ==> r == "D"
    ensures interval == "1w" || interval == "W" ==> r == "W"
    ensures interval == "1M" || interval == "M" ==> r == "M"
    ensures interval !in {"1d", "1w", "1M", "D", "W", "M"} ==> r == interval
  {
    if interval == "1d" || interval == "D" then "D"
    else if interval == "1w" || interval == "W" then "W"
    else if interval == "1M" || interval == "M" then "M"
    else interval
  }

  /** Converting an already converted interval changes nothing. */
  lemma ConvertIntervalIdempotent(interval: string)
    ensures ConvertInterval(ConvertInterval(interval)) == ConvertInterval(interval)
  {
  }

  // ---------------------------------------------------------------- frames

  /** The payload of a market_data frame; None is a missing (or falsy-zero) field. Prices are already numbers. */
  datatype Quote = Quote(ltp: Option<real>, lastPrice: Option<real>, open: Option<real>, high: Option<real>,
                         low: Option<real>, timestamp: Option<real>)

  const EmptyQuote: Quote := Quote(None, None, None, None, None, None)

  /** The fields of a parsed server frame that the client inspects. */
  datatype Frame = Frame(msgType: Option<string>, status: Option<string>, symbol: Option<string>,
                         exchange: Option<string>, data: Option<Quote>)

  /** What the socket does with a parsed frame, in the order it checks. */
  datatype FrameKind = Ping | AuthSuccess | AuthFailure | Forward

  predicate IsAuthAck(f: Frame) {
    || (f.msgType == Some("auth") && f.status == Some("success"))
    || f.msgType == Some("authenticated")
    || f.status == Some("authenticated")
  }

  predicate IsAuthError(f: Frame) {
    f.msgType == Some("error") || (f.msgType == Some("auth") && f.status != Some("success"))
  }

  function Classify(f: Frame): (k: FrameKind)
    // a ping is answered and goes no further
    ensures k == Ping <==> f.msgType == Some("ping")
    // an acknowledgement is recognised by any of its three spellings unless it is a ping
    ensures k == AuthSuccess ==> IsAuthAck(f)
    ensures f.msgType != Some("ping") && IsAuthAck(f) ==> k == AuthSuccess
    // frames of type 'auth' and 'error' never reach the consumer
    ensures f.msgType == Some("auth") ==> k == AuthSuccess || k == AuthFailure
    ensures f.msgType == Some("error") && f.status != Some("authenticated") ==> k == AuthFailure
    // everything else is forwarded
    ensures k == Forward <==>
      && f.msgType !in {Some("ping"), Some("auth"), Some("error"), Some("authenticated")}
      && f.status != Some("authenticated")
  {
    if f.msgType == Some("ping") then Ping
    else if IsAuthAck(f) then AuthSuccess
    else if IsAuthError(f) then AuthFailure
    else Forward
  }

  /** A market_data frame is handed to the consumer whatever else it carries, unless its status
      field happens to read 'authenticated'. */
  lemma MarketDataIsForwarded(f: Frame)
    requires f.msgType == Some("market_data") && f.status != Some("authenticated")
    ensures Classify(f) == Forward
  {
  }

  // ---------------------------------------------------------------- outgoing frames

  datatype Outgoing = Authenticate(apiKey: string) | Subscribe(symbol: string, exchange: string, mode: int) | Pong

  /** A symbol the consumer wants streamed; the exchange may be missing. */
  datatype Subscription = Subscription(symbol: string, exchange: Option<string>)

  /** sub.exchange || 'NSE' */
  function ExchangeOrDefault(e: Option<string>): (r: string)
    ensures r != ""
    ensures e.Some? && e.value != "" ==> r == e.value
    ensures e.None? || e.value == "" ==> r == DefaultExchange
  {
    if e.Some? && e.value != "" then e.value else DefaultExchange
  }

  /** One subscribe frame per subscription, in registration order. */
  function SubscribeFrames(subs: seq<Subscription>, mode: int): (r: seq<Outgoing>)
    ensures |r| == |subs|
    ensures forall i :: 0 <= i < |subs| ==>
      r[i] == Subscribe(subs[i].symbol, ExchangeOrDefault(subs[i].exchange), mode)
  {
    seq(|subs|, i requires 0 <= i < |subs| => Subscribe(subs[i].symbol, ExchangeOrDefault(subs[i].exchange), mode))
  }

  // ---------------------------------------------------------------- the managed socket

  /**
   * The state of one createManagedWebSocket closure. The transport is replaced by its readyState
   * (None until a socket object has been constructed) and by the log of frames passed to send();
   * the socket's events are the methods OnOpen, OnMessage and OnClose, the reconnect timer firing
   * is a call of Connect, and the handle's close() is Close.
   */
  class FeedSocket {
    const apiKey: string
    const subscriptions: seq<Subscription>
    const mode: int

    var socket: Option<ReadyState>
    var manualClose: bool
    var reconnectAttempts: nat
    var authenticated: bool
    var sent: seq<Outgoing>

    ghost predicate Valid()
      reads this
    {
      reconnectAttempts <= MaxAttempts
    }

    /** The reconnect-relevant part of the state. */
    function Supervision(): Supervisor
      reads this
    {
      Supervisor(manualClose, reconnectAttempts)
    }

    /** createManagedWebSocket: initialises the closure and makes the first connection attempt.
        `constructed` is false when the WebSocket constructor throws. */
    constructor (apiKey: string, subscriptions: seq<Subscription>, mode: int, constructed: bool)
      ensures Valid()
      ensures this.apiKey == apiKey && this.subscriptions == subscriptions && this.mode == mode
      ensures Supervision() == Initial && !authenticated && sent == []
      ensures socket == if constructed then Some(Connecting) else None
    {
      this.apiKey := apiKey;
      this.subscriptions := subscriptions;
      this.mode := mode;
      manualClose := false;
      reconnectAttempts := 0;
      authenticated := false;
      sent := [];
      socket := if constructed then Some(Connecting) else None;
    }

    /** connect(): drops authentication and constructs a new socket. A constructor failure is logged and
        not retried: the previous socket (if any) stays in place and no timer is scheduled. */
    method Connect(constructed: bool)
      requires Valid()
      modifies this
      ensures Valid()
      ensures !authenticated
      ensures socket == if constructed then Some(Connecting) else old(socket)
      ensures Supervision() == old(Supervision()) && sent == old(sent)
    {
      authenticated := false;
      if constructed {
        socket := Some(Connecting);
      }
    }

    /** onopen: restores the reconnect budget and sends exactly one authentication frame. */
    method OnOpen()
      requires Valid()
      modifies this
      ensures Valid()
      ensures socket == Some(Open)
      ensures Supervision() == Step(old(Supervision()), Opened).next
      ensures sent == old(sent) + [Authenticate(apiKey)]
      ensures authenticated == old(authenticated)
    {
      socket := Some(Open);
      reconnectAttempts := 0;
      sent := sent + [Authenticate(apiKey)];
    }

    /** sendSubscriptions: on an open, authenticated socket, one subscribe frame per subscription in
        registration order; otherwise nothing. */
    method SendSubscriptions()
      modifies this`sent
      ensures sent == old(sent) + if socket == Some(Open) && authenticated then SubscribeFrames(subscriptions, mode) else []
    {
      if socket != Some(Open) || !authenticated {
        return;
      }
      var i := 0;
      while i < |subscriptions|
        invariant 0 <= i <= |subscriptions|
        invariant sent == old(sent) + SubscribeFrames(subscriptions[..i], mode)
      {
        var sub := subscriptions[i];
        sent := sent + [Subscribe(sub.symbol, ExchangeOrDefault(sub.exchange), mode)];
        i := i + 1;
      }
      assert subscriptions[..i] == subscriptions;
    }

    /** onmessage: `raw` is None when the frame does not parse. Returns the frame handed to the
        consumer's onMessage callback, if any. */
    method OnMessage(raw: Option<Frame>) returns (forwarded: Option<Frame>)
      requires Valid()
      modifies this
      ensures Valid()
      ensures socket == old(socket) && Supervision() == old(Supervision())
      ensures forwarded.Some? <==> raw.Some? && Classify(raw.value) == Forward
      ensures forwarded.Some? ==> forwarded == raw
      ensures raw.None? || Classify(raw.value) in {AuthFailure, Forward} ==>
        sent == old(sent) && authenticated == old(authenticated)
      ensures raw.Some? && Classify(raw.value) == Ping ==>
        sent == old(sent) + [Pong] && authenticated == old(authenticated)
      ensures raw.Some? && Classify(raw.value) == AuthSuccess ==>
        && authenticated
        && sent == old(sent) + if socket == Some(Open) then SubscribeFrames(subscriptions, mode) else []
    {
      forwarded := None;
      if raw.None? {
        return;
      }
      var frame := raw.value;
      match Classify(frame)
      case Ping =>
        sent := sent + [Pong];
      case AuthSuccess =>
        authenticated := true;
        SendSubscriptions();
      case AuthFailure =>
      case Forward =>
        forwarded := Some(frame);
    }

    /** onclose: drops authentication; unless close() was called, an unclean close with budget left
        schedules connect() after the returned delay (in ms). */
    method OnClose(wasClean: bool) returns (delay: Option<nat>)
      requires Valid()
      modifies this
      ensures Valid()
      ensures socket == Some(Closed) && !authenticated && sent == old(sent)
      ensures Supervision() == Step(old(Supervision()), SocketClosed(wasClean)).next
      ensures delay == Step(old(Supervision()), SocketClosed(wasClean)).retry
    {
      socket := Some(Closed);
      authenticated := false;
      delay := None;
      if manualClose {
        return;
      }
      if !wasClean && reconnectAttempts < MaxAttempts {
        delay := Some(Delay(reconnectAttempts));
        reconnectAttempts := reconnectAttempts + 1;
      }
    }

    /** The handle's close(): raises the manual-close flag first, then closes the socket if it is open
        or still connecting. Returns whether the socket's own close() was invoked. */
    method Close() returns (closing: bool)
      requires Valid()
      modifies this
      ensures Valid()
      ensures closing <==> old(socket) == Some(Open) || old(socket) == Some(Connecting)
      ensures socket == if closing then Some(Closing) else old(socket)
      ensures Supervision() == Step(old(Supervision()), CloseRequested).next
      ensures authenticated == old(authenticated) && sent == old(sent)
    {
      manualClose := true;
      closing := socket == Some(Open) || socket == Some(Connecting);
      if closing {
        socket := Some(Closing);
      }
    }

    /** A retry timer scheduled by OnClose fires. As written it calls connect() even after close();
        here it does so only while no close was requested. Returns whether it connected. */
    method RetryTimerFired(constructed: bool) returns (connected: bool)
      requires Valid()
      modifies this
      ensures Valid()
      ensures connected <==> TimerReconnects(old(Supervision()))
      ensures connected ==> !authenticated && socket == (if constructed then Some(Connecting) else old(socket))
      ensures !connected ==> socket == old(socket) && authenticated == old(authenticated)
      ensures Supervision() == old(Supervision()) && sent == old(sent)
    {
      connected := !manualClose;
      if connected {
        Connect(constructed);
      }
    }

    /** The handle's readyState: CLOSED when no socket object exists. */
    function ReadyState(): (r: ReadyState)
      reads this
      ensures socket.None? ==> r == Closed
      ensures socket.Some? ==> r == socket.value
    {
      if socket.None? then Closed else socket.value
    }

    /** The handle's isAuthenticated. */
    function IsAuthenticated(): (r: bool)
      reads this
      ensures r <==> authenticated
    {
      authenticated
    }
  }

  /** A reconnect that succeeds: the retry timer fires, the socket opens and the server acknowledges
      the key. Every registered subscription is sent again, in registration order, right after the
      authentication frame and before any market data can be forwarded. */
  method ReconnectAndResubscribe(s: FeedSocket, ack: Frame)
    requires s.Valid() && !s.manualClose && Classify(ack) == AuthSuccess
    modifies s
    ensures s.Valid() && s.authenticated && s.socket == Some(Open) && s.reconnectAttempts == 0
    ensures s.sent == old(s.sent) + [Authenticate(s.apiKey)] + SubscribeFrames(s.subscriptions, s.mode)
  {
    var connected := s.RetryTimerFired(true);
    s.OnOpen();
    var forwarded := s.OnMessage(Some(ack));
  }

  /** The source as written: the connection drops uncleanly, close() is called while the retry waits
      (the socket is already closed, so only the flag changes), and the timer's connect() then opens
      a new socket that authenticates and subscribes again: the closed feed is live. */
  method CloseDuringBackoff(s: FeedSocket, ack: Frame)
    requires s.Valid() && s.Supervision() == Initial && s.socket == Some(Open)
    requires Classify(ack) == AuthSuccess
    modifies s
    ensures s.manualClose && s.authenticated && s.socket == Some(Open)
    ensures s.sent == old(s.sent) + [Authenticate(s.apiKey)] + SubscribeFrames(s.subscriptions, s.mode)
  {
    var delay := s.OnClose(false);
    assert delay == Some(1000);
    var closing := s.Close();
    assert !closing;
    s.Connect(true);
    s.OnOpen();
    var forwarded := s.OnMessage(Some(ack));
  }

  /** The same sequence with the guarded timer: the feed stays closed and sends nothing. */
  method CloseDuringBackoffGuarded(s: FeedSocket)
    requires s.Valid() && s.Supervision() == Initial && s.socket == Some(Open)
    modifies s
    ensures s.manualClose && !s.authenticated && s.socket == Some(Closed) && s.sent == old(s.sent)
  {
    var delay := s.OnClose(false);
    var closing := s.Close();
    var connected := s.RetryTimerFired(true);
    assert !connected;
  }

  // ---------------------------------------------------------------- quote handlers

  /** JavaScript truthiness of a numeric field: present and not zero. */
  predicate Truthy(x: Option<real>) {
    x.Some? && x.value != 0.0
  }

  /** x || fallback, for a numeric field */
  function Or(x: Option<real>, fallback: real): (r: real)
    ensures Truthy(x) ==> r == x.value
    ensures !Truthy(x) ==> r == fallback
  {
    if Truthy(x) then x.value else fallback
  }

  /** message.data || {} */
  function QuoteOf(f: Frame): Quote {
    f.data.GetOr(EmptyQuote)
  }

  /** parseFloat(data.ltp || data.last_price || 0) */
  function LastTradedPrice(q: Quote): (r: real)
    ensures Truthy(q.ltp) ==> r == q.ltp.value
    ensures !Truthy(q.ltp) && Truthy(q.lastPrice) ==> r == q.lastPrice.value
    ensures !Truthy(q.ltp) && !Truthy(q.lastPrice) ==> r == 0.0
  {
    Or(q.ltp, Or(q.lastPrice, 0.0))
  }

  /** The candle the single-ticker handler emits: `time` in IST seconds for the chart, the raw
      broker time in UTC seconds for clock display. */
  datatype TickCandle = TickCandle(time: int, brokerTimestamp: int, open: real, high: real, low: real, close: real)

  /** The single-ticker onMessage handler (subscribeToTicker). `nowMs` is Date.now(), used only when the
      frame has no server timestamp. */
  function TickToCandle(f: Frame, symbol: string, nowMs: nat): (r: Option<TickCandle>)
    ensures r.Some? <==>
      f.msgType == Some("market_data") && f.symbol == Some(symbol) && LastTradedPrice(QuoteOf(f)) > 0.0
    ensures r.Some? ==>
      var q, c := QuoteOf(f), r.value;
      && c.close == LastTradedPrice(q) && c.close > 0.0
      && c.time == c.brokerTimestamp + IstOffsetSeconds
      // the broker time is the server timestamp (ms) rounded down to whole seconds, else the local clock
      && (Truthy(q.timestamp) ==> c.brokerTimestamp as real * 1000.0 <= q.timestamp.value < (c.brokerTimestamp + 1) as real * 1000.0)
      && (!Truthy(q.timestamp) ==> c.brokerTimestamp * 1000 <= nowMs < (c.brokerTimestamp + 1) * 1000)
      // open, high and low fall back to the last price
      && (Truthy(q.open) ==> c.open == q.open.value) && (!Truthy(q.open) ==> c.open == c.close)
      && (Truthy(q.high) ==> c.high == q.high.value) && (!Truthy(q.high) ==> c.high == c.close)
      && (Truthy(q.low) ==> c.low == q.low.value) && (!Truthy(q.low) ==> c.low == c.close)
  {
    if f.msgType != Some("market_data") || f.symbol != Some(symbol) then None
    else
      var q := QuoteOf(f);
      var ltp := LastTradedPrice(q);
      if ltp > 0.0 then
        var broker := if Truthy(q.timestamp) then (q.timestamp.value / 1000.0).Floor else nowMs / 1000;
        Some(TickCandle(broker + IstOffsetSeconds, broker, Or(q.open, ltp), Or(q.high, ltp), Or(q.low, ltp), ltp))
      else None
  }

  /** A symbol as a watchlist passes it: a bare name, or a symbol with an optional exchange. */
  datatype SymbolEntry = Bare(name: string) | Listed(symbol: string, exchange: Option<string>)

  /** subscribeToMultiTicker's normalisation: None (no socket is created) for an empty list; otherwise one
      subscription per entry, in order, each with its exchange or NSE. */
  function NormalizeSymbols(entries: seq<SymbolEntry>): (r: Option<seq<Subscription>>)
    ensures r.None? <==> |entries| == 0
    ensures r.Some? ==> |r.value| == |entries| && forall i :: 0 <= i < |entries| ==>
      && r.value[i].exchange.Some? && r.value[i].exchange.value != ""
      && (entries[i].Bare? ==> r.value[i] == Subscription(entries[i].name, Some(DefaultExchange)))
      && (entries[i].Listed? ==> r.value[i] == Subscription(entries[i].symbol, Some(ExchangeOrDefault(entries[i].exchange))))
  {
    if |entries| == 0 then None
    else Some(seq(|entries|, i requires 0 <= i < |entries| =>
      match entries[i]
      case Bare(name) => Subscription(name, Some(DefaultExchange))
      case Listed(symbol, exchange) => Subscription(symbol, Some(ExchangeOrDefault(exchange)))))
  }

  /** The price a watchlist change is measured against: the cached previous close for the frame's
      symbol and exchange, else the session open, else the last price. */
  function ReferencePrice(f: Frame, prevCloseCache: map<(string, string), real>): (r: real)
    requires f.symbol.Some?
    ensures var key := (f.symbol.value, ExchangeOrDefault(f.exchange));
      && (key in prevCloseCache && prevCloseCache[key] != 0.0 ==> r == prevCloseCache[key])
      && (!(key in prevCloseCache && prevCloseCache[key] != 0.0) && Truthy(QuoteOf(f).open) ==> r == QuoteOf(f).open.value)
      && (!(key in prevCloseCache && prevCloseCache[key] != 0.0) && !Truthy(QuoteOf(f).open) ==> r == LastTradedPrice(QuoteOf(f)))
  {
    var key := (f.symbol.value, ExchangeOrDefault(f.exchange));
    var cached := if key in prevCloseCache then Some(prevCloseCache[key]) else None;
    if Truthy(cached) then cached.value else Or(QuoteOf(f).open, LastTradedPrice(QuoteOf(f)))
  }

  /** The multi-ticker onMessage handler (subscribeToMultiTicker). The previous-close cache that
      the quote request fills is passed in. */
  function QuoteToWatch(f: Frame, prevCloseCache: map<(string, string), real>): (r: Option<WatchUpdate>)
    ensures r.Some? <==>
      f.msgType == Some("market_data") && f.symbol.Some? && f.symbol.value != "" && LastTradedPrice(QuoteOf(f)) > 0.0
    ensures r.Some? ==>
      var u, p := r.value, ReferencePrice(f, prevCloseCache);
      && u.symbol == f.symbol.value
      && u.last == LastTradedPrice(QuoteOf(f)) > 0.0
      && u.chg == u.last - p
      && u.chgP == Some(if p > 0.0 then u.chg / p * 100.0 else 0.0)
      && (Truthy(QuoteOf(f).open) ==> u.open == QuoteOf(f).open.value)
      && (!Truthy(QuoteOf(f).open) ==> u.open == p)
  {
    if f.msgType != Some("market_data") || f.symbol.None? || f.symbol.value == "" then None
    else
      var q := QuoteOf(f);
      var ltp := LastTradedPrice(q);
      if ltp > 0.0 then
        var prevClose := ReferencePrice(f, prevCloseCache);
        var change := ltp - prevClose;
        var changePercent := if prevClose > 0.0 then change / prevClose * 100.0 else 0.0;
        Some(WatchUpdate(f.symbol.value, ltp, Or(q.open, prevClose), change, Some(changePercent)))
      else None
  }

  /** With no cached previous close and no open in the frame, a quote shows no change. */
  lemma NoReferenceNoChange(f: Frame, prevCloseCache: map<(string, string), real>)
    requires QuoteToWatch(f, prevCloseCache).Some?
    requires (f.symbol.value, ExchangeOrDefault(f.exchange)) !in prevCloseCache
    requires !Truthy(QuoteOf(f).open)
    ensures QuoteToWatch(f, prevCloseCache).value.chg == 0.0
    ensures QuoteToWatch(f, prevCloseCache).value.chgP == Some(0.0)
  {
  }

  // ---------------------------------------------------------------- history

  /** A row's time field: a numeric timestamp in UTC seconds, a date string (with the millisecond
      value Date parses it to, None when it does not parse), or neither. */
  datatype RowTime = Epoch(seconds: real) | Dated(parsedMs: Option<real>) | Undated

  /** One row of the history response; a price is None when parseFloat does not give a finite number. */
  datatype HistoryRow = HistoryRow(timestamp: RowTime, open: Option<real>, high: Option<real>,
                                   low: Option<real>, close: Option<real>)

  datatype HistoryBody = Unparseable | WithoutRows | Rows(rows: seq<HistoryRow>)

  /** The outcome of the history POST: no response (network failure or abort), or a status and body. */
  datatype HistoryResponse = NoResponse | Response(ok: bool, status: int, body: HistoryBody)

  /** getKlines' result: the candles, and whether the page is sent to the login URL. */
  datatype History = History(candles: seq<Candle>, redirectToLogin: bool)

  /** The chart time of a row, in IST seconds; None where the source computes NaN. */
  function RowSeconds(t: RowTime): (r: Option<real>)
    ensures t.Epoch? ==> r == Some(t.seconds + IstOffsetSeconds as real)
    ensures t.Dated? ==> r == if t.parsedMs.Some? then Some(t.parsedMs.value / 1000.0 + IstOffsetSeconds as real) else None
    ensures t.Undated? ==> r == Some(0.0)
  {
    match t
    case Epoch(s) => Some(s + IstOffsetSeconds as real)
    case Dated(ms) => if ms.Some? then Some(ms.value / 1000.0 + IstOffsetSeconds as real) else None
    case Undated => Some(0.0)
  }

  /** The candle a row becomes, if it survives the filter: a positive time and four finite prices. */
  function RowToCandle(row: HistoryRow): (r: Option<Candle>)
    ensures r.Some? <==>
      && RowSeconds(row.timestamp).Some? && RowSeconds(row.timestamp).value > 0.0
      && row.open.Some? && row.high.Some? && row.low.Some? && row.close.Some?
    ensures r.Some? ==>
      && r.value.time == RowSeconds(row.timestamp).value > 0.0 && r.value.volume.None?
      && r.value.open == row.open.value && r.value.high == row.high.value
      && r.value.low == row.low.value && r.value.close == row.close.value
  {
    var time := RowSeconds(row.timestamp);
    if time.Some? && time.value > 0.0 && row.open.Some? && row.high.Some? && row.low.Some? && row.close.Some? then
      Some(Candle(time.value, row.open.value, row.high.value, row.low.value, row.close.value, None))
    else None
  }

  /** getKlines after the request: 401 sends the user to log in and yields nothing; every other
      failure yields nothing; a body with a data array yields its valid rows as candles. */
  function GetKlines(resp: HistoryResponse): (r: History)
    ensures r.redirectToLogin <==> resp.Response? && !resp.ok && resp.status == 401
    ensures r.redirectToLogin ==> r.candles == []
    ensures !(resp.Response? && resp.ok && resp.body.Rows?) ==> r.candles == []
    ensures resp.Response? && resp.ok && resp.body.Rows? ==> r.candles == KeepSome(resp.body.rows, RowToCandle)
  {
    match resp
    case NoResponse => History([], false)
    case Response(ok, status, body) =>
      if !ok then History([], status == 401)
      else if body.Rows? then History(KeepSome(body.rows, RowToCandle), false)
      else History([], false)
  }

  /** The history keeps exactly the rows with a positive time and four finite prices, in response order. */
  lemma {:induction false} KlinesKeepValidRowsInOrder(resp: HistoryResponse)
    requires resp.Response? && resp.ok && resp.body.Rows?
    ensures SelectsInOrder(resp.body.rows, RowToCandle, GetKlines(resp).candles, KeptIndices(resp.body.rows, RowToCandle))
    ensures forall c :: c in GetKlines(resp).candles ==> c.time > 0.0
  {
    var rows := resp.body.rows;
    KeepSomeSelects(rows, RowToCandle);
    var r, idx := GetKlines(resp).candles, KeptIndices(rows, RowToCandle);
    forall c | c in r
      ensures c.time > 0.0
    {
      var k :| 0 <= k < |r| && r[k] == c;
      assert RowToCandle(rows[idx[k]]) == Some(c);
    }
  }
}
