/**
 * The public feed (src/services/binance.js): a managed socket with the same reconnect policy as
 * the authenticated feed but no handshake, the kline and mini-ticker stream handlers, and the
 * kline history conversion.
 */
module Binance {
  import opened Wrappers
  import opened Series
  import opened Reconnect

  // ---------------------------------------------------------------- the managed socket

  /**
   * The state of one createManagedWebSocket closure. The transport is replaced by its readyState
   * (None until a socket object has been constructed); the socket's events are the methods OnOpen
   * and OnClose, the reconnect timer firing is a call of Connect, and the handle's close() is Close.
   * Incoming frames go straight to the handler the caller attached (KlineToCandle, MiniTickerToWatch).
   */
  class FeedSocket {
    var socket: Option<ReadyState>
    var manualClose: bool
    var reconnectAttempts: nat

    ghost predicate Valid()
      reads this
    {
      reconnectAttempts <= MaxAttempts
    }

    /** The reconnect-relevant part of the state. */
    function Supervision(): Supervisor
      reads this
    {
      Supervisor(manualClose, reconnectAttempts)
    }

    /** createManagedWebSocket: initialises the closure and makes the first connection attempt.
        `constructed` is false when the WebSocket constructor throws. */
    constructor (constructed: bool)
      ensures Valid() && Supervision() == Initial
      ensures socket == if constructed then Some(Connecting) else None
    {
      manualClose := false;
      reconnectAttempts := 0;
      socket := if constructed then Some(Connecting) else None;
    }

    /** connect(): constructs a new socket. A constructor failure is logged and not retried: the previous
        socket (if any) stays in place and no timer is scheduled. */
    method Connect(constructed: bool)
      requires Valid()
      modifies this
      ensures Valid()
      ensures socket == if constructed then Some(Connecting) else old(socket)
      ensures Supervision() == old(Supervision())
    {
      if constructed {
        socket := Some(Connecting);
      }
    }

    /** onopen: restores the reconnect budget. */
    method OnOpen()
      requires Valid()
      modifies this
      ensures Valid()
      ensures socket == Some(Open)
      ensures Supervision() == Step(old(Supervision()), Opened).next
    {
      socket := Some(Open);
      reconnectAttempts := 0;
    }

    /** onclose: unless close() was called, an unclean close with budget left schedules connect()
        after the returned delay (in ms). */
    method OnClose(wasClean: bool) returns (delay: Option<nat>)
      requires Valid()
      modifies this
      ensures Valid()
      ensures socket == Some(Closed)
      ensures Supervision() == Step(old(Supervision()), SocketClosed(wasClean)).next
      ensures delay == Step(old(Supervision()), SocketClosed(wasClean)).retry
    {
      socket := Some(Closed);
      delay := None;
      if manualClose {
        return;
      }
      if !wasClean && reconnectAttempts < MaxAttempts {
        delay := Some(Delay(reconnectAttempts));
        reconnectAttempts := reconnectAttempts + 1;
      }
    }

    /** The handle's close(): raises the manual-close flag first, then closes the socket if it is open
        or still connecting. Returns whether the socket's own close() was invoked. */
    method Close() returns (closing: bool)
      requires Valid()
      modifies this
      ensures Valid()
      ensures closing <==> old(socket) == Some(Open) || old(socket) == Some(Connecting)
      ensures socket == if closing then Some(Closing) else old(socket)
      ensures Supervision() == Step(old(Supervision()), CloseRequested).next
    {
      manualClose := true;
      closing := socket == Some(Open) || socket == Some(Connecting);
      if closing {
        socket := Some(Closing);
      }
    }

    /** A retry timer scheduled by OnClose fires. As written it calls connect() even after close();
        here it does so only while no close was requested. Returns whether it connected. */
    method RetryTimerFired(constructed: bool) returns (connected: bool)
      requires Valid()
      modifies this
      ensures Valid()
      ensures connected <==> TimerReconnects(old(Supervision()))
      ensures connected ==> socket == if constructed then Some(Connecting) else old(socket)
      ensures !connected ==> socket == old(socket)
      ensures Supervision() == old(Supervision())
    {
      connected := !manualClose;
      if connected {
        Connect(constructed);
      }
    }

    /** The handle's readyState: CLOSED when no socket object exists. */
    function ReadyState(): (r: ReadyState)
      reads this
      ensures socket.None? ==> r == Closed
      ensures socket.Some? ==> r == socket.value
    {
      if socket.None? then Closed else socket.value
    }
  }

  /** A handle whose first socket could not be constructed reports CLOSED, and nothing retries it:
      the only way a reconnect is scheduled is a close event, and no socket exists to send one. */
  method ConstructionFailure() returns (s: FeedSocket)
    ensures fresh(s) && s.Valid()
    ensures s.ReadyState() == Closed && s.socket.None? && s.Supervision() == Initial
  {
    s := new FeedSocket(false);
  }

  /** The source as written: the stream drops uncleanly, close() is called while the retry waits
      (the socket is already closed, so only the flag changes), and the timer's connect() opens a new
      socket: the closed stream is live again, and since the flag stays up a later drop of it is never
      retried. */
  method CloseDuringBackoff(s: FeedSocket)
    requires s.Valid() && s.Supervision() == Initial && s.socket == Some(Open)
    modifies s
    ensures s.manualClose && s.socket == Some(Open)
  {
    var delay := s.OnClose(false);
    assert delay == Some(1000);
    var closing := s.Close();
    assert !closing;
    s.Connect(true);
    s.OnOpen();
  }

  /** The same sequence with the guarded timer: the stream stays closed. */
  method CloseDuringBackoffGuarded(s: FeedSocket)
    requires s.Valid() && s.Supervision() == Initial && s.socket == Some(Open)
    modifies s
    ensures s.manualClose && s.socket == Some(Closed)
  {
    var delay := s.OnClose(false);
    var closing := s.Close();
    var connected := s.RetryTimerFired(true);
    assert !connected;
  }

  // ---------------------------------------------------------------- stream handlers

  /** The kline object of a kline stream frame: open time in ms and the four prices. */
  datatype Kline = Kline(t: real, o: real, h: real, l: real, c: real)

  /** A parsed kline stream frame; `k` is absent on frames of other kinds. */
  datatype KlineMessage = KlineMessage(k: Option<Kline>)

  /** subscribeToTicker's onmessage: `raw` is None for a frame that does not parse or parses to null.
      Exactly one candle, in seconds, for every frame that carries a kline; nothing otherwise. */
  function KlineToCandle(raw: Option<KlineMessage>): (r: Option<Candle>)
    ensures r.Some? <==> raw.Some? && raw.value.k.Some?
    ensures r.Some? ==>
      var k := raw.value.k.value;
      && r.value.time * 1000.0 == k.t
      && r.value.open == k.o && r.value.high == k.h && r.value.low == k.l && r.value.close == k.c
      && r.value.volume.None?
  {
    match raw
    case None => None
    case Some(m) =>
      match m.k
      case None => None
      case Some(k) => Some(Candle(k.t / 1000.0, k.o, k.h, k.l, k.c, None))
  }

  /** The payload of a mini-ticker frame: symbol, close and open. */
  datatype MiniTicker = MiniTicker(s: string, c: real, o: real)

  /** A parsed combined-stream frame; `data` is absent on frames of other kinds. */
  datatype StreamMessage = StreamMessage(data: Option<MiniTicker>)

  /** subscribeToMultiTicker's onmessage: one watchlist row per frame that carries data. The
      percentage is absent when the open is zero (the source divides by zero there). */
  function MiniTickerToWatch(raw: Option<StreamMessage>): (r: Option<WatchUpdate>)
    ensures r.Some? <==> raw.Some? && raw.value.data.Some?
    ensures r.Some? ==>
      var t, u := raw.value.data.value, r.value;
      && u.symbol == t.s && u.last == t.c && u.open == t.o
      && u.chg == u.last - u.open
      && (t.o != 0.0 <==> u.chgP.Some?)
      && (u.chgP.Some? ==> u.chgP.value * u.open == u.chg * 100.0)
  {
    match raw
    case None => None
    case Some(m) =>
      match m.data
      case None => None
      case Some(t) =>
        Some(WatchUpdate(t.s, t.c, t.o, t.c - t.o, if t.o != 0.0 then Some((t.c - t.o) / t.o * 100.0) else None))
  }

  /** ASCII lower-casing, as toLowerCase acts on exchange symbols. */
  function LowerAscii(s: string): (r: string)
    ensures |r| == |s|
    ensures forall i :: 0 <= i < |s| ==> ('A' <= s[i] <= 'Z' ==> r[i] == s[i] - 'A' + 'a') && (!('A' <= s[i] <= 'Z') ==> r[i] == s[i])
  {
    if s == [] then []
    else [if 'A' <= s[0] <= 'Z' then s[0] - 'A' + 'a' else s[0]] + LowerAscii(s[1..])
  }

  /** The streams subscribeToMultiTicker joins into its URL; None (no socket is created) for an
      empty symbol list. */
  function MiniTickerStreams(symbols: seq<string>): (r: Option<seq<string>>)
    ensures r.None? <==> |symbols| == 0
    ensures r.Some? ==> |r.value| == |symbols|
    ensures r.Some? ==> forall i :: 0 <= i < |symbols| ==> r.value[i] == LowerAscii(symbols[i]) + "@miniTicker"
  {
    if |symbols| == 0 then None
    else Some(seq(|symbols|, i requires 0 <= i < |symbols| => LowerAscii(symbols[i]) + "@miniTicker"))
  }

  // ---------------------------------------------------------------- history

  /** One kline row of the REST response: open time in ms and the four prices, each None when
      parseFloat does not give a finite number. */
  datatype KlineRow = KlineRow(openTime: real, open: Option<real>, high: Option<real>, low: Option<real>, close: Option<real>)

  datatype KlinesBody = Unparseable | NotAnArray | Rows(rows: seq<KlineRow>)

  /** The outcome of the klines GET: no response (network failure or abort), or a status flag and body. */
  datatype KlinesResponse = NoResponse | Response(ok: bool, body: KlinesBody)

  /** The candle a row becomes, if its four prices are finite. */
  function RowToCandle(row: KlineRow): (r: Option<Candle>)
    ensures r.Some? <==> row.open.Some? && row.high.Some? && row.low.Some? && row.close.Some?
    ensures r.Some? ==>
      && r.value.time * 1000.0 == row.openTime && r.value.volume.None?
      && r.value.open == row.open.value && r.value.high == row.high.value
      && r.value.low == row.low.value && r.value.close == row.close.value
  {
    if row.open.Some? && row.high.Some? && row.low.Some? && row.close.Some? then
      Some(Candle(row.openTime / 1000.0, row.open.value, row.high.value, row.low.value, row.close.value, None))
    else None
  }

  /** getKlines after the request: every failure and every non-array body yield no candles. */
  function GetKlines(resp: KlinesResponse): (r: seq<Candle>)
    ensures !(resp.Response? && resp.ok && resp.body.Rows?) ==> r == []
    ensures resp.Response? && resp.ok && resp.body.Rows? ==> r == KeepSome(resp.body.rows, RowToCandle)
  {
    match resp
    case NoResponse => []
    case Response(ok, body) => if ok && body.Rows? then KeepSome(body.rows, RowToCandle) else []
  }

  /** The history keeps exactly the rows whose four prices are finite, in response order, and never
      more candles than rows. */
  lemma {:induction false} KlinesKeepFiniteRowsInOrder(resp: KlinesResponse)
    requires resp.Response? && resp.ok && resp.body.Rows?
    ensures SelectsInOrder(resp.body.rows, RowToCandle, GetKlines(resp), KeptIndices(resp.body.rows, RowToCandle))
    ensures |GetKlines(resp)| <= |resp.body.rows|
  {
    KeepSomeSelects(resp.body.rows, RowToCandle);
  }
}
