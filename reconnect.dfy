/**
 * The reconnect policy that both managed feed sockets follow (openalgo.js and binance.js each
 * carry a copy of it in their createManagedWebSocket closure): an unclean close that the client
 * did not ask for schedules a new connection after min(1000 * 2^attempts, 10000) ms, at most
 * five times in a row; a successful open restores the budget; a manual close silences
 * every later close event.
 */
module Reconnect {
  import opened Wrappers

  /** The WebSocket readyState values the closures read. */
  datatype ReadyState = Connecting | Open | Closing | Closed

  const MaxAttempts: nat := 5
  const BaseDelayMs: nat := 1000
  const MaxDelayMs: nat := 10000

  function Pow2(k: nat): (r: nat)
    ensures r >= 1
  {
    if k == 0 then 1 else 2 * Pow2(k - 1)
  }

  /** Math.min(1000 * 2 ** attempts, 10000). */
  function Delay(attempts: nat): (d: nat)
    ensures BaseDelayMs <= d <= MaxDelayMs
    ensures d <= BaseDelayMs * Pow2(attempts)
    ensures d == BaseDelayMs * Pow2(attempts) || d == MaxDelayMs
  {
    if BaseDelayMs * Pow2(attempts) < MaxDelayMs then BaseDelayMs * Pow2(attempts) else MaxDelayMs
  }

  /** The part of a socket session that decides reconnection: the manual-close flag and the
      number of reconnects scheduled since the last successful open. */
  datatype Supervisor = Supervisor(manualClose: bool, attempts: nat)

  /** The events that move the supervisor: the socket opened, the socket closed (cleanly in the
      sense of section 7.1.4 of RFC 6455, or not), or the client called close(). */
  datatype Event = Opened | SocketClosed(wasClean: bool) | CloseRequested

  /** The supervisor after an event, and the reconnect delay the event schedules, if any. */
  datatype Transition = Transition(next: Supervisor, retry: Option<nat>)

  const Initial: Supervisor := Supervisor(false, 0)

  /** True when the reconnect budget is respected: attempts never exceed MaxAttempts. */
  predicate WithinBudget(s: Supervisor) {
    s.attempts <= MaxAttempts
  }

  function Step(s: Supervisor, e: Event): (t: Transition)
    // a retry is scheduled exactly for an unclean close the client did not ask for, with budget left
    ensures t.retry.Some? <==> e.SocketClosed? && !e.wasClean && !s.manualClose && s.attempts < MaxAttempts
    // the scheduled delay is the capped exponential backoff of the attempts made so far, which are then one more
    ensures t.retry.Some? ==> t.retry.value == Delay(s.attempts) && t.next == Supervisor(false, s.attempts + 1)
    // closes that schedule nothing leave the supervisor as it was
    ensures e.SocketClosed? && t.retry.None? ==> t.next == s
    // an open restores the full budget and does not touch the manual-close flag
    ensures e.Opened? ==> t.next == Supervisor(s.manualClose, 0)
    // close() raises the flag for good
    ensures e.CloseRequested? ==> t.next == Supervisor(true, s.attempts)
    ensures WithinBudget(s) ==> WithinBudget(t.next)
  {
    match e
    case Opened => Transition(Supervisor(s.manualClose, 0), None)
    case CloseRequested => Transition(Supervisor(true, s.attempts), None)
    case SocketClosed(wasClean) =>
      if s.manualClose then Transition(s, None)
      else if !wasClean && s.attempts < MaxAttempts then
        Transition(Supervisor(false, s.attempts + 1), Some(Delay(s.attempts)))
      else Transition(s, None)
  }

  /** The supervisor after a sequence of events. */
  function After(s: Supervisor, es: seq<Event>): Supervisor
    decreases |es|
  {
    if es == [] then s else After(Step(s, es[0]).next, es[1..])
  }

  /** The retry decision of each event in a sequence, index for index. */
  function Retries(s: Supervisor, es: seq<Event>): (r: seq<Option<nat>>)
    ensures |r| == |es|
    decreases |es|
  {
    if es == [] then [] else [Step(s, es[0]).retry] + Retries(Step(s, es[0]).next, es[1..])
  }

  /** How many of the decisions scheduled a reconnect. */
  function Scheduled(r: seq<Option<nat>>): nat
  {
    if r == [] then 0 else (if r[0].Some? then 1 else 0) + Scheduled(r[1..])
  }

  /** A run of decisions that all schedule something counts every one of them. */
  lemma {:induction false} ScheduledAll(r: seq<Option<nat>>)
    requires forall i :: 0 <= i < |r| ==> r[i].Some?
    ensures Scheduled(r) == |r|
  {
    if r != [] {
      ScheduledAll(r[1..]);
    }
  }

  /** k unclean closes in a row, with no open in between. */
  function UncleanCloses(k: nat): (es: seq<Event>)
    ensures |es| == k && forall i :: 0 <= i < k ==> es[i] == SocketClosed(false)
  {
    seq(k, _ => SocketClosed(false))
  }

  /** Unclean closes with nothing in between schedule the backoff of attempt a, a+1, ...
      until the budget runs out, and nothing afterwards. */
  lemma {:induction false} BackoffSchedule(a: nat, k: nat)
    ensures forall i :: 0 <= i < k ==>
      Retries(Supervisor(false, a), UncleanCloses(k))[i] == (if a + i < MaxAttempts then Some(Delay(a + i)) else None)
    decreases k
  {
    if k > 0 {
      var s, es := Supervisor(false, a), UncleanCloses(k);
      var t := Step(s, es[0]);
      assert es[1..] == UncleanCloses(k - 1);
      // the first close uses up one attempt while budget is left, and nothing once it is gone
      var a' := if a < MaxAttempts then a + 1 else a;
      assert t.next == Supervisor(false, a');
      var tail := Retries(t.next, UncleanCloses(k - 1));
      assert Retries(s, es) == [t.retry] + tail;
      BackoffSchedule(a', k - 1);
      forall i | 0 < i < k
        ensures Retries(s, es)[i] == (if a + i < MaxAttempts then Some(Delay(a + i)) else None)
      {
        assert Retries(s, es)[i] == tail[i - 1];
      }
    }
  }

  /** From a fresh session the delays are 1 s, 2 s, 4 s, 8 s, 10 s, and a sixth unclean close schedules nothing. */
  lemma FreshSessionDelays()
    ensures Retries(Initial, UncleanCloses(6)) == [Some(1000), Some(2000), Some(4000), Some(8000), Some(10000), None]
  {
    BackoffSchedule(0, 6);
    assert Pow2(3) == 8 && Pow2(4) == 16;
  }

  /** Once the manual-close flag is up, no event schedules a reconnect and the flag stays up. */
  lemma {:induction false} ManualCloseIsFinal(s: Supervisor, es: seq<Event>)
    requires s.manualClose
    ensures Scheduled(Retries(s, es)) == 0
    ensures After(s, es).manualClose
    decreases |es|
  {
    if es != [] {
      ManualCloseIsFinal(Step(s, es[0]).next, es[1..]);
    }
  }

  /** Without an open in between, a session schedules at most the reconnects left in its budget. */
  lemma {:induction false} RetriesBoundedWithoutOpen(s: Supervisor, es: seq<Event>)
    requires WithinBudget(s)
    requires forall i :: 0 <= i < |es| ==> !es[i].Opened?
    ensures Scheduled(Retries(s, es)) <= MaxAttempts - s.attempts
    decreases |es|
  {
    if es != [] {
      var t := Step(s, es[0]);
      RetriesBoundedWithoutOpen(t.next, es[1..]);
    }
  }

  /** After a successful open, five unclean closes are all retried again, whatever came before. */
  lemma OpenRestoresBudget(s: Supervisor)
    requires !s.manualClose
    ensures Scheduled(Retries(s, [Opened] + UncleanCloses(MaxAttempts))) == MaxAttempts
  {
    var es := [Opened] + UncleanCloses(MaxAttempts);
    assert es[1..] == UncleanCloses(MaxAttempts);
    BackoffSchedule(0, MaxAttempts);
    var r := Retries(Supervisor(false, 0), UncleanCloses(MaxAttempts));
    ScheduledAll(r);
    assert Retries(s, es) == [None] + r;
    assert ([None] + r)[1..] == r;
  }

  /** Whether a pending retry timer, when it fires, should construct a new socket: only while the
      client has not called close(). (As written, the timer calls connect() unconditionally.) */
  predicate TimerReconnects(s: Supervisor) {
    !s.manualClose
  }

  /** Once close() has been called, no retry timer reconnects, whatever events follow. */
  lemma NoReconnectAfterClose(s: Supervisor, es: seq<Event>)
    ensures !TimerReconnects(After(Step(s, CloseRequested).next, es))
  {
    ManualCloseIsFinal(Step(s, CloseRequested).next, es);
  }
}
