/**
 * The clock-offset holder (src/services/timeService.js): it asks a time authority for its transmit
 * time, corrects it by half the round trip, and keeps the difference to the local clock as an
 * offset in seconds. A failed attempt leaves every stored value as it was; the synced flag, once
 * set, stays set; at most one request is in flight.
 */
module TimeService {
  import opened Wrappers

  const SyncIntervalMs: int := 60000
  const IstOffsetSeconds: int := 19800

  /** The outcome of the time request: no response or a thrown error, a non-ok status, a body that is
      not JSON, or a JSON body whose `nstt` (authority transmit time, UTC seconds) is None when
      missing, not a number or not finite. */
  datatype TimeResponse = Unreachable | NotOk | Unparseable | Ok(nstt: Option<real>)

  /** The four readings of Date.now() (ms) a sync makes: before the request, after it, when the
      offset is computed and when the sync time is stored. */
  datatype SyncClock = SyncClock(sentAt: int, receivedAt: int, offsetAt: int, stampAt: int)

  /** The stored clock correction: offset in seconds, local time (ms) of the last successful sync,
      and whether any sync has succeeded. */
  datatype ClockState = ClockState(offset: real, lastSyncTime: int, synced: bool)

  const Unsynced: ClockState := ClockState(0.0, 0, false)

  /** The response is used only when `nstt` is truthy and finite. */
  predicate Accepted(resp: TimeResponse) {
    resp.Ok? && resp.nstt.Some? && resp.nstt.value != 0.0
  }

  /** The stored state after one completed sync attempt. */
  function AfterSync(c: ClockState, resp: TimeResponse, clock: SyncClock): (r: ClockState)
    // a failure of any kind changes nothing
    ensures !Accepted(resp) ==> r == c
    // a success marks the clock synced at the stamp reading
    ensures Accepted(resp) ==> r.synced && r.lastSyncTime == clock.stampAt
    // and the corrected clock, read when the offset was computed, shows the authority's
    // transmit time plus half the round trip
    ensures Accepted(resp) ==>
      clock.offsetAt as real / 1000.0 + r.offset == resp.nstt.value + (clock.receivedAt - clock.sentAt) as real / 2000.0
  {
    if Accepted(resp) then
      var latency := (clock.receivedAt - clock.sentAt) as real / 2000.0;
      var adjusted := resp.nstt.value + latency;
      ClockState(adjusted - clock.offsetAt as real / 1000.0, clock.stampAt, true)
    else c
  }

  /** A 200 ms round trip is compensated by 100 ms: T = 1000 s gives offset 1000.1 - local seconds. */
  lemma HalfRoundTrip(c: ClockState, t0: int, local: int, stamp: int)
    ensures AfterSync(c, Ok(Some(1000.0)), SyncClock(t0, t0 + 200, local, stamp)).offset == 1000.1 - local as real / 1000.0
  {
  }

  /** One sync attempt: the response and the clock readings it was made with. */
  datatype Attempt = Attempt(resp: TimeResponse, clock: SyncClock)

  /** The state after a sequence of completed attempts, oldest first. */
  function AfterAttempts(c: ClockState, attempts: seq<Attempt>): ClockState
  {
    if attempts == [] then c
    else
      var last := attempts[|attempts| - 1];
      AfterSync(AfterAttempts(c, attempts[..|attempts| - 1]), last.resp, last.clock)
  }

  /** The synced flag never goes back to false. */
  lemma {:induction false} SyncedIsMonotone(c: ClockState, attempts: seq<Attempt>)
    requires c.synced
    ensures AfterAttempts(c, attempts).synced
  {
    if attempts != [] {
      SyncedIsMonotone(c, attempts[..|attempts| - 1]);
    }
  }

  /** The most recent accepted attempt, if any. */
  function LastAccepted(attempts: seq<Attempt>): (r: Option<Attempt>)
    ensures r.Some? ==> r.value in attempts && Accepted(r.value.resp)
    ensures r.None? ==> forall a :: a in attempts ==> !Accepted(a.resp)
  {
    if attempts == [] then None
    else if Accepted(attempts[|attempts| - 1].resp) then Some(attempts[|attempts| - 1])
    else LastAccepted(attempts[..|attempts| - 1])
  }

  /** Whatever happened in between, the stored state is the one the last successful attempt computed,
      and the initial one when no attempt succeeded: failed attempts are invisible. */
  lemma {:induction false} LastSuccessDecides(c: ClockState, attempts: seq<Attempt>)
    ensures LastAccepted(attempts).None? ==> AfterAttempts(c, attempts) == c
    ensures LastAccepted(attempts).Some? ==>
      var a := LastAccepted(attempts).value;
      AfterAttempts(c, attempts) == AfterSync(c, a.resp, a.clock)
  {
    if attempts != [] {
      LastSuccessDecides(c, attempts[..|attempts| - 1]);
    }
  }

  /** shouldResync: at least one interval has passed since the last successful sync. */
  predicate ResyncDue(c: ClockState, nowMs: int) {
    nowMs - c.lastSyncTime >= SyncIntervalMs
  }

  /** Right after a success the resync falls due exactly one interval after the stamp reading, and a
      failure never moves that moment. */
  lemma ResyncAfterSuccess(c: ClockState, resp: TimeResponse, clock: SyncClock, nowMs: int)
    ensures Accepted(resp) ==> (ResyncDue(AfterSync(c, resp, clock), nowMs) <==> nowMs >= clock.stampAt + SyncIntervalMs)
    ensures !Accepted(resp) ==> (ResyncDue(AfterSync(c, resp, clock), nowMs) <==> ResyncDue(c, nowMs))
  {
  }

  /** The module state of timeService.js. */
  class ClockSync {
    var timeOffset: real
    var lastSyncTime: int
    var isSyncing: bool
    var isSynced: bool
    var syncIntervalId: Option<nat>

    /** Until the first success the offset and the sync time keep their initial zeros. */
    ghost predicate Valid()
      reads this
    {
      !isSynced ==> timeOffset == 0.0 && lastSyncTime == 0
    }

    function State(): ClockState
      reads this
    {
      ClockState(timeOffset, lastSyncTime, isSynced)
    }

    constructor ()
      ensures Valid() && State() == Unsynced && !isSyncing && syncIntervalId.None?
    {
      timeOffset := 0.0;
      lastSyncTime := 0;
      isSyncing := false;
      isSynced := false;
      syncIntervalId := None;
    }

    /** syncTimeWithAPI up to its request: while another sync is in flight it returns the current synced
        flag at once and changes nothing; otherwise it marks a sync in flight and waits (None). */
    method BeginSync() returns (immediate: Option<bool>)
      requires Valid()
      modifies this
      ensures Valid() && isSyncing
      ensures State() == old(State()) && syncIntervalId == old(syncIntervalId)
      ensures immediate == if old(isSyncing) then Some(old(isSynced)) else None
    {
      if isSyncing {
        return Some(isSynced);
      }
      isSyncing := true;
      immediate := None;
    }

    /** syncTimeWithAPI after its request settles: stores the outcome, clears the in-flight flag whatever
        happened, and reports success. */
    method FinishSync(resp: TimeResponse, clock: SyncClock) returns (ok: bool)
      requires Valid() && isSyncing
      modifies this
      ensures Valid() && !isSyncing && syncIntervalId == old(syncIntervalId)
      ensures State() == AfterSync(old(State()), resp, clock)
      ensures ok <==> Accepted(resp)
    {
      ok := false;
      if resp.Ok? && resp.nstt.Some? && resp.nstt.value != 0.0 {
        var latency := (clock.receivedAt - clock.sentAt) as real / 2000.0;
        var adjusted := resp.nstt.value + latency;
        timeOffset := adjusted - clock.offsetAt as real / 1000.0;
        lastSyncTime := clock.stampAt;
        isSynced := true;
        ok := true;
      }
      isSyncing := false;
    }

    /** A whole syncTimeWithAPI call whose request settles before anything else happens. */
    method SyncNow(resp: TimeResponse, clock: SyncClock) returns (result: bool)
      requires Valid()
      modifies this
      ensures Valid() && syncIntervalId == old(syncIntervalId)
      ensures old(isSyncing) ==> result == old(isSynced) && State() == old(State()) && isSyncing
      ensures !old(isSyncing) ==> (result <==> Accepted(resp)) && State() == AfterSync(old(State()), resp, clock) && !isSyncing
    {
      var immediate := BeginSync();
      if immediate.Some? {
        return immediate.value;
      }
      result := FinishSync(resp, clock);
    }

    /** getIsSynced */
    function IsSynced(): (r: bool)
      reads this
      ensures r == State().synced
    {
      isSynced
    }

    /** getTimeOffset */
    function TimeOffset(): (r: real)
      reads this
      ensures r == State().offset
    {
      timeOffset
    }

    /** getAccurateUTCTimestamp, in seconds; before any success it is the local clock itself. */
    function AccurateUtc(nowMs: int): (r: real)
      requires Valid()
      reads this
      ensures !isSynced ==> r == nowMs as real / 1000.0
      ensures r - timeOffset == nowMs as real / 1000.0
    {
      nowMs as real / 1000.0 + timeOffset
    }

    /** getAccurateISTTimestamp: the corrected UTC seconds shifted by exactly 5 h 30 min. */
    function AccurateIst(nowMs: int): (r: real)
      requires Valid()
      reads this
      ensures r - AccurateUtc(nowMs) == IstOffsetSeconds as real
    {
      AccurateUtc(nowMs) + IstOffsetSeconds as real
    }

    /** shouldResync */
    function ShouldResync(nowMs: int): (r: bool)
      reads this
      ensures r <==> ResyncDue(State(), nowMs)
    {
      nowMs - lastSyncTime >= SyncIntervalMs
    }

    /** initTimeService: a no-op when an interval is already registered; otherwise one sync (awaited)
        and the periodic resync registered under `id`. */
    method Init(resp: TimeResponse, clock: SyncClock, id: nat)
      requires Valid()
      modifies this
      ensures Valid()
      ensures old(syncIntervalId).Some? ==>
        syncIntervalId == old(syncIntervalId) && State() == old(State()) && isSyncing == old(isSyncing)
      ensures old(syncIntervalId).None? ==> syncIntervalId == Some(id)
      ensures old(syncIntervalId).None? && !old(isSyncing) ==> State() == AfterSync(old(State()), resp, clock)
      ensures old(syncIntervalId).None? && old(isSyncing) ==> State() == old(State())
    {
      if syncIntervalId.Some? {
        return;
      }
      var _ := SyncNow(resp, clock);
      syncIntervalId := Some(id);
    }

    /** destroyTimeService: clears the registered interval, if any; a second call does nothing.
        Returns whether clearInterval was called. */
    method Destroy() returns (cleared: bool)
      requires Valid()
      modifies this
      ensures Valid() && syncIntervalId.None?
      ensures cleared <==> old(syncIntervalId).Some?
      ensures State() == old(State()) && isSyncing == old(isSyncing)
    {
      cleared := syncIntervalId.Some?;
      syncIntervalId := None;
    }
  }

  /** Start and stop are idempotent: a second Init keeps the first registration, a second Destroy
      clears nothing. */
  method StartStopTwice(s: ClockSync, resp: TimeResponse, clock: SyncClock, id1: nat, id2: nat)
    returns (registered: Option<nat>, first: bool, second: bool)
    requires s.Valid() && s.syncIntervalId.None?
    modifies s
    ensures registered == Some(id1)
    ensures first && !second
    ensures s.Valid() && s.syncIntervalId.None?
  {
    s.Init(resp, clock, id1);
    s.Init(resp, clock, id2);
    registered := s.syncIntervalId;
    first := s.Destroy();
    second := s.Destroy();
  }
}
