/**
 * The process-wide connection status (src/services/connectionStatus.js): a current value and a
 * set of listener callbacks. Changing the value notifies every listener once; setting the same
 * value again notifies no one; subscribing delivers the current value at once.
 */
module ConnectionStatus {

  datatype ConnectionState = Connecting | Connected | Reconnecting | Disconnected

  /** The identity of a listener callback (a JavaScript function compared by reference). */
  type Listener = nat

  /** One invocation of a listener with a status. */
  datatype Delivery = Delivery(listener: Listener, status: ConnectionState)

  /** A JavaScript Set of listeners: no duplicates, iterated in insertion order. */
  predicate Distinct(ls: seq<Listener>) {
    forall i, j :: 0 <= i < j < |ls| ==> ls[i] != ls[j]
  }

  /** listeners.forEach(listener => listener(status)): one delivery per listener, in set order. */
  function Broadcast(ls: seq<Listener>, status: ConnectionState): (r: seq<Delivery>)
    ensures |r| == |ls|
  {
    if ls == [] then [] else Broadcast(ls[..|ls| - 1], status) + [Delivery(ls[|ls| - 1], status)]
  }

  /** The number of deliveries made to listener l. */
  function DeliveriesTo(ds: seq<Delivery>, l: Listener): nat
  {
    if ds == [] then 0 else DeliveriesTo(ds[..|ds| - 1], l) + (if ds[|ds| - 1].listener == l then 1 else 0)
  }

  lemma {:induction false} DeliveriesToAppend(a: seq<Delivery>, b: seq<Delivery>, l: Listener)
    ensures DeliveriesTo(a + b, l) == DeliveriesTo(a, l) + DeliveriesTo(b, l)
    decreases |b|
  {
    if b != [] {
      assert (a + b)[..|a + b| - 1] == a + b[..|b| - 1];
      assert (a + b)[|a + b| - 1] == b[|b| - 1];
      DeliveriesToAppend(a, b[..|b| - 1], l);
    } else {
      assert a + b == a;
    }
  }

  /** A broadcast reaches every registered listener exactly once, with the new status, and no one else. */
  lemma {:induction false} BroadcastReachesEachOnce(ls: seq<Listener>, status: ConnectionState, l: Listener)
    requires Distinct(ls)
    ensures DeliveriesTo(Broadcast(ls, status), l) == if l in ls then 1 else 0
    ensures forall d :: d in Broadcast(ls, status) ==> d.status == status && d.listener in ls
  {
    if ls != [] {
      var init := ls[..|ls| - 1];
      assert Distinct(init);
      BroadcastReachesEachOnce(init, status, l);
      assert ls == init + [ls[|ls| - 1]];
      assert ls[|ls| - 1] !in init;
      var r := Broadcast(ls, status);
      assert r[..|r| - 1] == Broadcast(init, status);
    }
  }

  /** listeners.add(l): appended when absent, otherwise the set is unchanged. */
  function Added(ls: seq<Listener>, l: Listener): (r: seq<Listener>)
    ensures Distinct(ls) ==> Distinct(r)
    ensures l in r && forall m :: m in r <==> m in ls || m == l
  {
    if l in ls then ls else ls + [l]
  }

  /** Subscribing a callback that is already registered leaves a single registration. */
  lemma AddedTwiceRegistersOnce(ls: seq<Listener>, l: Listener)
    ensures Added(Added(ls, l), l) == Added(ls, l)
    ensures Distinct(ls) ==> Distinct(Added(Added(ls, l), l))
  {
  }

  /** listeners.delete(l): every other listener keeps its place. */
  function Removed(ls: seq<Listener>, l: Listener): (r: seq<Listener>)
  {
    if ls == [] then []
    else if ls[|ls| - 1] == l then Removed(ls[..|ls| - 1], l)
    else Removed(ls[..|ls| - 1], l) + [ls[|ls| - 1]]
  }

  /** Removing l drops l and nothing else; the set stays duplicate-free. */
  lemma {:induction false} RemovedDropsOnly(ls: seq<Listener>, l: Listener)
    ensures forall m :: m in Removed(ls, l) <==> m in ls && m != l
    ensures Distinct(ls) ==> Distinct(Removed(ls, l))
  {
    if ls != [] {
      var init := ls[..|ls| - 1];
      RemovedDropsOnly(init, l);
      assert ls == init + [ls[|ls| - 1]];
      if Distinct(ls) {
        assert Distinct(init);
        assert ls[|ls| - 1] !in init;
      }
    }
  }

  /** Removing a listener that is not there changes nothing. */
  lemma {:induction false} RemovedAbsent(ls: seq<Listener>, l: Listener)
    requires l !in ls
    ensures Removed(ls, l) == ls
  {
    if ls != [] {
      assert ls == ls[..|ls| - 1] + [ls[|ls| - 1]];
      RemovedAbsent(ls[..|ls| - 1], l);
    }
  }

  class StatusBroadcaster {
    var current: ConnectionState
    var listeners: seq<Listener>
    /** Every listener invocation so far, in order. */
    var delivered: seq<Delivery>

    ghost predicate Valid()
      reads this
    {
      Distinct(listeners)
    }

    /** The module's initial state: DISCONNECTED and no listeners. */
    constructor ()
      ensures Valid()
      ensures current == Disconnected && listeners == [] && delivered == []
    {
      current := Disconnected;
      listeners := [];
      delivered := [];
    }

    /** getConnectionStatus */
    function Status(): (s: ConnectionState)
      reads this
      ensures s == current
    {
      current
    }

    /** setConnectionStatus: a change of value is stored and broadcast to every listener; the same
        value again changes nothing and notifies no one. */
    method SetStatus(status: ConnectionState)
      requires Valid()
      modifies this
      ensures Valid() && listeners == old(listeners) && current == status
      ensures delivered == old(delivered) + if status != old(current) then Broadcast(listeners, status) else []
    {
      if current == status {
        return;
      }
      current := status;
      var i := 0;
      while i < |listeners|
        invariant 0 <= i <= |listeners|
        invariant listeners == old(listeners) && current == status
        invariant delivered == old(delivered) + Broadcast(listeners[..i], status)
      {
        assert listeners[..i + 1][..i] == listeners[..i];
        delivered := delivered + [Delivery(listeners[i], status)];
        i := i + 1;
      }
      assert listeners[..i] == listeners;
    }

    /** subscribeToConnectionStatus: registers the callback (once, however often it subscribes) and
        calls it at once with the current status. The returned handle is what the unsubscribe
        closure removes. */
    method Subscribe(l: Listener) returns (handle: Listener)
      requires Valid()
      modifies this
      ensures Valid() && current == old(current) && handle == l
      ensures listeners == Added(old(listeners), l)
      ensures delivered == old(delivered) + [Delivery(l, current)]
    {
      listeners := Added(listeners, l);
      delivered := delivered + [Delivery(l, current)];
      handle := l;
    }

    /** The unsubscribe closure: removes the callback; other listeners keep their registration. */
    method Unsubscribe(handle: Listener)
      requires Valid()
      modifies this
      ensures Valid() && current == old(current) && delivered == old(delivered)
      ensures listeners == Removed(old(listeners), handle)
    {
      RemovedDropsOnly(listeners, handle);
      listeners := Removed(listeners, handle);
    }
  }

  /** Setting the same status twice in a row notifies every listener at most once. */
  method SetTwice(b: StatusBroadcaster, status: ConnectionState)
    requires b.Valid()
    modifies b
    ensures b.Valid() && b.current == status
    ensures b.delivered == old(b.delivered) + if status != old(b.current) then Broadcast(b.listeners, status) else []
  {
    b.SetStatus(status);
    b.SetStatus(status);
  }

  /** After unsubscribing, a listener receives none of the deliveries a later change makes, while
      every remaining listener receives exactly one if the status changed and none otherwise. */
  method UnsubscribeThenChange(b: StatusBroadcaster, l: Listener, status: ConnectionState)
    requires b.Valid()
    modifies b
    ensures b.Valid()
    ensures DeliveriesTo(b.delivered, l) == DeliveriesTo(old(b.delivered), l)
    ensures forall m :: m in old(b.listeners) && m != l ==> m in b.listeners
    ensures forall m :: m in b.listeners ==>
      DeliveriesTo(b.delivered, m) == DeliveriesTo(old(b.delivered), m) + if status != old(b.current) then 1 else 0
  {
    b.Unsubscribe(l);
    RemovedDropsOnly(old(b.listeners), l);
    ghost var before := b.delivered;
    b.SetStatus(status);
    assert b.delivered == before + b.delivered[|before|..];
    forall m | m == l || m in b.listeners
      ensures DeliveriesTo(b.delivered, m) == DeliveriesTo(before, m) + if status != old(b.current) && m != l then 1 else 0
    {
      BroadcastReachesEachOnce(b.listeners, status, m);
      DeliveriesToAppend(before, b.delivered[|before|..], m);
    }
  }
}
