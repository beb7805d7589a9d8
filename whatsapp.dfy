/**
 * The WhatsApp connection service (`src/services/whatsapp.ts`): a
 * three-state connection status and a registry of listener callbacks that
 * is told about every change.
 *
 * Callbacks are identified by opaque `ListenerId`s; calling a callback is
 * recorded as a `Delivery` appended to `delivered`, so the order in which
 * listeners hear about events is part of the state.  A JavaScript `Set`
 * iterates in insertion order, so the registry is a sequence without
 * duplicates.
 */
module WhatsApp {
  import opened Common

  datatype ConnectionStatus = Disconnected | Connecting | Connected

  /** The `(event, data)` pairs handed to listeners. */
  datatype Event =
    | StatusEvent(status: ConnectionStatus)
    | QrEvent(qr: string)
    | ErrorEvent(message: string)
    | OtherEvent(kind: string)

  type ListenerId = nat

  datatype Delivery = Delivery(listener: ListenerId, event: Event)

  datatype SendReceipt = SendReceipt(success: bool)

  const NotConnectedMessage := "WhatsApp is not connected"

  /** The calls one `notifyListeners(e)` makes: one per listener, in registration order. */
  function Broadcast(listeners: seq<ListenerId>, e: Event): (r: seq<Delivery>)
    ensures |r| == |listeners|
    ensures forall i :: 0 <= i < |r| ==> r[i] == Delivery(listeners[i], e)
  {
    if listeners == [] then [] else [Delivery(listeners[0], e)] + Broadcast(listeners[1..], e)
  }

  /** Notifying one more listener adds one call at the end. */
  lemma BroadcastSnoc(listeners: seq<ListenerId>, l: ListenerId, e: Event)
    ensures Broadcast(listeners + [l], e) == Broadcast(listeners, e) + [Delivery(l, e)]
  {
    var a, b := Broadcast(listeners + [l], e), Broadcast(listeners, e) + [Delivery(l, e)];
    forall i | 0 <= i < |a| ensures a[i] == b[i] {
    }
  }

  /** The events listener `l` has been called with, in order. */
  function Received(log: seq<Delivery>, l: ListenerId): seq<Event> {
    if log == [] then []
    else (if log[0].listener == l then [log[0].event] else []) + Received(log[1..], l)
  }

  lemma {:induction false} ReceivedAppend(a: seq<Delivery>, b: seq<Delivery>, l: ListenerId)
    ensures Received(a + b, l) == Received(a, l) + Received(b, l)
    decreases |a|
  {
    if a != [] {
      assert (a + b)[1..] == a[1..] + b;
      ReceivedAppend(a[1..], b, l);
    } else {
      assert a + b == b;
    }
  }

  lemma ReceivedCons(d: Delivery, rest: seq<Delivery>, l: ListenerId)
    ensures Received([d] + rest, l) == (if d.listener == l then [d.event] else []) + Received(rest, l)
  {
    assert ([d] + rest)[1..] == rest;
  }

  lemma NoDuplicatesTail(s: seq<ListenerId>)
    requires s != [] && NoDuplicates(s)
    ensures NoDuplicates(s[1..]) && s[0] !in s[1..]
  {
    forall i, j | 0 <= i < j < |s[1..]| ensures s[1..][i] != s[1..][j] {
      assert s[1..][i] == s[i + 1] && s[1..][j] == s[j + 1];
    }
    forall k | 0 <= k < |s[1..]| ensures s[1..][k] != s[0] {
      assert s[1..][k] == s[k + 1];
    }
  }

  /**
   * A notification reaches every registered listener exactly once and no
   * other callback at all.
   */
  lemma {:induction false} BroadcastReachesEachListenerOnce(listeners: seq<ListenerId>, e: Event, l: ListenerId)
    requires NoDuplicates(listeners)
    ensures Received(Broadcast(listeners, e), l) == if l in listeners then [e] else []
    decreases |listeners|
  {
    if listeners != [] {
      var head, tail := listeners[0], listeners[1..];
      NoDuplicatesTail(listeners);
      BroadcastReachesEachListenerOnce(tail, e, l);
      assert Broadcast(listeners, e) == [Delivery(head, e)] + Broadcast(tail, e);
      ReceivedCons(Delivery(head, e), Broadcast(tail, e), l);
      assert l in listeners <==> l == head || l in tail by {
        assert listeners == [head] + tail;
      }
    }
  }

  /**
   * What one listener sees of two notifications in a row, such as the two
   * status events of `connect`: both, in order, if it is registered, and
   * nothing otherwise.
   */
  lemma TwoBroadcastsInOrder(listeners: seq<ListenerId>, e1: Event, e2: Event, l: ListenerId)
    requires NoDuplicates(listeners)
    ensures Received(Broadcast(listeners, e1) + Broadcast(listeners, e2), l)
            == if l in listeners then [e1, e2] else []
  {
    ReceivedAppend(Broadcast(listeners, e1), Broadcast(listeners, e2), l);
    BroadcastReachesEachListenerOnce(listeners, e1, l);
    BroadcastReachesEachListenerOnce(listeners, e2, l);
  }

  /** `listeners.delete(l)`. */
  function Unregister(listeners: seq<ListenerId>, l: ListenerId): (r: seq<ListenerId>)
    requires NoDuplicates(listeners)
    ensures NoDuplicates(r)
    ensures l !in r
    ensures forall m :: m != l ==> (m in r <==> m in listeners)
    ensures IsSubsequence(r, listeners)
  {
    FilterNoDuplicates(listeners, m => m != l);
    FilterIsSubsequence(listeners, m => m != l);
    Filter(listeners, m => m != l)
  }

  /**
   * After `removeListener(l)`, a notification no longer reaches `l` and
   * reaches every other callback exactly as before.
   */
  lemma UnregisteredHearsNothing(listeners: seq<ListenerId>, l: ListenerId, m: ListenerId, e: Event)
    requires NoDuplicates(listeners)
    ensures Received(Broadcast(Unregister(listeners, l), e), l) == []
    ensures m != l ==> Received(Broadcast(Unregister(listeners, l), e), m) == Received(Broadcast(listeners, e), m)
  {
    BroadcastReachesEachListenerOnce(Unregister(listeners, l), e, l);
    BroadcastReachesEachListenerOnce(Unregister(listeners, l), e, m);
    BroadcastReachesEachListenerOnce(listeners, e, m);
  }

  /**
   * `listeners.add(l)`: a new callback goes last, after every earlier
   * registration; a callback already in the set is not added twice.
   */
  function Register(listeners: seq<ListenerId>, l: ListenerId): (r: seq<ListenerId>)
    requires NoDuplicates(listeners)
    ensures NoDuplicates(r)
    ensures forall m :: m in r <==> m == l || m in listeners
    ensures l in listeners ==> r == listeners
    ensures l !in listeners ==> |r| == |listeners| + 1 && r[..|listeners|] == listeners && r[|listeners|] == l
  {
    if l in listeners then listeners else listeners + [l]
  }

  class WhatsAppService {
    var status: ConnectionStatus
    var listeners: seq<ListenerId>
    /** Every callback invocation so far. */
    var delivered: seq<Delivery>
    /** The `connected` flag last written to the `channels` table, if any write succeeded. */
    var persisted: Option<bool>

    ghost predicate Valid()
      reads this
    {
      NoDuplicates(listeners)
    }

    constructor ()
      ensures Valid()
      ensures status == Disconnected && listeners == [] && delivered == [] && persisted == None
    {
      status := Disconnected;
      listeners := [];
      delivered := [];
      persisted := None;
    }

    /** Calls every registered listener with `e`, in registration order. */
    method NotifyListeners(e: Event)
      requires Valid()
      modifies this`delivered
      ensures delivered == old(delivered) + Broadcast(listeners, e)
    {
      var i := 0;
      while i < |listeners|
        invariant 0 <= i <= |listeners|
        invariant delivered == old(delivered) + Broadcast(listeners[..i], e)
      {
        assert listeners[..i + 1] == listeners[..i] + [listeners[i]];
        BroadcastSnoc(listeners[..i], listeners[i], e);
        delivered := delivered + [Delivery(listeners[i], e)];
        i := i + 1;
      }
      assert listeners[..i] == listeners;
    }

    /**
     * The best-effort write of the connection flag.  `writeSucceeds` is the
     * database's answer; a failure is swallowed and touches nothing else.
     */
    method UpdateChannelStatus(connected: bool, writeSucceeds: bool)
      modifies this`persisted
      ensures persisted == if writeSucceeds then Some(connected) else old(persisted)
    {
      if writeSucceeds {
        persisted := Some(connected);
      }
    }

    method Connect(writeSucceeds: bool)
      requires Valid()
      modifies this
      ensures Valid()
      ensures status == Connected
      ensures listeners == old(listeners)
      ensures delivered == old(delivered) + Broadcast(listeners, StatusEvent(Connecting))
                                          + Broadcast(listeners, StatusEvent(Connected))
      ensures persisted == if writeSucceeds then Some(true) else old(persisted)
    {
      status := Connecting;
      NotifyListeners(StatusEvent(status));
      status := Connected;
      NotifyListeners(StatusEvent(status));
      UpdateChannelStatus(true, writeSucceeds);
    }

    method Disconnect(writeSucceeds: bool)
      requires Valid()
      modifies this
      ensures Valid()
      ensures status == Disconnected
      ensures listeners == old(listeners)
      ensures delivered == old(delivered) + Broadcast(listeners, StatusEvent(Disconnected))
      ensures persisted == if writeSucceeds then Some(false) else old(persisted)
    {
      status := Disconnected;
      NotifyListeners(StatusEvent(status));
      UpdateChannelStatus(false, writeSucceeds);
    }

    method SendMessage(to: string, message: string) returns (r: Result<SendReceipt, string>)
      ensures r == if status == Connected then Ok(SendReceipt(true)) else Err(NotConnectedMessage)
    {
      if status != Connected {
        return Err(NotConnectedMessage);
      }
      r := Ok(SendReceipt(true));
    }

    /** Registers `l` and at once calls it, and only it, with the current status. */
    method AddListener(l: ListenerId)
      requires Valid()
      modifies this`listeners, this`delivered
      ensures Valid()
      ensures listeners == Register(old(listeners), l)
      ensures delivered == old(delivered) + [Delivery(l, StatusEvent(status))]
    {
      listeners := Register(listeners, l);
      delivered := delivered + [Delivery(l, StatusEvent(status))];
    }

    method RemoveListener(l: ListenerId)
      requires Valid()
      modifies this`listeners
      ensures Valid()
      ensures listeners == Unregister(old(listeners), l)
    {
      listeners := Unregister(listeners, l);
    }

    method GetStatus() returns (s: ConnectionStatus)
      ensures s == status
    {
      s := status;
    }
  }
}
