/** The module-level socket of `src/socket/index.js`. Every `initiateSocket` call
    creates a new client, overwrites the module variable without disconnecting
    the previous client, and adds an AppState listener that is never removed.
    The handlers read the module variable when they run, so an old client's
    `connect` handler and an old AppState listener act on the CURRENT socket,
    each with the user it captured. Transport events (`connect`, a dropped
    connection) are inputs; `emit` calls are recorded in order. */
module Socket {
  import opened Common
  import opened Auth

  datatype AppStateStatus = Active | Background | Inactive | Unknown | Extension

  datatype SocketEvent = Setup(user: UserRecord) | AppBackground

  /** One `socket.emit` call, on the client with the given creation index. */
  datatype Emission = Emission(socket: nat, event: SocketEvent)

  /** A client made by `io(...)`: the user its handlers captured, whether the transport is
      connected, and how many times `connect()` was called on it. */
  datatype Client = Client(user: UserRecord, connected: bool, connectCalls: nat)

  /** What the AppState listeners, run in registration order, emit for one state change on the
      current socket `cur` whose `connected` flag is `connected`. `connect()` only starts
      connecting, so the flag stays the same for every listener. */
  function AppStateEmissions(listeners: seq<UserRecord>, next: AppStateStatus, connected: bool, cur: nat): (r: seq<Emission>)
    decreases |listeners|
  {
    if listeners == [] then []
    else
      var n := |listeners| - 1;
      AppStateEmissions(listeners[..n], next, connected, cur) + ListenerEmissions(listeners[n], next, connected, cur)
  }

  /** What one AppState listener, which captured `user`, emits for the state change. */
  function ListenerEmissions(user: UserRecord, next: AppStateStatus, connected: bool, cur: nat): seq<Emission>
  {
    if next == Active && !connected then [Emission(cur, Setup(user))]
    else if next == Background || next == Inactive then [Emission(cur, AppBackground)]
    else []
  }

  class SocketModule {
    /** The module-level `socket` variable: the index of the latest client, if any. */
    var socket: Option<nat>
    var clients: seq<Client>
    /** The user captured by each AppState listener, in registration order. */
    var appStateListeners: seq<UserRecord>
    var emitted: seq<Emission>

    ghost predicate Valid()
      reads this
    {
      && |appStateListeners| == |clients|
      && (forall i :: 0 <= i < |clients| ==> appStateListeners[i] == clients[i].user)
      && socket == (if clients == [] then None else Some(|clients| - 1))
    }

    constructor ()
      ensures Valid() && socket == None && clients == [] && emitted == []
    {
      socket := None;
      clients := [];
      appStateListeners := [];
      emitted := [];
    }

    /** `initiateSocket(user)`: a new, not yet connected client becomes the module socket, the
        previous one is left as it is, and one more AppState listener is registered. */
    method InitiateSocket(user: UserRecord) returns (s: nat)
      requires Valid()
      modifies this
      ensures Valid()
      ensures s == |old(clients)| && socket == Some(s)
      ensures clients == old(clients) + [Client(user, false, 0)]
      ensures appStateListeners == old(appStateListeners) + [user]
      ensures emitted == old(emitted)
    {
      s := |clients|;
      clients := clients + [Client(user, false, 0)];
      appStateListeners := appStateListeners + [user];
      socket := Some(s);
    }

    /** The transport of client `i` reports `connect`: its handler emits `setup` with the user it
        captured, on the current module socket. */
    method OnConnect(i: nat)
      requires Valid() && i < |clients|
      modifies this
      ensures Valid()
      ensures clients == old(clients)[i := old(clients)[i].(connected := true)]
      ensures emitted == old(emitted) + [Emission(|clients| - 1, Setup(old(clients)[i].user))]
      ensures socket == old(socket) && appStateListeners == old(appStateListeners)
    {
      clients := clients[i := clients[i].(connected := true)];
      emitted := emitted + [Emission(socket.value, Setup(clients[i].user))];
    }

    /** The transport of client `i` drops its connection. */
    method OnTransportClose(i: nat)
      requires Valid() && i < |clients|
      modifies this
      ensures Valid()
      ensures clients == old(clients)[i := old(clients)[i].(connected := false)]
      ensures emitted == old(emitted) && socket == old(socket) && appStateListeners == old(appStateListeners)
    {
      clients := clients[i := clients[i].(connected := false)];
    }

    /** `connect_error`: only logged; no retry is scheduled and nothing changes. */
    method OnConnectError(i: nat)
      requires Valid() && i < |clients|
    {
    }

    /** An AppState `change` event: every registered listener runs, in order, against the current
        module socket. On 'active' with the socket disconnected each listener calls `connect()` and
        emits `setup` with its own user; on 'background' or 'inactive' each emits `app background`
        whatever the connection state; other states do nothing. */
    method OnAppStateChange(next: AppStateStatus)
      requires Valid()
      modifies this
      ensures Valid()
      ensures socket == old(socket) && appStateListeners == old(appStateListeners)
      ensures old(socket).None? ==> emitted == old(emitted) && clients == old(clients)
      ensures old(socket).Some? ==>
        var cur := old(socket).value;
        var calling := next == Active && !old(clients)[cur].connected;
        && emitted == old(emitted) + AppStateEmissions(old(appStateListeners), next, old(clients)[cur].connected, cur)
        && clients == old(clients)[cur := old(clients)[cur].(connectCalls :=
             old(clients)[cur].connectCalls + if calling then |old(appStateListeners)| else 0)]
    {
      if socket.None? {
        return;
      }
      var cur := socket.value;
      var listeners := appStateListeners;
      var connected := clients[cur].connected;
      var sent: seq<Emission> := [];
      var calls := 0;
      var i := 0;
      while i < |listeners|
        invariant 0 <= i <= |listeners|
        invariant calls == if next == Active && !connected then i else 0
        invariant sent == AppStateEmissions(listeners[..i], next, connected, cur)
      {
        if next == Active && !connected {
          calls := calls + 1;
        }
        sent := sent + ListenerEmissions(listeners[i], next, connected, cur);
        assert listeners[..i + 1][..i] == listeners[..i];
        i := i + 1;
      }
      assert listeners[..i] == listeners;
      clients := clients[cur := clients[cur].(connectCalls := clients[cur].connectCalls + calls)];
      emitted := emitted + sent;
    }

    /** `disconnectSocket()`: disconnects the module socket; a no-op when none was ever created. */
    method DisconnectSocket()
      requires Valid()
      modifies this
      ensures Valid()
      ensures old(socket).None? ==> clients == old(clients)
      ensures old(socket).Some? ==> clients == old(clients)[old(socket).value := old(clients)[old(socket).value].(connected := false)]
      ensures emitted == old(emitted) && socket == old(socket) && appStateListeners == old(appStateListeners)
    {
      if socket.Some? {
        var cur := socket.value;
        clients := clients[cur := clients[cur].(connected := false)];
      }
    }

    /** `getSocket()`: the latest client created, or undefined before the first `initiateSocket`. */
    method GetSocket() returns (s: Option<nat>)
      requires Valid()
      ensures s.None? <==> clients == []
      ensures s.Some? ==> s.value == |clients| - 1
    {
      s := socket;
    }
  }

  /** One session coming back to the foreground while disconnected: the listener emits `setup` at
      once, and when the transport then connects the `connect` handler emits it a second time. */
  method ForegroundReconnect(user: UserRecord) returns (log: seq<Emission>, connectCalls: nat)
    ensures log == [Emission(0, Setup(user)), Emission(0, Setup(user))]
    ensures connectCalls == 1
  {
    var m := new SocketModule();
    var s := m.InitiateSocket(user);
    m.OnAppStateChange(Active);
    assert [user][..0] == [];
    connectCalls := m.clients[s].connectCalls;
    m.OnConnect(s);
    log := m.emitted;
  }

  // ---------------------------------------------------------------------------
  // Properties of the AppState reaction

  /** On 'active' with the current socket disconnected, every listener emits `setup` with its own
      captured user, all on the current socket; nothing else is emitted. */
  lemma {:induction false} ActiveEmitsSetupPerListener(listeners: seq<UserRecord>, cur: nat)
    ensures var r := AppStateEmissions(listeners, Active, false, cur);
      |r| == |listeners| && forall k :: 0 <= k < |r| ==> r[k] == Emission(cur, Setup(listeners[k]))
  {
    if listeners != [] {
      var n := |listeners| - 1;
      ActiveEmitsSetupPerListener(listeners[..n], cur);
    }
  }

  /** On 'active' with the socket already connected nothing is emitted. */
  lemma {:induction false} ActiveConnectedIsSilent(listeners: seq<UserRecord>, cur: nat)
    ensures AppStateEmissions(listeners, Active, true, cur) == []
  {
    if listeners != [] {
      ActiveConnectedIsSilent(listeners[..|listeners| - 1], cur);
    }
  }

  /** On 'background' or 'inactive' every listener emits `app background`, connected or not. */
  lemma {:induction false} BackgroundEmitsPerListener(listeners: seq<UserRecord>, next: AppStateStatus, connected: bool, cur: nat)
    requires next == Background || next == Inactive
    ensures var r := AppStateEmissions(listeners, next, connected, cur);
      |r| == |listeners| && forall k :: 0 <= k < |r| ==> r[k] == Emission(cur, AppBackground)
  {
    if listeners != [] {
      BackgroundEmitsPerListener(listeners[..|listeners| - 1], next, connected, cur);
    }
  }

  /** Other states emit nothing. */
  lemma {:induction false} OtherStatesAreSilent(listeners: seq<UserRecord>, next: AppStateStatus, connected: bool, cur: nat)
    requires next == Unknown || next == Extension
    ensures AppStateEmissions(listeners, next, connected, cur) == []
  {
    if listeners != [] {
      OtherStatesAreSilent(listeners[..|listeners| - 1], next, connected, cur);
    }
  }

  /** After `initiateSocket(a)` and then `initiateSocket(b)`, coming to the foreground with the
      second socket disconnected emits `setup` twice on it: first with `a`, captured by the older
      listener, then with `b`. */
  lemma TwoSessionsBothSetUp(a: UserRecord, b: UserRecord)
    ensures AppStateEmissions([a, b], Active, false, 1) == [Emission(1, Setup(a)), Emission(1, Setup(b))]
  {
    assert [a, b][..1] == [a];
    assert [a][..0] == [];
    assert AppStateEmissions([a], Active, false, 1) == [Emission(1, Setup(a))];
  }
}
