/**
 * The Angular relay client (`RelayService`): it picks the relay URL from the page's
 * location, keeps a persistent session id in local storage, owns one socket.io
 * socket on the `/relay` namespace, publishes connection, identification and the
 * latest inbound message, and sends payloads tagged with a delivery scope.
 *
 * The socket is an outbound frame log; socket events and the identification ack
 * are the `On...` methods; the `BehaviorSubject`s are plain fields.
 */
module Relay {
  import opened Messages
  import opened Protocol

  // ---------------------------------------------------------------------------
  // Relay URL

  /** The parts of `window.location` the URL choice reads. */
  datatype Location = Location(protocol: string, hostname: string, port: string)

  const LocalRelay := "http://localhost:5000"
  const DeployedRelay := "wss://demo.relay.coderic.net"

  /** `getRelayUrl()`: `window` is `None` when there is no browser window. */
  function RelayUrl(window: Option<Location>): (r: string)
    ensures window.None? ==> r == LocalRelay
    ensures window.Some? && window.value.hostname == "localhost" && window.value.port == "8000" ==> r == LocalRelay
    ensures window.Some? && window.value.hostname in {"coderic.org", "www.coderic.org"} ==> r == DeployedRelay
    ensures window.Some? && !(window.value.hostname == "localhost" && window.value.port == "8000")
            && window.value.hostname !in {"coderic.org", "www.coderic.org"}
            ==> r == window.value.protocol + "//" + window.value.hostname + ":5000"
  {
    if window.None? then LocalRelay
    else
      var loc := window.value;
      if loc.hostname == "localhost" && loc.port == "8000" then LocalRelay
      else if loc.hostname == "coderic.org" || loc.hostname == "www.coderic.org" then DeployedRelay
      else loc.protocol + "//" + loc.hostname + ":5000"
  }

  /** Served over plain http from localhost, the page reaches the local relay on every port, not only 8000. */
  lemma LocalhostHttpIsLocalRelay(port: string)
    ensures RelayUrl(Some(Location("http:", "localhost", port))) == LocalRelay
  {
    assert "http:" + "//" + "localhost" + ":5000" == LocalRelay;
  }

  /** Apart from the deployed host, the relay is always reached on port 5000. */
  lemma {:induction false} RelayUrlPort(window: Option<Location>)
    ensures RelayUrl(window) == DeployedRelay || ":5000" <= RelayUrl(window)[|RelayUrl(window)| - 5..]
  {
    var r := RelayUrl(window);
    if r != DeployedRelay {
      if r == LocalRelay {
        assert r[|r| - 5..] == ":5000";
      } else {
        var loc := window.value;
        var head := loc.protocol + "//" + loc.hostname;
        assert r == head + ":5000";
        assert r[|r| - 5..] == ":5000";
      }
    }
  }

  // ---------------------------------------------------------------------------
  // Session identity

  const SessionKey := "pagosSession"

  /** The browser's `localStorage`, as the key/value entries it holds. */
  class LocalStorage {
    var entries: map<string, string>

    constructor (entries: map<string, string>)
      ensures this.entries == entries
    {
      this.entries := entries;
    }
  }

  /**
   * `getSessionId()` on the store's entries: the stored id when there is a non-empty
   * one, otherwise `'user_' + suffix`, written back. `suffix` stands for the random
   * base-36 digits of `Math.random()`.
   */
  function LookupOrCreate(entries: map<string, string>, suffix: string): (r: (string, map<string, string>))
    ensures SessionKey in entries && entries[SessionKey] != "" ==> r == (entries[SessionKey], entries)
    ensures !(SessionKey in entries && entries[SessionKey] != "") ==>
              r.0 == "user_" + suffix && r.1 == entries[SessionKey := r.0]
    ensures SessionKey in r.1 && r.1[SessionKey] == r.0 && r.0 != ""
    ensures r.1.Keys == entries.Keys + {SessionKey}
  {
    if SessionKey in entries && entries[SessionKey] != "" then (entries[SessionKey], entries)
    else
      var id := "user_" + suffix;
      (id, entries[SessionKey := id])
  }

  /** A second lookup returns the same id and leaves the store alone, whatever randomness it draws. */
  lemma SessionIdStable(entries: map<string, string>, suffix1: string, suffix2: string)
    ensures var (id, after) := LookupOrCreate(entries, suffix1);
            LookupOrCreate(after, suffix2) == (id, after)
  {
  }

  /** `getSessionId()`: reads, and when needed writes, the `pagosSession` entry. */
  method GetSessionId(store: LocalStorage, suffix: string) returns (id: string)
    modifies store
    ensures (id, store.entries) == LookupOrCreate(old(store.entries), suffix)
  {
    var found := if SessionKey in store.entries then Some(store.entries[SessionKey]) else None;
    if found.None? || found.value == "" {
      id := "user_" + suffix;
      store.entries := store.entries[SessionKey := id];
    } else {
      id := found.value;
    }
  }

  /** Reading the session id twice gives the same id, and the second read writes nothing. */
  method GetSessionIdTwice(store: LocalStorage, suffix1: string, suffix2: string) returns (id1: string, id2: string)
    modifies store
    ensures id1 == id2 && id1 != ""
    ensures store.entries == LookupOrCreate(old(store.entries), suffix1).1
  {
    id1 := GetSessionId(store, suffix1);
    id2 := GetSessionId(store, suffix2);
    SessionIdStable(old(store.entries), suffix1, suffix2);
  }

  // ---------------------------------------------------------------------------
  // The relay client

  /** A `notificar` frame as published to consumers: the data with `_channel` set to `notificar`. */
  function FromNotificar(data: Message): (r: Message)
    ensures r.Keys == data.Keys + {"_channel"}
    ensures FieldIs(r, "_channel", "notificar")
    ensures forall k :: k in data && k != "_channel" ==> r[k] == data[k]
  {
    data["_channel" := Str("notificar")]
  }

  /** A session id as the service holds it: never empty. */
  type SessionId = s: string | s != "" witness "user_"

  class RelayService {
    const relayUrl: string
    const sessionId: SessionId
    /** The socket from the latest `connect()`; it is never cleared. */
    var socket: Option<Socket>
    /** The promise returned by the latest `connect()`. */
    var promise: Option<Settlement>
    var connected: bool
    var identified: bool
    /** The latest inbound message (`messageSubject`), `None` until one arrives. */
    var message: Option<Message>
    /** Identification requests whose ack has not arrived yet. */
    var pendingAcks: nat
    /** Every frame handed to the socket, in order. */
    var outbox: seq<Frame>

    /**
     * A socket and its promise exist together; only a created socket can be connected;
     * and identification, done or awaited, belongs to a live connection: the `disconnect`
     * event clears `identified`, and no ack of a dropped connection arrives later.
     */
    ghost predicate Valid()
      reads this
    {
      (socket.Some? <==> promise.Some?) && (connected ==> socket.Some?)
      && (identified ==> connected) && (pendingAcks > 0 ==> connected)
    }

    /** The service's construction: the URL from the location, then the session id from the store. */
    constructor (window: Option<Location>, store: LocalStorage, suffix: string)
      modifies store
      ensures Valid()
      ensures relayUrl == RelayUrl(window)
      ensures (sessionId, store.entries) == LookupOrCreate(old(store.entries), suffix)
      ensures socket.None? && !connected && !identified && message.None?
      ensures pendingAcks == 0 && outbox == []
    {
      relayUrl := RelayUrl(window);
      var id := GetSessionId(store, suffix);
      sessionId := id;
      socket, promise := None, None;
      connected, identified := false, false;
      message := None;
      pendingAcks := 0;
      outbox := [];
    }

    /** `getSessionIdValue()`: the id read or created at construction, never empty. */
    function GetSessionIdValue(): (r: string)
      ensures r == sessionId && r != ""
    {
      sessionId
    }

    /** `isConnected()`: the connection flag; a client that is not connected is not identified and awaits no ack. */
    function IsConnected(): (r: bool)
      requires Valid()
      reads this
      ensures r == connected
      ensures !r ==> !identified && pendingAcks == 0
    {
      connected
    }

    /** `connect()`: a new socket on `/relay` and a new pending promise; no flag changes yet. */
    method Connect()
      requires Valid()
      modifies this`socket, this`promise
      ensures Valid()
      ensures socket == Some(Socket(relayUrl + "/relay", false)) && promise == Some(Pending)
    {
      socket := Some(Socket(relayUrl + "/relay", false));
      promise := Some(Pending);
    }

    /** The `connect` event: connected, one identification request with the session id, and the promise resolves if still pending. */
    method OnConnect()
      requires Valid() && socket.Some?
      modifies this`connected, this`outbox, this`pendingAcks, this`promise
      ensures Valid()
      ensures connected
      ensures outbox == old(outbox) + [Identify(Str(sessionId))]
      ensures pendingAcks == old(pendingAcks) + 1
      ensures promise == Some(Settle(old(promise).value, ConnectOk))
    {
      connected := true;
      outbox := outbox + [Identify(Str(sessionId))];
      pendingAcks := pendingAcks + 1;
      promise := Some(Settle(promise.value, ConnectOk));
    }

    /** The ack of an identification request: `identified` becomes exactly the ack. */
    method OnIdentifyAck(ok: bool)
      requires Valid() && pendingAcks > 0
      modifies this`identified, this`pendingAcks
      ensures Valid()
      ensures identified == ok
      ensures pendingAcks == old(pendingAcks) - 1
    {
      identified := ok;
      pendingAcks := pendingAcks - 1;
    }

    /** The `disconnect` event: both flags drop, and acks of the lost connection never come. */
    method OnDisconnect(reason: string)
      requires Valid()
      modifies this`connected, this`identified, this`pendingAcks
      ensures Valid()
      ensures !connected && !identified && pendingAcks == 0
    {
      connected := false;
      identified := false;
      pendingAcks := 0;
    }

    /** The `connect_error` event: the promise rejects if still pending; neither flag moves. */
    method OnConnectError(reason: string)
      requires Valid() && socket.Some?
      modifies this`promise
      ensures Valid()
      ensures promise == Some(Settle(old(promise).value, ConnectError(reason)))
    {
      promise := Some(Settle(promise.value, ConnectError(reason)));
    }

    /** An inbound `relay` frame replaces the latest message with the data as it came. */
    method OnRelay(data: Message)
      modifies this`message
      ensures message == Some(data)
    {
      message := Some(data);
    }

    /** An inbound `notificar` frame replaces the latest message with the data marked `_channel: 'notificar'`. */
    method OnNotificar(data: Message)
      modifies this`message
      ensures message == Some(FromNotificar(data))
    {
      message := Some(FromNotificar(data));
    }

    /** `enviar`, scope `nosotros` by default: one `relay` frame with the scope in `destino`, or nothing without a socket. */
    method Enviar(data: Message, destino: Scope := Nosotros)
      modifies this`outbox
      ensures outbox == old(outbox) + (if socket.Some? then [Emit("relay", Tag(data, destino))] else [])
    {
      if socket.Some? {
        outbox := outbox + [Emit("relay", Tag(data, destino))];
      }
    }

    /** `enviarATodos`: scope `nosotros`. */
    method EnviarATodos(data: Message)
      modifies this`outbox
      ensures outbox == old(outbox) + (if socket.Some? then [Emit("relay", Tag(data, Nosotros))] else [])
    {
      Enviar(data, Nosotros);
    }

    /** `enviarAOtros`: scope `ustedes`. */
    method EnviarAOtros(data: Message)
      modifies this`outbox
      ensures outbox == old(outbox) + (if socket.Some? then [Emit("relay", Tag(data, Ustedes))] else [])
    {
      Enviar(data, Ustedes);
    }

    /** `enviarAMi`: scope `yo`. */
    method EnviarAMi(data: Message)
      modifies this`outbox
      ensures outbox == old(outbox) + (if socket.Some? then [Emit("relay", Tag(data, Yo))] else [])
    {
      Enviar(data, Yo);
    }

    /**
     * `disconnect()`: closes the socket if any, then clears `connected`. Closing a
     * connected socket raises its `disconnect` event on the spot, so a connected client
     * also loses `identified` and its outstanding acks; otherwise those stay as they were.
     */
    method Disconnect()
      requires Valid()
      modifies this`socket, this`connected, this`identified, this`pendingAcks
      ensures Valid()
      ensures !connected
      ensures socket == if old(socket).Some? then Some(old(socket).value.(closed := true)) else None
      ensures old(connected) ==> !identified && pendingAcks == 0
      ensures !old(connected) ==> identified == old(identified) && pendingAcks == old(pendingAcks)
    {
      if socket.Some? {
        socket := Some(socket.value.(closed := true));
        if connected {
          OnDisconnect("io client disconnect");
        }
      }
      connected := false;
    }
  }

  /**
   * Connected and identified, then `disconnect()`: the client ends neither connected
   * nor identified, and a later ack cannot be delivered.
   */
  method DisconnectDropsIdentity(store: LocalStorage, suffix: string) returns (s: RelayService)
    modifies store
    ensures s.Valid() && !s.connected && !s.identified && s.pendingAcks == 0
  {
    s := new RelayService(None, store, suffix);
    s.Connect();
    s.OnConnect();
    s.OnIdentifyAck(true);
    assert s.identified && s.connected;
    s.Disconnect();
  }

  /** `enviar` with no scope is `enviarATodos`, and before any `connect()` nothing is sent. */
  method DefaultScopeIsEveryone(store: LocalStorage, suffix: string, data: Message) returns (s: RelayService)
    modifies store
    ensures s.outbox == [Emit("relay", Tag(data, Nosotros)), Emit("relay", Tag(data, Nosotros))]
  {
    s := new RelayService(None, store, suffix);
    s.Enviar(data);
    s.Connect();
    s.Enviar(data);
    s.EnviarATodos(data);
  }
}
