/**
 * The Vue relay client (`usePasarela(userId)`): one socket.io socket on the
 * `/pasarela` namespace, `connected` and `identified` refs, scoped sends, and a
 * listener map that inbound `pasarela` and `notificar` frames fan out to.
 *
 * The listener `Map` is a sequence of entries in insertion order with distinct keys
 * (the order `forEach` visits them); a callback is an opaque handle, and invoking it
 * is recorded in the `delivered` log.
 */
module Pasarela {
  import opened Messages
  import opened Protocol
  import Lists

  const DefaultUrl := "http://localhost:5000"

  /** The relay URL: the build-time setting `VITE_PASARELA_URL` when non-empty, else the local relay. */
  function PasarelaUrl(env: Option<string>): (r: string)
    ensures env.Some? && env.value != "" ==> r == env.value
    ensures env.None? || env.value == "" ==> r == DefaultUrl
    ensures r != ""
  {
    if env.Some? && env.value != "" then env.value else DefaultUrl
  }

  // ---------------------------------------------------------------------------
  // The listener map

  type Callback = nat

  datatype Listener = Listener(key: string, callback: Callback)

  const MensajePrefix := "mensaje:"
  const NotificarPrefix := "notificar:"

  predicate HasKey(ls: seq<Listener>, k: string)
  {
    exists i :: 0 <= i < |ls| && ls[i].key == k
  }

  predicate KeysDistinct(ls: seq<Listener>)
  {
    forall i, j :: 0 <= i < j < |ls| ==> ls[i].key != ls[j].key
  }

  predicate AllMensaje(ls: seq<Listener>)
  {
    forall i :: 0 <= i < |ls| ==> MensajePrefix <= ls[i].key
  }

  /** `Map.prototype.set`: a present key gets the new callback where it stands; a new key goes last. */
  function MapSet(ls: seq<Listener>, k: string, cb: Callback): (r: seq<Listener>)
    ensures !HasKey(ls, k) ==> r == ls + [Listener(k, cb)]
    ensures HasKey(ls, k) ==>
              |r| == |ls| && forall i :: 0 <= i < |ls| ==> r[i] == (if ls[i].key == k then Listener(k, cb) else ls[i])
    ensures KeysDistinct(ls) ==> KeysDistinct(r)
    ensures AllMensaje(ls) && MensajePrefix <= k ==> AllMensaje(r)
  {
    if HasKey(ls, k) then
      seq(|ls|, i requires 0 <= i < |ls| => if ls[i].key == k then Listener(k, cb) else ls[i])
    else
      ls + [Listener(k, cb)]
  }

  /** `Map.prototype.delete`: every entry but the one keyed `k`, in the same order. */
  function MapDelete(ls: seq<Listener>, k: string): (r: seq<Listener>)
    ensures !HasKey(r, k)
    ensures forall l :: l in r <==> l in ls && l.key != k
    ensures !HasKey(ls, k) ==> r == ls
    ensures |r| <= |ls|
    decreases |ls|
  {
    if ls == [] then []
    else
      var rest := MapDelete(ls[1..], k);
      if ls[0].key == k then rest
      else [ls[0]] + rest
  }

  /**
   * Deleting keeps the other entries in insertion order, each as often as before:
   * the result is the map's own entry sequence with the deleted key's entries left out.
   */
  lemma {:induction false} MapDeleteKeepsOrder(ls: seq<Listener>, k: string)
    ensures forall l :: multiset(MapDelete(ls, k))[l] == if l.key != k then multiset(ls)[l] else 0
    ensures Lists.IsSubsequence(MapDelete(ls, k), ls)
    decreases |ls|
  {
    if ls == [] {
    } else {
      MapDeleteKeepsOrder(ls[1..], k);
      assert ls == [ls[0]] + ls[1..];
    }
  }

  /**
   * With distinct keys, deleting a present key takes out exactly the one entry that
   * holds it and closes the gap: the entries before and after it keep their positions
   * relative to each other.
   */
  lemma {:induction false} MapDeleteRemovesOne(ls: seq<Listener>, k: string)
    requires KeysDistinct(ls) && HasKey(ls, k)
    ensures exists i :: 0 <= i < |ls| && ls[i].key == k && MapDelete(ls, k) == ls[..i] + ls[i + 1..]
    decreases |ls|
  {
    var i := RemovedAt(ls, k);
  }

  /** The position of the deleted entry, as a witness for `MapDeleteRemovesOne`. */
  lemma {:induction false} RemovedAt(ls: seq<Listener>, k: string) returns (i: nat)
    requires KeysDistinct(ls) && HasKey(ls, k)
    ensures i < |ls| && ls[i].key == k && MapDelete(ls, k) == ls[..i] + ls[i + 1..]
    decreases |ls|
  {
    if ls[0].key == k {
      HeadOnlyHolder(ls, k);
      i := 0;
    } else {
      TailKeysDistinct(ls);
      TailHasKey(ls, k);
      var j := RemovedAt(ls[1..], k);
      RemovedAfterHead(ls, k, j);
      i := j + 1;
    }
  }

  /** Deleting a key the first entry does not hold keeps that entry in front of the rest's result. */
  lemma RemovedAfterHead(ls: seq<Listener>, k: string, j: nat)
    requires ls != [] && ls[0].key != k && j < |ls| - 1
    requires MapDelete(ls[1..], k) == ls[1..][..j] + ls[1..][j + 1..]
    ensures MapDelete(ls, k) == ls[..j + 1] + ls[j + 2..]
  {
    var tail := ls[1..];
    assert MapDelete(ls, k) == [ls[0]] + MapDelete(tail, k);
    assert [ls[0]] + tail[..j] == ls[..j + 1];
    assert tail[j + 1..] == ls[j + 2..];
  }

  /** A key held by some entry other than the first is held by the rest of the map. */
  lemma TailHasKey(ls: seq<Listener>, k: string)
    requires HasKey(ls, k) && ls != [] && ls[0].key != k
    ensures HasKey(ls[1..], k)
  {
    var m :| 0 <= m < |ls| && ls[m].key == k;
    assert ls[1..][m - 1] == ls[m];
  }

  /** When the first entry holds the key, deleting it leaves exactly the rest. */
  lemma HeadOnlyHolder(ls: seq<Listener>, k: string)
    requires KeysDistinct(ls) && ls != [] && ls[0].key == k
    ensures MapDelete(ls, k) == ls[..0] + ls[1..]
  {
    var tail := ls[1..];
    forall j | 0 <= j < |tail| ensures tail[j].key != k {
      assert tail[j] == ls[j + 1];
    }
    assert !HasKey(tail, k);
    assert ls[..0] + ls[1..] == tail;
  }

  /** Dropping the first entry keeps the keys distinct. */
  lemma TailKeysDistinct(ls: seq<Listener>)
    requires KeysDistinct(ls) && ls != []
    ensures KeysDistinct(ls[1..])
  {
    var tail := ls[1..];
    forall i, j | 0 <= i < j < |tail| ensures tail[i].key != tail[j].key {
      assert tail[i] == ls[i + 1] && tail[j] == ls[j + 1];
    }
  }

  /** Deleting keeps every key an `onMensaje` key. */
  lemma MapDeleteKeepsMensaje(ls: seq<Listener>, k: string)
    requires AllMensaje(ls)
    ensures AllMensaje(MapDelete(ls, k))
  {
    var r := MapDelete(ls, k);
    forall i | 0 <= i < |r| ensures MensajePrefix <= r[i].key {
      assert r[i] in ls;
    }
  }

  /** In a map with distinct keys, no later entry shares the first entry's key. */
  lemma LaterKeysDiffer(ls: seq<Listener>, x: Listener)
    requires KeysDistinct(ls) && ls != [] && x in ls[1..]
    ensures x.key != ls[0].key
  {
    var m :| 0 <= m < |ls[1..]| && ls[1..][m] == x;
    assert ls[m + 1] == x;
  }

  /** Deleting keeps the map's keys distinct. */
  lemma {:induction false} MapDeleteKeepsDistinct(ls: seq<Listener>, k: string)
    requires KeysDistinct(ls)
    ensures KeysDistinct(MapDelete(ls, k))
    decreases |ls|
  {
    if ls != [] {
      var tail := ls[1..];
      TailKeysDistinct(ls);
      MapDeleteKeepsDistinct(tail, k);
      var rest := MapDelete(tail, k);
      if ls[0].key != k {
        assert MapDelete(ls, k) == [ls[0]] + rest;
        forall l | l in rest ensures l.key != ls[0].key {
          LaterKeysDiffer(ls, l);
        }
        ConsKeysDistinct(ls[0], rest);
      }
    }
  }

  /** An entry whose key no later entry shares, in front of a map with distinct keys, keeps them distinct. */
  lemma ConsKeysDistinct(x: Listener, rest: seq<Listener>)
    requires KeysDistinct(rest) && forall l :: l in rest ==> l.key != x.key
    ensures KeysDistinct([x] + rest)
  {
    var r := [x] + rest;
    forall i, j | 0 <= i < j < |r| ensures r[i].key != r[j].key {
      assert r[j] == rest[j - 1];
      if i == 0 {
        assert rest[j - 1] in rest;
      } else {
        assert r[i] == rest[i - 1];
      }
    }
  }

  /** Unsubscribing twice is the same as unsubscribing once. */
  lemma UnsubscribeTwice(ls: seq<Listener>, k: string)
    ensures MapDelete(MapDelete(ls, k), k) == MapDelete(ls, k)
  {
  }

  /** Unsubscribing one key leaves every other listener registered with its callback. */
  lemma UnsubscribeKeepsOthers(ls: seq<Listener>, k: string, other: Listener)
    requires other in ls && other.key != k
    ensures other in MapDelete(ls, k)
  {
  }

  // ---------------------------------------------------------------------------
  // Fan-out of inbound frames

  /** The inbound frame kinds that reach listeners. */
  datatype Channel = PasarelaFrame | NotificarFrame

  /** A `pasarela` frame reaches every listener; a `notificar` frame only keys starting `notificar:`. */
  predicate Receives(key: string, ch: Channel)
  {
    ch == PasarelaFrame || NotificarPrefix <= key
  }

  /** One invocation of a listener's callback with a frame's data. */
  datatype Delivery = Delivery(callback: Callback, data: Message)

  /** The callbacks `forEach` invokes for one inbound frame, in map order. */
  function Deliveries(ls: seq<Listener>, data: Message, ch: Channel): seq<Delivery>
    decreases |ls|
  {
    if ls == [] then []
    else
      var last := ls[|ls| - 1];
      Deliveries(ls[..|ls| - 1], data, ch)
        + (if Receives(last.key, ch) then [Delivery(last.callback, data)] else [])
  }

  /** A `pasarela` frame invokes every registered listener exactly once, in order, with the data unchanged. */
  lemma {:induction false} PasarelaReachesEveryListener(ls: seq<Listener>, data: Message)
    ensures |Deliveries(ls, data, PasarelaFrame)| == |ls|
    ensures forall i :: 0 <= i < |ls| ==> Deliveries(ls, data, PasarelaFrame)[i] == Delivery(ls[i].callback, data)
    decreases |ls|
  {
    if ls != [] {
      PasarelaReachesEveryListener(ls[..|ls| - 1], data);
    }
  }

  /** A `notificar` frame invokes only listeners whose key starts with `notificar:`. */
  lemma {:induction false} NotificarReachesOnlyNotificarKeys(ls: seq<Listener>, data: Message, d: Delivery)
    requires d in Deliveries(ls, data, NotificarFrame)
    ensures d.data == data
    ensures exists i :: 0 <= i < |ls| && ls[i].callback == d.callback && NotificarPrefix <= ls[i].key
    decreases |ls|
  {
    var init := ls[..|ls| - 1];
    if d in Deliveries(init, data, NotificarFrame) {
      NotificarReachesOnlyNotificarKeys(init, data, d);
      var i :| 0 <= i < |init| && init[i].callback == d.callback && NotificarPrefix <= init[i].key;
      assert ls[i] == init[i];
    } else {
      assert ls[|ls| - 1].callback == d.callback;
    }
  }

  /** Conversely, a `notificar` frame invokes every listener whose key starts with `notificar:`. */
  lemma {:induction false} NotificarReachesEveryNotificarKey(ls: seq<Listener>, data: Message, i: nat)
    requires i < |ls| && NotificarPrefix <= ls[i].key
    ensures Delivery(ls[i].callback, data) in Deliveries(ls, data, NotificarFrame)
    decreases |ls|
  {
    var init := ls[..|ls| - 1];
    if i < |ls| - 1 {
      assert init[i] == ls[i];
      NotificarReachesEveryNotificarKey(init, data, i);
    }
  }

  /** Keys made by `onMensaje` start with `mensaje:`, so none of their listeners sees a `notificar` frame. */
  lemma {:induction false} NotificarSkipsMensajeListeners(ls: seq<Listener>, data: Message)
    requires AllMensaje(ls)
    ensures Deliveries(ls, data, NotificarFrame) == []
    decreases |ls|
  {
    if ls != [] {
      var init := ls[..|ls| - 1];
      assert AllMensaje(init) by {
        forall i | 0 <= i < |init| ensures MensajePrefix <= init[i].key {
          assert init[i] == ls[i];
        }
      }
      NotificarSkipsMensajeListeners(init, data);
      var key := ls[|ls| - 1].key;
      assert MensajePrefix <= key;
      assert key[0] == 'm';
      assert !(NotificarPrefix <= key);
    }
  }

  // ---------------------------------------------------------------------------
  // The composable

  class PasarelaClient {
    const url: string
    const userId: Value
    var connected: bool
    var identified: bool
    /** `socket.value`: set by `connect()`, never cleared. */
    var socket: Option<Socket>
    /** The promise of the latest `connect()`. */
    var promise: Option<Settlement>
    /** Identification requests whose ack has not arrived yet. */
    var pendingAcks: nat
    var listeners: seq<Listener>
    /** Every frame handed to the socket, in order. */
    var outbox: seq<Frame>
    /** Every callback invocation made by the fan-out, in order. */
    var delivered: seq<Delivery>

    ghost predicate Valid()
      reads this
    {
      (socket.Some? <==> promise.Some?) && (connected ==> socket.Some?)
      && (identified ==> connected) && (pendingAcks > 0 ==> connected)
      && KeysDistinct(listeners) && AllMensaje(listeners)
    }

    /** `usePasarela(userId)`: nothing connected, no listeners. */
    constructor (env: Option<string>, userId: Value)
      ensures Valid()
      ensures url == PasarelaUrl(env) && this.userId == userId
      ensures !connected && !identified && socket.None? && promise.None?
      ensures pendingAcks == 0 && listeners == [] && outbox == [] && delivered == []
    {
      url := PasarelaUrl(env);
      this.userId := userId;
      connected, identified := false, false;
      socket, promise := None, None;
      pendingAcks := 0;
      listeners, outbox, delivered := [], [], [];
    }

    /** `connect()`: a new socket on `/pasarela` and a new pending promise. */
    method Connect()
      requires Valid()
      modifies this`socket, this`promise
      ensures Valid()
      ensures socket == Some(Socket(url + "/pasarela", false)) && promise == Some(Pending)
    {
      socket := Some(Socket(url + "/pasarela", false));
      promise := Some(Pending);
    }

    /** The `connect` event: connected; an identification request only for a truthy `userId`; the promise resolves if pending. */
    method OnConnect()
      requires Valid() && socket.Some?
      modifies this`connected, this`outbox, this`pendingAcks, this`promise
      ensures Valid()
      ensures connected
      ensures Truthy(userId) ==> outbox == old(outbox) + [Identify(userId)] && pendingAcks == old(pendingAcks) + 1
      ensures !Truthy(userId) ==> outbox == old(outbox) && pendingAcks == old(pendingAcks)
      ensures promise == Some(Settle(old(promise).value, ConnectOk))
    {
      connected := true;
      if Truthy(userId) {
        outbox := outbox + [Identify(userId)];
        pendingAcks := pendingAcks + 1;
      }
      promise := Some(Settle(promise.value, ConnectOk));
    }

    /** The ack of an identification request: `identified` becomes the ack. */
    method OnIdentifyAck(ok: bool)
      requires Valid() && pendingAcks > 0
      modifies this`identified, this`pendingAcks
      ensures Valid()
      ensures identified == ok
      ensures pendingAcks == old(pendingAcks) - 1
    {
      identified := ok;
      pendingAcks := pendingAcks - 1;
    }

    /** The `disconnect` event: both refs drop, and acks of the lost connection never come. */
    method OnDisconnect(reason: string)
      requires Valid()
      modifies this`connected, this`identified, this`pendingAcks
      ensures Valid()
      ensures !connected && !identified && pendingAcks == 0
    {
      connected := false;
      identified := false;
      pendingAcks := 0;
    }

    /** The `connect_error` event: only the promise, and only if still pending. */
    method OnConnectError(reason: string)
      requires Valid() && socket.Some?
      modifies this`promise
      ensures Valid()
      ensures promise == Some(Settle(old(promise).value, ConnectError(reason)))
    {
      promise := Some(Settle(promise.value, ConnectError(reason)));
    }

    /** The walk over the listener map, in insertion order, for one inbound frame. */
    method FanOut(data: Message, ch: Channel)
      modifies this`delivered
      ensures delivered == old(delivered) + Deliveries(listeners, data, ch)
    {
      var i := 0;
      while i < |listeners|
        invariant 0 <= i <= |listeners|
        invariant delivered == old(delivered) + Deliveries(listeners[..i], data, ch)
      {
        var l := listeners[i];
        assert listeners[..i + 1][..i] == listeners[..i];
        if Receives(l.key, ch) {
          delivered := delivered + [Delivery(l.callback, data)];
        }
        i := i + 1;
      }
      assert listeners[..|listeners|] == listeners;
    }

    /** An inbound `pasarela` frame: every listener, with the data unchanged. */
    method OnPasarela(data: Message)
      modifies this`delivered
      ensures delivered == old(delivered) + Deliveries(listeners, data, PasarelaFrame)
    {
      FanOut(data, PasarelaFrame);
    }

    /** An inbound `notificar` frame: only `notificar:` keys, which `onMensaje` never makes, so nothing is delivered. */
    method OnNotificar(data: Message)
      requires Valid()
      modifies this`delivered
      ensures delivered == old(delivered) + Deliveries(listeners, data, NotificarFrame)
      ensures delivered == old(delivered)
    {
      FanOut(data, NotificarFrame);
      NotificarSkipsMensajeListeners(listeners, data);
    }

    /** `enviar`, scope `nosotros` by default: one `pasarela` frame with the scope in `destino`, or nothing without a socket. */
    method Enviar(data: Message, destino: Scope := Nosotros)
      modifies this`outbox
      ensures outbox == old(outbox) + (if socket.Some? then [Emit("pasarela", Tag(data, destino))] else [])
    {
      if socket.Some? {
        outbox := outbox + [Emit("pasarela", Tag(data, destino))];
      }
    }

    /** `enviarATodos`: scope `nosotros`. */
    method EnviarATodos(data: Message)
      modifies this`outbox
      ensures outbox == old(outbox) + (if socket.Some? then [Emit("pasarela", Tag(data, Nosotros))] else [])
    {
      Enviar(data, Nosotros);
    }

    /** `enviarAOtros`: scope `ustedes`. */
    method EnviarAOtros(data: Message)
      modifies this`outbox
      ensures outbox == old(outbox) + (if socket.Some? then [Emit("pasarela", Tag(data, Ustedes))] else [])
    {
      Enviar(data, Ustedes);
    }

    /** `enviarAMi`: scope `yo`. */
    method EnviarAMi(data: Message)
      modifies this`outbox
      ensures outbox == old(outbox) + (if socket.Some? then [Emit("pasarela", Tag(data, Yo))] else [])
    {
      Enviar(data, Yo);
    }

    /**
     * `onMensaje(callback)`: registers the callback under `mensaje:<now>:<random>` and
     * returns that key, the handle its unsubscribe function deletes.
     */
    method OnMensaje(callback: Callback, now: nat, random: string) returns (key: string)
      requires Valid()
      modifies this`listeners
      ensures Valid()
      ensures key == MensajePrefix + NatToDecimal(now) + ":" + random
      ensures listeners == MapSet(old(listeners), key, callback)
      ensures !HasKey(old(listeners), key) ==> listeners == old(listeners) + [Listener(key, callback)]
    {
      key := MensajePrefix + NatToDecimal(now) + ":" + random;
      assert MensajePrefix <= key;
      listeners := MapSet(listeners, key, callback);
    }

    /** The function `onMensaje` returns: deletes its own key and nothing else. */
    method Unsubscribe(key: string)
      requires Valid()
      modifies this`listeners
      ensures Valid()
      ensures listeners == MapDelete(old(listeners), key)
    {
      MapDeleteKeepsDistinct(listeners, key);
      MapDeleteKeepsMensaje(listeners, key);
      listeners := MapDelete(listeners, key);
    }

    /**
     * `disconnect()`: closes the socket when there is one; without a socket it does
     * nothing. The function sets no ref itself, but closing a connected socket raises its
     * `disconnect` event on the spot, whose handler drops both refs.
     */
    method Disconnect()
      requires Valid()
      modifies this`socket, this`connected, this`identified, this`pendingAcks
      ensures Valid()
      ensures socket == if old(socket).Some? then Some(old(socket).value.(closed := true)) else None
      ensures old(connected) ==> !connected && !identified && pendingAcks == 0
      ensures !old(connected) ==> connected == old(connected) && identified == old(identified)
                                  && pendingAcks == old(pendingAcks)
    {
      if socket.Some? {
        socket := Some(socket.value.(closed := true));
        if connected {
          OnDisconnect("io client disconnect");
        }
      }
    }

    /** The `onUnmounted` hook: `disconnect()`. */
    method Unmount()
      requires Valid()
      modifies this`socket, this`connected, this`identified, this`pendingAcks
      ensures Valid()
      ensures socket == if old(socket).Some? then Some(old(socket).value.(closed := true)) else None
      ensures old(connected) ==> !connected && !identified && pendingAcks == 0
      ensures !old(connected) ==> connected == old(connected) && identified == old(identified)
                                  && pendingAcks == old(pendingAcks)
    {
      Disconnect();
    }
  }

  /** Two listeners registered at the same time still get different keys when their random parts differ. */
  lemma MensajeKeysDiffer(now: nat, r1: string, r2: string)
    requires r1 != r2
    ensures MensajePrefix + NatToDecimal(now) + ":" + r1 != MensajePrefix + NatToDecimal(now) + ":" + r2
  {
    var pre := MensajePrefix + NatToDecimal(now) + ":";
    assert (pre + r1)[|pre|..] == r1 && (pre + r2)[|pre|..] == r2;
  }

  /** Deleting the first of two entries with different keys leaves the second. */
  lemma DeleteFirstOfTwo(a: Listener, b: Listener)
    requires a.key != b.key
    ensures MapDelete([a, b], a.key) == [b]
    ensures MapDelete([b], a.key) == [b]
  {
    assert [a, b][1..] == [b];
    assert [b][1..] == [];
  }

  /** Two listeners, one unsubscribed twice: the other still receives the next `pasarela` frame, once. */
  method UnsubscribeScenario(data: Message, now: nat) returns (p: PasarelaClient)
    ensures p.delivered == [Delivery(2, data)]
  {
    p := new PasarelaClient(None, Str("user_a"));
    var k1 := p.OnMensaje(1, now, "0.25");
    var k2 := p.OnMensaje(2, now, "0.75");
    MensajeKeysDiffer(now, "0.25", "0.75");
    assert p.listeners == [Listener(k1, 1), Listener(k2, 2)] by {
      assert !HasKey([Listener(k1, 1)], k2);
    }
    DeleteFirstOfTwo(Listener(k1, 1), Listener(k2, 2));
    p.Unsubscribe(k1);
    p.Unsubscribe(k1);
    p.OnPasarela(data);
    PasarelaReachesEveryListener([Listener(k2, 2)], data);
  }
}
