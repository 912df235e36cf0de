/**
 * What the two relay clients (the Angular service and the Vue composable) share:
 * the three delivery scopes and how a payload is tagged with one, the frames a
 * client hands to its socket, the socket itself, and the one-shot settlement of
 * the promise returned by `connect()`.
 */
module Protocol {
  import opened Messages

  /** The delivery scope carried in `destino`: only me, everyone but me, everyone. */
  datatype Scope = Yo | Ustedes | Nosotros

  function ScopeName(d: Scope): (r: string)
  {
    match d
    case Yo => "yo"
    case Ustedes => "ustedes"
    case Nosotros => "nosotros"
  }

  /** The three scopes are told apart on the wire. */
  lemma ScopeNameInjective(d1: Scope, d2: Scope)
    ensures ScopeName(d1) == ScopeName(d2) <==> d1 == d2
  {
  }

  /**
   * The payload spread with `destino` set to the scope. A `destino`
   * already present in the payload is overwritten; every other field is kept.
   */
  function Tag(data: Message, d: Scope): (r: Message)
    ensures r.Keys == data.Keys + {"destino"}
    ensures r["destino"] == Str(ScopeName(d))
    ensures forall k :: k in data && k != "destino" ==> r[k] == data[k]
  {
    data["destino" := Str(ScopeName(d))]
  }

  /** Tagging twice keeps only the last scope: whatever `destino` a payload had is gone. */
  lemma TagLastScopeWins(data: Message, d1: Scope, d2: Scope)
    ensures Tag(Tag(data, d1), d2) == Tag(data, d2)
  {
  }

  /** The `destino` a payload brings survives sending only if it happens to spell the scope. */
  lemma TagDropsRecipient(data: Message, recipient: string, d: Scope)
    requires FieldIs(data, "destino", recipient)
    ensures FieldIs(Tag(data, d), "destino", recipient) <==> recipient == ScopeName(d)
  {
  }

  /** A frame handed to the socket's `emit`: the identification request, or a payload on a named event. */
  datatype Frame = Identify(who: Value) | Emit(event: string, data: Message)

  /** The socket created by `connect()`: its target URL and whether `disconnect()` was called on it. */
  datatype Socket = Socket(url: string, closed: bool)

  /** The state of the promise returned by `connect()`. */
  datatype Settlement = Pending | Resolved | Rejected(reason: string)

  /** The socket events that settle that promise. */
  datatype ConnectEvent = ConnectOk | ConnectError(reason: string)

  /** The settlement an event produces on a pending promise. */
  function Outcome(e: ConnectEvent): (r: Settlement)
    ensures r != Pending
    ensures r == Resolved <==> e == ConnectOk
  {
    match e
    case ConnectOk => Resolved
    case ConnectError(reason) => Rejected(reason)
  }

  /** `resolve()` / `reject(error)`: a pending promise takes the event's outcome, a settled one ignores it. */
  function Settle(p: Settlement, e: ConnectEvent): (r: Settlement)
    ensures p != Pending ==> r == p
    ensures p == Pending ==> r != Pending && (r == Resolved <==> e == ConnectOk)
  {
    if p.Pending? then Outcome(e) else p
  }

  /** The promise after a run of socket events, in arrival order. */
  function SettleAll(p: Settlement, es: seq<ConnectEvent>): Settlement
    decreases |es|
  {
    if es == [] then p else SettleAll(Settle(p, es[0]), es[1..])
  }

  /** Once settled, a promise stays as it is whatever events follow. */
  lemma {:induction false} SettledIsFinal(p: Settlement, es: seq<ConnectEvent>)
    requires p != Pending
    ensures SettleAll(p, es) == p
  {
    if es != [] {
      SettledIsFinal(Settle(p, es[0]), es[1..]);
    }
  }

  /** The promise settles at most once, and the first `connect` or `connect_error` decides how. */
  lemma {:induction false} FirstEventDecides(es: seq<ConnectEvent>)
    requires es != []
    ensures SettleAll(Pending, es) == Outcome(es[0])
  {
    SettledIsFinal(Outcome(es[0]), es[1..]);
  }

  /** A `connect_error` after a `connect` leaves the promise resolved. */
  lemma {:induction false} LateErrorKeepsResolved(es: seq<ConnectEvent>, reason: string)
    requires es != [] && es[0] == ConnectOk
    ensures SettleAll(Pending, es + [ConnectError(reason)]) == Resolved
  {
    assert (es + [ConnectError(reason)])[0] == ConnectOk;
    FirstEventDecides(es + [ConnectError(reason)]);
  }
}
