/**
 * The history page (`Tab3Page`): a list of at most 50 completed transactions built
 * from inbound `pago_completado` and `pago_recibido` messages, shown all together
 * or filtered by direction.
 */
module Tab3 {
  import opened Messages
  import opened Relay
  import Lists

  /** Whether this session sent or received the money. */
  datatype Sentido = Enviado | Recibido

  datatype Transaccion = Transaccion(id: string, tipo: Sentido, contacto: string, monto: int,
                                     concepto: string, estado: string, timestamp: int)

  datatype Filtro = Todas | Enviadas | Recibidas

  const MaxTransacciones := 50

  /** The history entry for a completed or received payment, as seen from session `sid`. */
  function NuevaTransaccion(msg: Message, sid: string, now: nat): (t: Transaccion)
    ensures t.id == StrOr(msg, "id", NatToDecimal(now)) && t.id != ""
    ensures t.tipo == Enviado <==> FieldIs(msg, "origen", sid)
    ensures t.contacto == (if t.tipo == Enviado then StrOr(msg, "destino", "Usuario") else StrOr(msg, "origen", "Usuario"))
    ensures t.contacto != ""
    ensures t.estado == "completada" && t.monto == MontoOr(msg)
    ensures t.concepto == StrOr(msg, "concepto", "Transacción")
    ensures t.timestamp == NumOr(msg, "timestamp", now)
  {
    var esEnviado := FieldIs(msg, "origen", sid);
    Transaccion(StrOr(msg, "id", NatToDecimal(now)),
                if esEnviado then Enviado else Recibido,
                if esEnviado then StrOr(msg, "destino", "Usuario") else StrOr(msg, "origen", "Usuario"),
                MontoOr(msg), StrOr(msg, "concepto", "Transacción"), "completada",
                NumOr(msg, "timestamp", now))
  }

  /** The entries of direction `s`, as the array `filter` keeps them. */
  function SelectTipo(ts: seq<Transaccion>, s: Sentido): (r: seq<Transaccion>)
    ensures forall i :: 0 <= i < |r| ==> r[i].tipo == s
    ensures forall t :: multiset(r)[t] == if t.tipo == s then multiset(ts)[t] else 0
    ensures Lists.IsSubsequence(r, ts)
    ensures |r| <= |ts|
    decreases |ts|
  {
    if ts == [] then []
    else
      var rest := SelectTipo(ts[1..], s);
      assert ts == [ts[0]] + ts[1..];
      if ts[0].tipo == s then [ts[0]] + rest else rest
  }

  /** The direction a (non-`todas`) filter keeps. */
  function SentidoDe(f: Filtro): (s: Sentido)
    requires f != Todas
    ensures s == Enviado <==> f == Enviadas
  {
    if f == Enviadas then Enviado else Recibido
  }

  class Tab3Page {
    const relay: RelayService
    var connected: bool
    var transacciones: seq<Transaccion>
    var filtro: Filtro

    ghost predicate Valid()
      reads this
    {
      |transacciones| <= MaxTransacciones
    }

    constructor (relay: RelayService)
      ensures Valid()
      ensures this.relay == relay && !connected && transacciones == [] && filtro == Todas
    {
      this.relay := relay;
      connected := false;
      transacciones := [];
      filtro := Todas;
    }

    /** The `connected$` subscription. */
    method OnConnected(c: bool)
      modifies this`connected
      ensures connected == c
    {
      connected := c;
    }

    /** `agregarTransaccion`: the new entry in front, at most 50 kept. */
    method AgregarTransaccion(msg: Message, now: nat)
      modifies this`transacciones
      ensures Valid()
      ensures transacciones == Lists.PushCapped(old(transacciones), NuevaTransaccion(msg, relay.sessionId, now), MaxTransacciones)
    {
      var t := NuevaTransaccion(msg, relay.GetSessionIdValue(), now);
      var grown := [t] + transacciones;
      if |grown| > MaxTransacciones {
        grown := grown[..MaxTransacciones];
      }
      transacciones := grown;
    }

    /** `manejarMensaje`: `pago_completado` and `pago_recibido` add one entry each; every other kind changes nothing. */
    method ManejarMensaje(msg: Message, now: nat)
      requires Valid()
      modifies this`transacciones
      ensures Valid()
      ensures FieldIs(msg, "tipo", "pago_completado") || FieldIs(msg, "tipo", "pago_recibido") ==>
                transacciones == Lists.PushCapped(old(transacciones), NuevaTransaccion(msg, relay.sessionId, now), MaxTransacciones)
      ensures !(FieldIs(msg, "tipo", "pago_completado") || FieldIs(msg, "tipo", "pago_recibido")) ==>
                transacciones == old(transacciones)
    {
      if FieldIs(msg, "tipo", "pago_completado") || FieldIs(msg, "tipo", "pago_recibido") {
        AgregarTransaccion(msg, now);
      }
    }

    /**
     * `getTransaccionesFiltradas`: the whole list for `todas`; otherwise exactly the
     * entries of the chosen direction, each as often as in the list, in list order.
     */
    function GetTransaccionesFiltradas(): (r: seq<Transaccion>)
      reads this
      ensures filtro == Todas ==> r == transacciones
      ensures filtro != Todas ==> forall i :: 0 <= i < |r| ==> r[i].tipo == SentidoDe(filtro)
      ensures filtro != Todas ==>
                forall t :: multiset(r)[t] == if t.tipo == SentidoDe(filtro) then multiset(transacciones)[t] else 0
      ensures Lists.IsSubsequence(r, transacciones) && |r| <= |transacciones|
    {
      if filtro == Todas then
        Lists.SubsequenceRefl(transacciones);
        transacciones
      else SelectTipo(transacciones, SentidoDe(filtro))
    }
  }
}
