/**
 * The transfer page (`Tab1Page`): a simulated balance, a form that sends a payment
 * over the relay, and the list of the page's transactions, updated from inbound
 * `pago_recibido`, `pago_completado` and `pago_rechazado` messages.
 */
module Tab1 {
  import opened Messages
  import opened Protocol
  import opened Relay
  import Lists

  datatype Estado = Pendiente | Procesando | Completada | Rechazada

  datatype Transaccion = Transaccion(id: string, destino: string, monto: int, concepto: string,
                                     estado: Estado, timestamp: int)

  const SaldoInicial := 500000
  const MaxTransacciones := 20

  /** Why `enviarPago` refused the form, in the order the checks run. */
  datatype PagoError = MontoInvalido | DestinoVacio | SaldoInsuficiente

  /** The three checks of `enviarPago`: amount, then recipient, then balance. */
  function ValidarPago(monto: int, destino: string, saldo: int): (r: Option<PagoError>)
    ensures r == Some(MontoInvalido) <==> monto <= 0
    ensures r == Some(DestinoVacio) <==> monto > 0 && destino == ""
    ensures r == Some(SaldoInsuficiente) <==> monto > 0 && destino != "" && monto > saldo
    ensures r == None <==> 0 < monto <= saldo && destino != ""
  {
    if monto <= 0 then Some(MontoInvalido)
    else if destino == "" then Some(DestinoVacio)
    else if monto > saldo then Some(SaldoInsuficiente)
    else None
  }

  /** The first transaction whose id is the message's `id` . */
  function FindById(ts: seq<Transaccion>, msg: Message): (r: Option<nat>)
    ensures r.Some? ==> r.value < |ts| && FieldIs(msg, "id", ts[r.value].id)
    ensures r.Some? ==> forall j :: 0 <= j < r.value ==> !FieldIs(msg, "id", ts[j].id)
    ensures r.None? ==> forall j :: 0 <= j < |ts| ==> !FieldIs(msg, "id", ts[j].id)
  {
    if ts == [] then None
    else if FieldIs(msg, "id", ts[0].id) then Some(0)
    else match FindById(ts[1..], msg)
      case None => None
      case Some(i) => Some(i + 1)
  }

  /** The found transaction's `estado` set to `e`; every other transaction, and the order, unchanged. */
  function Marcar(ts: seq<Transaccion>, msg: Message, e: Estado): (r: seq<Transaccion>)
    ensures |r| == |ts|
    ensures forall j :: 0 <= j < |ts| && FindById(ts, msg) != Some(j) ==> r[j] == ts[j]
    ensures FindById(ts, msg).Some? ==>
              var i := FindById(ts, msg).value; r[i] == ts[i].(estado := e)
    ensures (forall j :: 0 <= j < |ts| ==> !FieldIs(msg, "id", ts[j].id)) ==> r == ts
  {
    match FindById(ts, msg)
    case None => ts
    case Some(i) => ts[i := ts[i].(estado := e)]
  }

  /** The `completada` transaction a `pago_recibido` addressed to this session records. */
  function Recibida(msg: Message, now: nat): (t: Transaccion)
    ensures t.estado == Completada && t.monto == MontoOr(msg) && t.timestamp == now
    ensures t.id == StrOr(msg, "id", NatToDecimal(now))
    ensures t.destino == StrOr(msg, "origen", "Usuario")
    ensures t.concepto == StrOr(msg, "concepto", "Pago recibido")
    ensures t.id != "" && t.destino != "" && t.concepto != ""
  {
    Transaccion(StrOr(msg, "id", NatToDecimal(now)), StrOr(msg, "origen", "Usuario"), MontoOr(msg),
                StrOr(msg, "concepto", "Pago recibido"), Completada, now)
  }

  /** The `pago_enviado` payload `enviarPago` hands to `enviarATodos`. */
  function PagoEnviado(id: string, origen: string, destino: string, monto: int, concepto: string,
                       now: nat): (m: Message)
    ensures FieldIs(m, "tipo", "pago_enviado") && FieldIs(m, "id", id) && FieldIs(m, "origen", origen)
    ensures FieldIs(m, "destino", destino) && "monto" in m && m["monto"] == Num(monto) && FieldIs(m, "concepto", concepto)
  {
    map["tipo" := Str("pago_enviado"), "id" := Str(id), "origen" := Str(origen),
        "destino" := Str(destino), "monto" := Num(monto), "concepto" := Str(concepto),
        "timestamp" := Num(now)]
  }

  /**
   * Sending to everyone overwrites the payload's `destino`, so the frame that leaves
   * `enviarPago` names the recipient only if the recipient is literally `nosotros`.
   */
  lemma PagoEnviadoLosesRecipient(id: string, origen: string, destino: string, monto: int,
                                  concepto: string, now: nat)
    ensures FieldIs(Tag(PagoEnviado(id, origen, destino, monto, concepto, now), Nosotros), "destino", destino)
            <==> destino == "nosotros"
  {
    TagDropsRecipient(PagoEnviado(id, origen, destino, monto, concepto, now), destino, Nosotros);
  }

  class Tab1Page {
    const relay: RelayService
    var connected: bool
    var saldo: int
    /** The form: amount, recipient and description. */
    var monto: int
    var destino: string
    var concepto: string
    var transacciones: seq<Transaccion>

    constructor (relay: RelayService)
      ensures this.relay == relay
      ensures !connected && saldo == SaldoInicial
      ensures monto == 0 && destino == "" && concepto == "" && transacciones == []
    {
      this.relay := relay;
      connected := false;
      saldo := SaldoInicial;
      monto, destino, concepto := 0, "", "";
      transacciones := [];
    }

    /** The `connected$` subscription. */
    method OnConnected(c: bool)
      modifies this`connected
      ensures connected == c
    {
      connected := c;
    }

    /** `agregarTransaccion`: the item in front, at most 20 kept. */
    method AgregarTransaccion(t: Transaccion)
      modifies this`transacciones
      ensures transacciones == Lists.PushCapped(old(transacciones), t, MaxTransacciones)
    {
      var grown := [t] + transacciones;
      if |grown| > MaxTransacciones {
        grown := grown[..MaxTransacciones];
      }
      transacciones := grown;
    }

    /** `manejarMensaje`: the balance and the list react to three message kinds and ignore every other. */
    method ManejarMensaje(msg: Message, now: nat)
      modifies this`saldo, this`transacciones
      ensures FieldIs(msg, "tipo", "pago_recibido") && FieldIs(msg, "destino", relay.sessionId) ==>
                saldo == old(saldo) + MontoOr(msg)
                && transacciones == Lists.PushCapped(old(transacciones), Recibida(msg, now), MaxTransacciones)
      ensures FieldIs(msg, "tipo", "pago_completado") && FieldIs(msg, "origen", relay.sessionId) ==>
                saldo == old(saldo) - MontoOr(msg)
                && transacciones == Marcar(old(transacciones), msg, Completada)
      ensures FieldIs(msg, "tipo", "pago_rechazado") ==>
                saldo == old(saldo) && transacciones == Marcar(old(transacciones), msg, Rechazada)
      ensures !(FieldIs(msg, "tipo", "pago_recibido") && FieldIs(msg, "destino", relay.sessionId))
              && !(FieldIs(msg, "tipo", "pago_completado") && FieldIs(msg, "origen", relay.sessionId))
              && !FieldIs(msg, "tipo", "pago_rechazado") ==>
                saldo == old(saldo) && transacciones == old(transacciones)
    {
      var sid := relay.GetSessionIdValue();
      if FieldIs(msg, "tipo", "pago_recibido") {
        if FieldIs(msg, "destino", sid) {
          saldo := saldo + MontoOr(msg);
          AgregarTransaccion(Recibida(msg, now));
        }
      } else if FieldIs(msg, "tipo", "pago_completado") {
        if FieldIs(msg, "origen", sid) {
          saldo := saldo - MontoOr(msg);
          transacciones := Marcar(transacciones, msg, Completada);
        }
      } else if FieldIs(msg, "tipo", "pago_rechazado") {
        transacciones := Marcar(transacciones, msg, Rechazada);
      }
    }

    /**
     * `enviarPago`: on a valid form, one `procesando` transaction in front (no cap),
     * one `pago_enviado` to everyone, the form cleared; the balance waits for
     * `pago_completado`. On an invalid form, nothing at all.
     */
    method EnviarPago(now: nat) returns (r: Option<PagoError>)
      modifies this`monto, this`destino, this`concepto, this`transacciones, relay`outbox
      ensures r == ValidarPago(old(monto), old(destino), saldo)
      ensures r.Some? ==>
                monto == old(monto) && destino == old(destino) && concepto == old(concepto)
                && transacciones == old(transacciones) && relay.outbox == old(relay.outbox)
      ensures r.None? ==>
                var id := "txn_" + NatToDecimal(now);
                var texto := TextOr(old(concepto), "Transferencia");
                transacciones == [Transaccion(id, old(destino), old(monto), texto, Procesando, now)] + old(transacciones)
                && relay.outbox == old(relay.outbox) +
                     (if relay.socket.Some?
                      then [Emit("relay", Tag(PagoEnviado(id, relay.sessionId, old(destino), old(monto), texto, now), Nosotros))]
                      else [])
                && monto == 0 && destino == "" && concepto == ""
    {
      r := ValidarPago(monto, destino, saldo);
      if r.Some? {
        return;
      }
      var id := "txn_" + NatToDecimal(now);
      var texto := TextOr(concepto, "Transferencia");
      transacciones := [Transaccion(id, destino, monto, texto, Procesando, now)] + transacciones;
      relay.EnviarATodos(PagoEnviado(id, relay.GetSessionIdValue(), destino, monto, texto, now));
      monto, destino, concepto := 0, "", "";
    }
  }
}
