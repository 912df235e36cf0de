/**
 * The receive page (`Tab2Page`): it shows the session id as a QR code, collects
 * payments addressed to this session as pending, lets the user accept or reject
 * each one, and sends payment requests.
 */
module Tab2 {
  import opened Messages
  import opened Protocol
  import opened Relay

  datatype EstadoPago = Pendiente | Aceptado | Rechazado

  datatype PagoRecibido = PagoRecibido(id: string, origen: string, monto: int, concepto: string,
                                       timestamp: int, estado: EstadoPago)

  /** A `pago_enviado` is for this page when its `destino` is the session id, plain or behind `QR_`. */
  predicate ParaMi(msg: Message, sid: string)
  {
    FieldIs(msg, "destino", sid) || FieldIs(msg, "destino", "QR_" + sid)
  }

  /**
   * A frame tagged with a delivery scope is never addressed to a generated session id:
   * `destino` then spells a scope, and neither `yo`, `ustedes` nor `nosotros` is
   * `user_...` or `QR_user_...`. So a `pago_enviado` sent through the page's
   * `enviarATodos` never lands in a receiver's list while the relay forwards it as sent.
   */
  lemma ScopedFrameNeverParaMi(msg: Message, d: Scope, sid: string)
    requires "user_" <= sid
    ensures !ParaMi(Tag(msg, d), sid)
  {
    var name := ScopeName(d);
    assert Tag(msg, d)["destino"] == Str(name);
    assert sid[0] == 'u' && sid[2] == 'e';
    assert name[0] != 'u' || name[2] != 'e';
    assert ("QR_" + sid)[0] == 'Q';
    assert name != sid && name != "QR_" + sid;
  }

  /** The pending payment a `pago_enviado` for this session creates. */
  function NuevoPago(msg: Message, now: nat): (p: PagoRecibido)
    ensures p.estado == Pendiente && p.monto == MontoOr(msg) && p.timestamp == now
    ensures p.id != "" && p.origen != "" && p.concepto != ""
    ensures p.origen == StrOr(msg, "origen", "Usuario") && p.concepto == StrOr(msg, "concepto", "Pago")
    ensures p.id == StrOr(msg, "id", NatToDecimal(now))
  {
    PagoRecibido(StrOr(msg, "id", NatToDecimal(now)), StrOr(msg, "origen", "Usuario"), MontoOr(msg),
                 StrOr(msg, "concepto", "Pago"), now, Pendiente)
  }

  /** Why `solicitarPago` refused the form. */
  datatype SolicitudError = MontoInvalido

  /** The `solicitud_pago` payload: who asks (this session), how much, what for. */
  function SolicitudPago(sid: string, monto: int, concepto: string, now: nat): (m: Message)
    ensures FieldIs(m, "tipo", "solicitud_pago") && FieldIs(m, "destino", sid)
    ensures "monto" in m && m["monto"] == Num(monto) && FieldIs(m, "concepto", concepto)
  {
    map["tipo" := Str("solicitud_pago"), "destino" := Str(sid), "monto" := Num(monto),
        "concepto" := Str(concepto), "timestamp" := Num(now)]
  }

  /** The `pago_recibido` confirmation of an accepted payment: same id, origin, amount and description. */
  function Confirmacion(p: PagoRecibido, sid: string, now: nat): (m: Message)
    ensures FieldIs(m, "tipo", "pago_recibido") && FieldIs(m, "id", p.id) && FieldIs(m, "origen", p.origen)
    ensures "monto" in m && m["monto"] == Num(p.monto) && FieldIs(m, "concepto", p.concepto)
    ensures FieldIs(m, "destino", sid)
  {
    map["tipo" := Str("pago_recibido"), "id" := Str(p.id), "origen" := Str(p.origen),
        "destino" := Str(sid), "monto" := Num(p.monto), "concepto" := Str(p.concepto),
        "timestamp" := Num(now)]
  }

  /** The `pago_rechazado` notice of a rejected payment: same id and origin. */
  function Rechazo(p: PagoRecibido, sid: string, now: nat): (m: Message)
    ensures FieldIs(m, "tipo", "pago_rechazado") && FieldIs(m, "id", p.id) && FieldIs(m, "origen", p.origen)
    ensures FieldIs(m, "destino", sid) && "monto" !in m
  {
    map["tipo" := Str("pago_rechazado"), "id" := Str(p.id), "origen" := Str(p.origen),
        "destino" := Str(sid), "timestamp" := Num(now)]
  }

  class Tab2Page {
    const relay: RelayService
    var connected: bool
    /** The request form: amount and description. */
    var montoSolicitado: int
    var concepto: string
    var qrCode: string
    var pagosRecibidos: seq<PagoRecibido>
    var mostrarQR: bool

    constructor (relay: RelayService)
      ensures this.relay == relay
      ensures !connected && montoSolicitado == 0 && concepto == "" && qrCode == ""
      ensures pagosRecibidos == [] && !mostrarQR
    {
      this.relay := relay;
      connected := false;
      montoSolicitado, concepto, qrCode := 0, "", "";
      pagosRecibidos := [];
      mostrarQR := false;
    }

    /** `actualizarQR`: the QR code is the session id. */
    method ActualizarQR()
      modifies this`qrCode
      ensures qrCode == relay.sessionId
    {
      qrCode := relay.GetSessionIdValue();
    }

    /** The `connected$` subscription: records the flag, and on `true` refreshes the QR code. */
    method OnConnected(c: bool)
      modifies this`connected, this`qrCode
      ensures connected == c
      ensures qrCode == if c then relay.sessionId else old(qrCode)
    {
      connected := c;
      if c {
        ActualizarQR();
      }
    }

    /** `manejarMensaje`: a `pago_enviado` for this session goes in front as pending; anything else is ignored. */
    method ManejarMensaje(msg: Message, now: nat)
      modifies this`pagosRecibidos
      ensures FieldIs(msg, "tipo", "pago_enviado") && ParaMi(msg, relay.sessionId) ==>
                pagosRecibidos == [NuevoPago(msg, now)] + old(pagosRecibidos)
      ensures !(FieldIs(msg, "tipo", "pago_enviado") && ParaMi(msg, relay.sessionId)) ==>
                pagosRecibidos == old(pagosRecibidos)
    {
      var sid := relay.GetSessionIdValue();
      if FieldIs(msg, "tipo", "pago_enviado") {
        if FieldIs(msg, "destino", sid) || FieldIs(msg, "destino", "QR_" + sid) {
          pagosRecibidos := [NuevoPago(msg, now)] + pagosRecibidos;
        }
      }
    }

    /** `solicitarPago`: a positive amount sends one request to everyone and clears the form; otherwise nothing happens. */
    method SolicitarPago(now: nat) returns (r: Option<SolicitudError>)
      modifies this`montoSolicitado, this`concepto, relay`outbox
      ensures r.Some? <==> old(montoSolicitado) <= 0
      ensures r.Some? ==>
                montoSolicitado == old(montoSolicitado) && concepto == old(concepto)
                && relay.outbox == old(relay.outbox)
      ensures r.None? ==>
                var m := SolicitudPago(relay.sessionId, old(montoSolicitado),
                                       TextOr(old(concepto), "Solicitud de pago"), now);
                relay.outbox == old(relay.outbox) + (if relay.socket.Some? then [Emit("relay", Tag(m, Nosotros))] else [])
                && montoSolicitado == 0 && concepto == ""
    {
      if montoSolicitado <= 0 {
        return Some(MontoInvalido);
      }
      relay.EnviarATodos(SolicitudPago(relay.GetSessionIdValue(), montoSolicitado,
                                       TextOr(concepto, "Solicitud de pago"), now));
      montoSolicitado, concepto := 0, "";
      r := None;
    }

    /** `aceptarPago(pago)`: the payment at index `i` becomes `aceptado` and its confirmation goes to everyone. */
    method AceptarPago(i: nat, now: nat)
      requires i < |pagosRecibidos|
      modifies this`pagosRecibidos, relay`outbox
      ensures pagosRecibidos == old(pagosRecibidos)[i := old(pagosRecibidos)[i].(estado := Aceptado)]
      ensures relay.outbox == old(relay.outbox) +
                (if relay.socket.Some?
                 then [Emit("relay", Tag(Confirmacion(old(pagosRecibidos)[i], relay.sessionId, now), Nosotros))]
                 else [])
    {
      var pago := pagosRecibidos[i];
      pagosRecibidos := pagosRecibidos[i := pago.(estado := Aceptado)];
      relay.EnviarATodos(Confirmacion(pago, relay.GetSessionIdValue(), now));
    }

    /** `rechazarPago(pago)`: the payment at index `i` becomes `rechazado` and the rejection goes to everyone. */
    method RechazarPago(i: nat, now: nat)
      requires i < |pagosRecibidos|
      modifies this`pagosRecibidos, relay`outbox
      ensures pagosRecibidos == old(pagosRecibidos)[i := old(pagosRecibidos)[i].(estado := Rechazado)]
      ensures relay.outbox == old(relay.outbox) +
                (if relay.socket.Some?
                 then [Emit("relay", Tag(Rechazo(old(pagosRecibidos)[i], relay.sessionId, now), Nosotros))]
                 else [])
    {
      var pago := pagosRecibidos[i];
      pagosRecibidos := pagosRecibidos[i := pago.(estado := Rechazado)];
      relay.EnviarATodos(Rechazo(pago, relay.GetSessionIdValue(), now));
    }
  }
}
