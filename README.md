# Relay payment demo: relay clients and payment pages in Dafny

This project models the client side of a payment-simulation app that talks to a shared real-time relay.
It covers two parts.

- **The relay session clients.** There are two parallel implementations: the Angular `RelayService` and the Vue composable `usePasarela`.
  - Each client keeps connection and identification flags and owns one socket.
  - On `connect`, it identifies itself with a session id.
  - It tags every outbound payload with a delivery scope in `destino`: `yo` (me only), `ustedes` (everyone but me) or `nosotros` (everyone, the default).
  - It publishes inbound frames. The Angular client keeps the latest message; the Vue client fans frames out to a listener map.
- **The three payment pages.**
  - `Tab1Page` is transfers: a balance and a transaction list capped at 20.
  - `Tab2Page` is receiving: the QR code and pending incoming payments, which can be accepted or rejected.
  - `Tab3Page` is history: a list capped at 50 and a direction filter.

How the model represents things:

- **Messages** are `map<string, Value>`, so the JavaScript spread `{ ...data, destino }` becomes a map update.
- **Fallbacks** such as `msg['monto'] || 0` are `StrOr`, `NumOr` and `MontoOr`. Strict comparisons such as `msg['destino'] === id` are `FieldIs`.
- **The socket** is `Option<Socket>` plus an `outbox` log of the frames handed to `emit`.
- **The `connect()` promise** is a `Settlement` (`Pending`, `Resolved` or `Rejected`). The first settling event wins.
- **Socket events and identification acks** are `On...` methods.
- **Observables** (`BehaviorSubject`s and Vue refs) are plain fields.
- **Listener callbacks** are opaque handles. Each invocation is recorded in a `delivered` log.
- **Clocks and randomness** are parameters:
  - `now` stands for `Date.now()`.
  - `suffix` and `random` stand for `Math.random()` text.
- **Environment inputs** are parameters too: `window` for the page location, `env` for `VITE_PASARELA_URL`, and `LocalStorage` for `localStorage`.
- **Identification belongs to a live connection.** Each client's `Valid()` says that `identified`, and any identification ack still awaited, imply `connected`. Every event method and `disconnect()` preserve it.
  - The handlers themselves do not enforce this. It holds because of two socket.io behaviours the model takes as given:
    - closing a connected socket raises its `disconnect` event at once, and `Disconnect` includes that event;
    - no ack of a dropped connection arrives afterwards, so the `disconnect` event cancels outstanding acks.
  - `Relay.DisconnectDropsIdentity` shows a connected, identified client left neither connected nor identified by `disconnect()`.

Files:
- `messages.dfy`: payload values and fallbacks.
- `protocol.dfy`: what both clients share (scopes, tagging, frames, the promise).
- `relay_service.dfy`: the Angular client.
- `pasarela.dfy`: the Vue client.
- `lists.dfy`: the capped prepend.
- `tab1.dfy`, `tab2.dfy`, `tab3.dfy`: the pages.

Behaviours of the code that a reader might not expect, all followed by the model:

- **`connect_error` changes neither flag.** Only the pending promise is rejected.
- **Sends are not cut off by `disconnect()`.** A send is a no-op only when no socket was ever created. After `disconnect()` the socket object remains, and sends are still handed to it.
- **Vue `disconnect()` sets no ref itself.** It only closes the socket. The refs drop through the `disconnect` event that closing a connected socket raises.
- **The scope overwrites the recipient.** Tab1's `pago_enviado` and Tab2's `pago_recibido`, `pago_rechazado` and `solicitud_pago` put a session id in `destino`. The scope then overwrites it (`Tab1.PagoEnviadoLosesRecipient`, `Protocol.TagDropsRecipient`). Suppose the relay forwards payloads as they were sent. Then a receiving Tab2 never matches a tagged `pago_enviado` against a generated `user_…` session id (`Tab2.ScopedFrameNeverParaMi`). The same holds for Tab1's `pago_recibido` check.

## Model

| member | source | states |
|---|---|---|
| Messages.StrOr | src/app/tab1/tab1.page.ts:64-67 | JavaScript's or-default on a text field: a non-empty string held in the field, otherwise the default; an absent or falsy field gives the default |
| Messages.NumOr | src/app/tab3/tab3.page.ts:68 | JavaScript's or-default on a number field: a present non-zero number, otherwise the default |
| Messages.MontoOr | src/app/tab1/tab1.page.ts:62 | the amount with default 0: a non-zero result is exactly the number in `monto`; a numeric `monto` is returned as is |
| Messages.TextOr | src/app/tab1/tab1.page.ts:110 | the form description with default `Transferencia`: the text unless it is empty, then the default |
| Messages.NatToDecimal | src/app/tab1/tab1.page.ts:64 | `Date.now().toString()`: decimal digits whose value (`DecimalValue`) is the number, with no leading zero, one digit exactly for values below 10 |
| Messages.NatToDecimalInjective | src/composables/usePasarela.js:65 | two numbers print the same text exactly when they are equal, so the time in a key or an id is recoverable from it |
| Protocol.ScopeNameInjective | src/app/services/relay.service.ts:98 | the three scopes `yo`/`ustedes`/`nosotros` have distinct wire names |
| Protocol.Tag | src/app/services/relay.service.ts:99 | `{ ...data, destino }`: `destino` holds the scope name, overwriting any previous `destino`; every other field is kept and no field is added besides `destino` |
| Protocol.TagLastScopeWins | src/composables/usePasarela.js:56 | tagging twice equals tagging once with the last scope: a payload's own `destino` never survives |
| Protocol.TagDropsRecipient | src/app/services/relay.service.ts:99 | a recipient id carried in `destino` survives the send only if it spells the scope name |
| Protocol.Outcome | src/app/services/relay.service.ts:74-85 | `connect` resolves and `connect_error` rejects; neither leaves the promise pending |
| Protocol.Settle | src/app/services/relay.service.ts:65-86 | a pending promise takes the event's outcome; a settled promise ignores further events |
| Protocol.SettledIsFinal | src/app/services/relay.service.ts:65-86 | after settling, no run of `connect`/`connect_error` events changes the promise |
| Protocol.FirstEventDecides | src/composables/usePasarela.js:13-40 | over any run of events the promise ends as the first event decided: it settles once, first event wins |
| Protocol.LateErrorKeepsResolved | src/app/services/relay.service.ts:83-86 | a `connect_error` after a `connect` leaves the promise resolved |
| Relay.RelayUrl | src/app/services/relay.service.ts:28-40 | local relay without a window or on localhost:8000; `wss://demo.relay.coderic.net` on `coderic.org`/`www.coderic.org`; otherwise `protocol//hostname:5000` |
| Relay.LocalhostHttpIsLocalRelay | src/app/services/relay.service.ts:32-39 | a page served over http from localhost reaches `http://localhost:5000` on every port, not only 8000 |
| Relay.RelayUrlPort | src/app/services/relay.service.ts:28-40 | apart from the deployed host, the chosen URL always ends in `:5000` |
| Relay.LookupOrCreate | src/app/services/relay.service.ts:46-53 | a stored non-empty `pagosSession` is returned with the store unchanged; otherwise `user_` + the random suffix is stored and returned; afterwards the store maps the key to the returned non-empty id |
| Relay.SessionIdStable | src/app/services/relay.service.ts:46-53 | a second lookup returns the same id and leaves the store unchanged, whatever randomness it draws |
| Relay.GetSessionId | src/app/services/relay.service.ts:46-53 | the returned id and the new store contents are those of `LookupOrCreate` on the old store |
| Relay.GetSessionIdTwice | src/app/services/relay.service.ts:42-57 | two reads return the same non-empty id, and only the first can write |
| Relay.FromNotificar | src/app/services/relay.service.ts:92-94 | `{ ...data, _channel: 'notificar' }`: `_channel` is `notificar`, overriding any previous `_channel`; other fields kept |
| Relay.RelayService.constructor | src/app/services/relay.service.ts:14-44 | the URL is chosen from the location and the session id comes from the store; disconnected, unidentified, no message, nothing sent |
| Relay.RelayService.Connect | src/app/services/relay.service.ts:59-63 | a fresh socket on `<url>/relay` and a new pending promise; the flags are untouched |
| Relay.RelayService.OnConnect | src/app/services/relay.service.ts:65-75 | `connected` becomes true; exactly one `identificar` frame carrying the session id is emitted; the promise is settled as resolved if still pending |
| Relay.RelayService.GetSessionIdValue | src/app/services/relay.service.ts:55-57 | the session id fixed at construction, never empty |
| Relay.RelayService.IsConnected | src/app/services/relay.service.ts:119-121 | the connection flag; when it is false the client is not identified and awaits no ack |
| Relay.RelayService.OnIdentifyAck | src/app/services/relay.service.ts:69-72 | `identified` becomes exactly the ack value; the client stays valid |
| Relay.RelayService.OnDisconnect | src/app/services/relay.service.ts:77-81 | both `connected` and `identified` become false, and no ack is outstanding any more |
| Relay.RelayService.OnConnectError | src/app/services/relay.service.ts:83-86 | only the promise changes, rejected if still pending; neither flag moves |
| Relay.RelayService.OnRelay | src/app/services/relay.service.ts:88-90 | the latest-message slot is replaced by the data unchanged |
| Relay.RelayService.OnNotificar | src/app/services/relay.service.ts:92-94 | the latest-message slot is replaced by the data tagged `_channel: 'notificar'` |
| Relay.RelayService.Enviar | src/app/services/relay.service.ts:98-100 | without a socket nothing is emitted; otherwise exactly one `relay` frame, the data tagged with the scope (default `nosotros`) |
| Relay.RelayService.EnviarATodos | src/app/services/relay.service.ts:102-104 | one `relay` frame tagged `nosotros`, or nothing without a socket |
| Relay.RelayService.EnviarAOtros | src/app/services/relay.service.ts:106-108 | one `relay` frame tagged `ustedes`, or nothing without a socket |
| Relay.RelayService.EnviarAMi | src/app/services/relay.service.ts:110-112 | one `relay` frame tagged `yo`, or nothing without a socket |
| Relay.RelayService.Disconnect | src/app/services/relay.service.ts:114-117 | the socket, if any, is closed and `connected` becomes false; a connected client also goes through its `disconnect` event, losing `identified` and outstanding acks; otherwise those stay |
| Relay.DisconnectDropsIdentity | src/app/services/relay.service.ts:65-81 | connect, a positive ack, then `disconnect()`: the client ends valid, neither connected nor identified, awaiting no ack |
| Relay.DefaultScopeIsEveryone | src/app/services/relay.service.ts:98-104 | a send before `connect()` emits nothing; after it, `enviar(data)` and `enviarATodos(data)` emit the same frame |
| Pasarela.PasarelaUrl | src/composables/usePasarela.js:4 | the configured URL when it is non-empty, otherwise `http://localhost:5000` |
| Pasarela.MapSet | src/composables/usePasarela.js:66 | `Map.set`: a new key is appended last; a present key gets the new callback in its place; keys stay distinct |
| Pasarela.MapDelete | src/composables/usePasarela.js:67 | `Map.delete`: exactly the entries with other keys remain; deleting an absent key changes nothing |
| Pasarela.MapDeleteKeepsOrder | src/composables/usePasarela.js:67 | the remaining entries keep insertion order, each as often as before: an order-preserving subsequence without the deleted key |
| Pasarela.MapDeleteRemovesOne | src/composables/usePasarela.js:67 | with distinct keys, deleting a present key removes exactly the one entry holding it and closes the gap |
| Pasarela.MapDeleteKeepsDistinct | src/composables/usePasarela.js:67 | deleting keeps the keys distinct |
| Pasarela.MapDeleteKeepsMensaje | src/composables/usePasarela.js:65-67 | deleting keeps every key a `mensaje:` key |
| Pasarela.UnsubscribeTwice | src/composables/usePasarela.js:67 | unsubscribing a second time is a no-op |
| Pasarela.UnsubscribeKeepsOthers | src/composables/usePasarela.js:67 | unsubscribing one key keeps every other listener |
| Pasarela.PasarelaReachesEveryListener | src/composables/usePasarela.js:42-44 | a `pasarela` frame invokes every registered listener exactly once, in map order, with the data unchanged |
| Pasarela.NotificarReachesOnlyNotificarKeys | src/composables/usePasarela.js:46-50 | every invocation a `notificar` frame makes is of a listener whose key starts with `notificar:`, with the data unchanged |
| Pasarela.NotificarReachesEveryNotificarKey | src/composables/usePasarela.js:46-50 | conversely, every listener whose key starts with `notificar:` is invoked with the data |
| Pasarela.NotificarSkipsMensajeListeners | src/composables/usePasarela.js:46-50 | when every key starts with `mensaje:`, a `notificar` frame invokes nobody |
| Pasarela.PasarelaClient.constructor | src/composables/usePasarela.js:6-10 | the configured URL and user id; disconnected, unidentified, no socket, no listeners |
| Pasarela.PasarelaClient.Connect | src/composables/usePasarela.js:12-16 | a fresh socket on `<url>/pasarela` and a new pending promise |
| Pasarela.PasarelaClient.OnConnect | src/composables/usePasarela.js:18-29 | `connected` becomes true; an `identificar` frame only if `userId` is truthy; the promise resolves if pending |
| Pasarela.PasarelaClient.OnIdentifyAck | src/composables/usePasarela.js:23-26 | `identified` becomes the ack value; the client stays valid |
| Pasarela.PasarelaClient.OnDisconnect | src/composables/usePasarela.js:31-35 | both refs become false, and no ack is outstanding any more |
| Pasarela.PasarelaClient.OnConnectError | src/composables/usePasarela.js:37-40 | only the promise changes, rejected if pending |
| Pasarela.PasarelaClient.FanOut | src/composables/usePasarela.js:42-50 | the `forEach` loop appends exactly the deliveries `Deliveries` specifies for the frame |
| Pasarela.PasarelaClient.OnPasarela | src/composables/usePasarela.js:42-44 | every listener receives the data, per `Deliveries` |
| Pasarela.PasarelaClient.OnNotificar | src/composables/usePasarela.js:46-50 | with only `onMensaje` listeners registered, nothing is delivered |
| Pasarela.PasarelaClient.Enviar | src/composables/usePasarela.js:54-58 | without a socket a no-op; otherwise exactly one `pasarela` frame, the data tagged with the scope (default `nosotros`) |
| Pasarela.PasarelaClient.EnviarATodos | src/composables/usePasarela.js:60 | one `pasarela` frame tagged `nosotros`, or nothing |
| Pasarela.PasarelaClient.EnviarAOtros | src/composables/usePasarela.js:61 | one `pasarela` frame tagged `ustedes`, or nothing |
| Pasarela.PasarelaClient.EnviarAMi | src/composables/usePasarela.js:62 | one `pasarela` frame tagged `yo`, or nothing |
| Pasarela.PasarelaClient.OnMensaje | src/composables/usePasarela.js:64-66 | the key is `mensaje:<now>:<random>`; with a fresh key exactly one listener is appended |
| Pasarela.PasarelaClient.Unsubscribe | src/composables/usePasarela.js:67 | removes that key's entry and no other |
| Pasarela.PasarelaClient.Disconnect | src/composables/usePasarela.js:70-74 | closes the socket when there is one, otherwise nothing; sets no ref itself, but a connected socket's `disconnect` event drops both refs and outstanding acks |
| Pasarela.PasarelaClient.Unmount | src/composables/usePasarela.js:76-78 | unmounting does what `disconnect()` does |
| Pasarela.UnsubscribeScenario | src/composables/usePasarela.js:42-68 | two listeners, one unsubscribed twice: the next `pasarela` frame reaches only the other, once |
| Lists.PushCapped | src/app/tab1/tab1.page.ts:134-139 | the new item at index 0, length `min(n + 1, cap)`, the old items following in order |
| Lists.PushCappedBelowCap | src/app/tab3/tab3.page.ts:71-74 | below the cap nothing is dropped |
| Lists.PushCappedAtCap | src/app/tab3/tab3.page.ts:71-74 | at the cap exactly the oldest item is dropped |
| Tab1.ValidarPago | src/app/tab1/tab1.page.ts:92-103 | rejects a non-positive amount, then an empty recipient, then an amount above the balance, each exactly when the earlier checks passed; accepts otherwise |
| Tab1.FindById | src/app/tab1/tab1.page.ts:76 | `find`: the first index whose id equals the message's `id`, or none when no id matches |
| Tab1.Marcar | src/app/tab1/tab1.page.ts:76-79 | only the found transaction changes, and only its `estado`; nothing changes when no id matches |
| Tab1.Recibida | src/app/tab1/tab1.page.ts:63-70 | the recorded transaction is `completada`, with the message's amount (default 0), `id` (default the time), `origen` (default `Usuario`) and `concepto` (default `Pago recibido`), each of the three non-empty |
| Tab1.PagoEnviado | src/app/tab1/tab1.page.ts:118-126 | the payload carries `pago_enviado`, the transaction id, this session as origin, the recipient, the amount and the description |
| Tab1.PagoEnviadoLosesRecipient | src/app/tab1/tab1.page.ts:118-126 | after `enviarATodos` tags it, the frame names the recipient only if the recipient is literally `nosotros` |
| Tab1.Tab1Page.constructor | src/app/tab1/tab1.page.ts:21-26 | balance 500000, empty form, no transactions |
| Tab1.Tab1Page.OnConnected | src/app/tab1/tab1.page.ts:39-43 | the page's `connected` follows the service's flag |
| Tab1.Tab1Page.AgregarTransaccion | src/app/tab1/tab1.page.ts:134-139 | the list becomes `PushCapped(old, t, 20)` |
| Tab1.Tab1Page.ManejarMensaje | src/app/tab1/tab1.page.ts:58-89 | `pago_recibido` for this session adds the amount and pushes one `completada` item; `pago_completado` from this session subtracts it and marks the found item `completada`; `pago_rechazado` marks it `rechazada` whatever the origin, balance unchanged; anything else changes nothing |
| Tab1.Tab1Page.EnviarPago | src/app/tab1/tab1.page.ts:91-132 | an invalid form changes nothing and sends nothing; a valid one prepends one `procesando` item (no cap), sends one `pago_enviado` to everyone, clears the form and leaves the balance |
| Tab2.ScopedFrameNeverParaMi | src/app/tab2/tab2.page.ts:57-59 | a scope-tagged frame is never addressed to a `user_…` session id, plain or with `QR_` |
| Tab2.NuevoPago | src/app/tab2/tab2.page.ts:60-67 | the new payment is `pendiente`, with the message's `id` (default the time), `origen` (default `Usuario`), `monto` (default 0) and `concepto` (default `Pago`) |
| Tab2.SolicitudPago | src/app/tab2/tab2.page.ts:86-92 | the request carries `solicitud_pago`, this session, the amount and the description |
| Tab2.Confirmacion | src/app/tab2/tab2.page.ts:102-110 | `pago_recibido` with the payment's id, origin, amount and description |
| Tab2.Rechazo | src/app/tab2/tab2.page.ts:117-123 | `pago_rechazado` with the payment's id and origin and no amount |
| Tab2.Tab2Page.constructor | src/app/tab2/tab2.page.ts:21-26 | empty form, no QR code, no payments |
| Tab2.Tab2Page.ActualizarQR | src/app/tab2/tab2.page.ts:74-77 | the QR code becomes the session id |
| Tab2.Tab2Page.OnConnected | src/app/tab2/tab2.page.ts:33-40 | `connected` follows the flag; on true the QR code becomes the session id, on false it is kept |
| Tab2.Tab2Page.ManejarMensaje | src/app/tab2/tab2.page.ts:55-72 | a `pago_enviado` addressed to the session id or `QR_` + id prepends exactly one pending payment; any other message leaves the list |
| Tab2.Tab2Page.SolicitarPago | src/app/tab2/tab2.page.ts:79-96 | a non-positive amount sends and changes nothing; otherwise one `solicitud_pago` (description default `Solicitud de pago`) goes to everyone and the form is cleared |
| Tab2.Tab2Page.AceptarPago | src/app/tab2/tab2.page.ts:98-111 | that payment alone becomes `aceptado`, and one `pago_recibido` confirmation is sent |
| Tab2.Tab2Page.RechazarPago | src/app/tab2/tab2.page.ts:113-124 | that payment alone becomes `rechazado`, and one `pago_rechazado` notice is sent |
| Tab3.NuevaTransaccion | src/app/tab3/tab3.page.ts:59-69 | the message's `id`, default the time; `enviado` iff `origen` is this session; the contact is then `destino`, else `origen`, default `Usuario`; always `completada`, amount default 0, description default `Transacción` |
| Tab3.SelectTipo | src/app/tab3/tab3.page.ts:82 | `filter` by direction: exactly the items of that direction, each as often as in the list, as an order-preserving subsequence |
| Tab3.SentidoDe | src/app/tab3/tab3.page.ts:81 | `enviadas` keeps `enviado`, `recibidas` keeps `recibido` |
| Tab3.Tab3Page.constructor | src/app/tab3/tab3.page.ts:22-24 | empty list, filter `todas` |
| Tab3.Tab3Page.OnConnected | src/app/tab3/tab3.page.ts:31-35 | `connected` follows the flag |
| Tab3.Tab3Page.AgregarTransaccion | src/app/tab3/tab3.page.ts:59-75 | the new entry at index 0, at most 50 kept, the first ones in order |
| Tab3.Tab3Page.ManejarMensaje | src/app/tab3/tab3.page.ts:50-57 | `pago_completado` and `pago_recibido` add exactly one entry; other kinds change nothing; the list stays within 50 |
| Tab3.Tab3Page.GetTransaccionesFiltradas | src/app/tab3/tab3.page.ts:77-83 | `todas` returns the list unchanged; otherwise exactly the entries of the chosen direction, as an order-preserving subsequence no longer than the list |

## Left out

- The socket.io transport is not modelled. That covers `io(url, { transports })`, the websocket/polling fallback, and real emit/ack delivery. A socket is its URL, a closed flag and the log of frames handed to it.
- Socket callbacks are not tied to the actual transport. Events and acks are method calls that the caller makes in any order a live socket allows. An ack requires an outstanding identification request, and a `disconnect` event cancels the outstanding ones.
- A closed socket is not barred from later events. After `disconnect()` the model still accepts event calls that socket.io would no longer deliver.
- `console.log` and `console.error` calls in the socket handlers of both clients are left out, because they are diagnostics only. They are in relay.service.ts at lines 66, 71, 78 and 84, and in usePasarela.js at lines 19, 25, 32 and 38.
- Calling `connect()` twice is modelled only as a replacement. The second call replaces the socket and the promise. The first socket, and events it may still deliver, are not modelled.
- The relay server's delivery semantics are outside this code. This includes who receives `yo`, `ustedes` or `nosotros`, and whether it forwards `destino`.
- The rxjs `BehaviorSubject`/`Subscription` machinery, Vue refs and `onUnmounted` registration are left out. Replaying the last value to a new subscriber is library behaviour. The `messages$` subscription that hands each non-null message to a page's `manejarMensaje` is left to the caller.
- Angular lifecycle is left out: `ngOnInit` and `ngOnDestroy`, including Tab1's `connect().then(() => connected = true)`.
- `alert(...)` is not modelled. Validation failures are returned as `Option` error values.
- `formatearMonto` and `formatearFecha` are left out in all pages. They depend on `Intl.NumberFormat`, `Date` and locale strings.
- `Date.now()` and `Math.random()` are not modelled. Ids, timestamps, session suffixes and listener keys are parameters.
- Each operation takes one `now`, where the source reads `Date.now()` several times. This happens in Tab1 at tab1.page.ts:64 and 69 and at 105, 112 and 125, in Tab2 at tab2.page.ts:61 and 65, and in Tab3 at tab3.page.ts:62 and 68. The model therefore promises that an id made from the time and the timestamp beside it agree. The source does not, since the clock can move between the reads.
- Payload values are scalars only: strings, integers, booleans and `null`. Nested objects, arrays and `undefined` fields cannot be carried, and even a fractional `Math.random()` key is text.
- Listener callbacks are opaque handles. Whatever a callback does during `forEach` is not modelled, including unsubscribing during iteration.
- Tab2's `aceptarPago(pago)` and `rechazarPago(pago)` receive a payment object from the template. The model passes its index in `pagosRecibidos` instead. The in-place mutation of shared transaction and payment objects, here and after Tab1's `find`, is a positional update of immutable records.
- `mostrarQR` is only ever initialised in the page code.
- `capacitor.config.ts` is static packaging configuration.
- Messages.StrOr: treats a truthy non-string field as absent. In JavaScript `msg[k] || d` would yield that value, for example a numeric `id`.
- Messages.NumOr: treats a non-numeric field as absent. In JavaScript a truthy string `monto` would be concatenated into `saldo`, and NaN would propagate. Amounts are mathematical integers, with no floating point.
- Messages.MontoOr: same simplification as `NumOr`.
- Pasarela.PasarelaClient.OnIdentifyAck: takes a boolean ack. In JavaScript, `identified.value = ok` stores whatever value the peer sends.
