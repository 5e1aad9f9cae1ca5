# Order status push notifier

A model of the Firebase Cloud Function in `functions/index.js` that runs whenever
the `status` of an order under `/delivery_pedidos/{pedidoId}` changes. The
function reads the order record, stops when the record or its FCM token is
missing, looks the new status up in a table of six Portuguese message templates
(`Pendente`, `Em Preparo`, `Pronto`, `Saiu para Entrega`, `Entregue`,
`Cancelado`), builds one push message and sends it. It returns the provider's
response, or `null` when it stopped early or when sending failed.

The handler has no loops and no mutable state, so the model is pure: datatypes,
functions and lemmas in module `Notifier` (`notifier.dfy`), with an `Option`
type in module `Wrappers` (`wrappers.dfy`). The I/O becomes parameters:

- the database read becomes `pedido: Option<Order>`, where `None` is a missing record;
- `admin.messaging().send` becomes `send: Message -> SendResult`, where `SendResult` is `Sent(response)` or `Failed`;
- `new Date().toISOString()` becomes the opaque string `timestamp`.

`Handle` returns an `Invocation`. It records the message handed to the provider
(if any) and the value the handler returns, with `None` standing for `null`.
This lets the model state that nothing is sent when the handler stops early.

The table's emoji are written as code-point escapes (`\U{1F468}\U{200D}\U{1F373}`
is the cook emoji with its zero-width joiner). Accented letters are written as
they are.

## Model

| member | source | states |
|---|---|---|
| `Notifier.TableKeysAreKnownStatuses` | functions/index.js:10-35 | the template table has exactly the six status keys |
| `Notifier.Lookup` | functions/index.js:61-66 | a template is found exactly when the status is one of the six, and it is that status's table entry |
| `Notifier.RecipientToken` | functions/index.js:55-58 | a token is used exactly when the record exists and its `fcmToken` is present and non-empty (JavaScript truthiness), and it is the record's token |
| `Notifier.NotificationBody` | functions/index.js:73 | the body starts with "Pedido ", carries the order code right after it, and ends with ": " followed by the template body |
| `Notifier.CodigoRecoverable` | functions/index.js:73 | the order code can be read back out of any body built for a given template body |
| `Notifier.CodigoOfBodySound` | functions/index.js:73 | any body from which a code is read back is exactly the body built from that code |
| `Notifier.Compose` | functions/index.js:55-91 | a message is built exactly when the record has a truthy token and the new status is one of the six; it is addressed to that token, its title is the status's table title, its body is "Pedido " + codigo + ": " + the table body, its data is (pedidoId, codigo, new status, timestamp) and its webpush hints are the constant ones |
| `Notifier.Handle` | functions/index.js:40-101 | the handler sends exactly the composed message, and returns a response exactly when a message was sent and the send succeeded, that response being the provider's |
| `Notifier.NoTokenNoMessage` | functions/index.js:55-58 | a missing record or a missing or empty token means nothing is sent and null is returned, whatever the status, so the token check comes before the lookup |
| `Notifier.UnknownStatusNoMessage` | functions/index.js:61-66 | a status outside the six sends nothing and returns null |
| `Notifier.PreviousStatusIrrelevant` | functions/index.js:41-45 | the previous status never changes what is sent or returned |
| `Notifier.SendOutcomeMapping` | functions/index.js:94-101 | case by case, as `Handle`'s contract also states: a failed send returns null, a successful one returns the provider's response, and no message means no send |
| `Notifier.MessageDeterminesOrder` | functions/index.js:69-80 | a composed message is self-describing: the status in its payload has a template whose title is the message's title, and its body read against that template gives back the payload's order code |
| `Notifier.ExampleEmPreparo` | functions/index.js:15-18 | the order "abc123" with code "0007" moving to "Em Preparo" gets the cook title and the body "Pedido 0007: Estamos preparando seu pedido com muito carinho!" |
| `Notifier.Deliveries` | functions/index.js:38-40 | one handler run per status write yields no more messages than writes, and none at all exactly when no write composes one |
| `Notifier.DeliveriesMembership` | functions/index.js:38-40 | a message is dispatched by a run of writes exactly when one of those writes composes it |
| `Notifier.DeliveriesAppend` | functions/index.js:38-40 | the messages of two batches of writes are those of the first batch followed by those of the second |
| `Notifier.RepeatedEventSentTwice` | functions/index.js:40-101 | the same status write delivered twice sends its message twice, because the handler keeps no state to deduplicate |
| `Notifier.InheritedNamePassesGuard` | functions/index.js:61-63 | a name inherited from `Object.prototype` passes the handler's `!notification` guard, although the table has no template for it |

## Findings

| source | as written | input that shows it | evidently intended | confidence | as-written member | corrected member |
|---|---|---|---|---|---|---|
| functions/index.js:61-63 | `statusNotifications[novoStatus]` reads a plain object, so a name inherited from `Object.prototype` yields a truthy value (a function, or `Object.prototype` itself for `"__proto__"`) and passes the `!notification` guard; the message then has an undefined title and the body "Pedido <codigo>: undefined" | `novoStatus = "toString"` (also `"constructor"`, `"__proto__"`, ...) | only the six table keys produce a message; any other status is skipped | medium, not executed | `Notifier.PassesGuardAsWritten`, shown by `Notifier.InheritedNamePassesGuard` | `Notifier.Lookup` (own keys only), used by `Notifier.Compose` and proved by `Notifier.UnknownStatusNoMessage` |

## Left out

- Firebase bootstrap and trigger registration (`admin.initializeApp()`, `functions.database.ref(...).onUpdate`) are platform wiring. `Deliveries` stands in for "one run per write".
- The database read and `admin.messaging().send` are foreign I/O. They become the `pedido` and `send` parameters.
- Handle: a rejected database read is not modelled. The read at functions/index.js:48-52 sits outside the `try`, so its failure escapes the handler, while only a failed send is caught and turned into `null`. `pedido` has no such outcome and `Handle` is total.
- Deliveries: its own contract bounds the count and characterises emptiness only; which messages appear is stated by `DeliveriesMembership`, and their order by `DeliveriesAppend`.
- `new Date().toISOString()` reads the clock. It becomes the `timestamp` parameter.
- `console.log` and `console.error` are logging only. This is also the only use of the previous status.
- Concurrency, ordering between invocations and duplicate delivery belong to the host platform.
- Record fields are typed as strings. JavaScript would also accept a number or a missing `codigo`, which a template literal renders as text (for example "undefined"). The model does not cover those values, and it covers no falsy non-object record other than a missing one.
- The provider's error value is not modelled. The handler only logs it, so `Failed` carries nothing.
- The worked example (`ExampleEmPreparo`) writes the expected body as "Pedido 0007: " + the template body. This is the same string split in two, because the verifier cannot compare one long string literal with a concatenation.
- The as-written message for an inherited status name is only described in the finding. The model captures the guard that lets the name through, not the message built afterwards.
- The client configuration file `programa lanchonete/firebase-config.js` holds only placeholder constants and is not part of this model.
