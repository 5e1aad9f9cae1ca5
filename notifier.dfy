/**
  The status-change push notifier of the delivery app: when the `status` of an
  order under `/delivery_pedidos/{pedidoId}` changes, the handler reads the order
  record, looks the new status up in a fixed table of six message templates and
  sends one push message to the device token stored on the order.

  The handler is modelled as pure functions. Its two awaits become inputs: the
  record read from the database is the parameter `pedido` (None for a missing
  record), and the messaging provider is the parameter `send`, a function from
  the composed message to the provider's outcome. The wall-clock timestamp is
  the opaque string `timestamp`.
 */
module Notifier {
  import opened Wrappers

  // ---------------------------------------------------------------------------
  // The template table

  /** A (title, body) pair shown for one status. */
  datatype Template = Template(title: string, body: string)

  /** The six status values the table knows. */
  const KnownStatuses: set<string> :=
    {"Pendente", "Em Preparo", "Pronto", "Saiu para Entrega", "Entregue", "Cancelado"}

  /** The status-to-template table; emoji are written as code-point escapes
      (U+200D is the zero-width joiner inside the cook emoji). */
  const StatusNotifications: map<string, Template> := map[
    "Pendente" := Template(
      "\U{2705} Pedido Recebido!",
      "Seu pedido foi recebido e está sendo processado."),
    "Em Preparo" := Template(
      "\U{1F468}\U{200D}\U{1F373} Preparando seu Pedido!",
      "Estamos preparando seu pedido com muito carinho!"),
    "Pronto" := Template(
      "\U{2705} Pedido Pronto!",
      "Seu pedido está pronto e aguardando entrega!"),
    "Saiu para Entrega" := Template(
      "\U{1F6F5} Saiu para Entrega!",
      "Seu pedido está a caminho! O entregador já saiu."),
    "Entregue" := Template(
      "\U{1F389} Pedido Entregue!",
      "Seu pedido foi entregue! Bom apetite! \U{1F60B}"),
    "Cancelado" := Template(
      "\U{274C} Pedido Cancelado",
      "Seu pedido foi cancelado. Entre em contato se tiver dúvidas.")
  ]

  /** The table's own keys are exactly the six known statuses. */
  lemma TableKeysAreKnownStatuses()
    ensures StatusNotifications.Keys == KnownStatuses
  {
  }

  /** Looks a status up among the table's OWN keys; None means "no message
      defined for this status". */
  function Lookup(status: string): (r: Option<Template>)
    ensures r.Some? <==> status in KnownStatuses
    ensures r.Some? ==> r.value == StatusNotifications[status]
  {
    TableKeysAreKnownStatuses();
    if status in StatusNotifications then Some(StatusNotifications[status]) else None
  }

  // ---------------------------------------------------------------------------
  // Order records and messages

  /** The fields of an order record the handler reads. A missing `fcmToken`
      is None. */
  datatype Order = Order(codigo: string, fcmToken: Option<string>)

  /** JavaScript truthiness of an optional string: undefined and "" are falsy. */
  predicate Truthy(s: Option<string>)
  {
    s.Some? && s.value != ""
  }

  /** The token to address, or None when the record is missing or its token
      is missing or empty (the handler's first early exit). */
  function RecipientToken(pedido: Option<Order>): (r: Option<string>)
    ensures r.Some? <==> pedido.Some? && pedido.value.fcmToken.Some? && pedido.value.fcmToken.value != ""
    ensures r.Some? ==> r == pedido.value.fcmToken
  {
    match pedido
    case None => None
    case Some(o) => if Truthy(o.fcmToken) then o.fcmToken else None
  }

  datatype Notification = Notification(title: string, body: string)

  /** The data payload handed to the receiving client. */
  datatype Payload = Payload(pedidoId: string, codigo: string, status: string, timestamp: string)

  /** The web-push presentation hints; the same for every message. */
  datatype Webpush = Webpush(link: string, icon: string, badge: string, vibrate: seq<int>)

  datatype Message = Message(token: string, notification: Notification, data: Payload, webpush: Webpush)

  const WebpushHints: Webpush :=
    Webpush("https://seu-site.com/index.html", "/img/logo.png", "/img/badge.png", [200, 100, 200])

  const BodyPrefix: string := "Pedido "
  const BodySeparator: string := ": "

  /** The notification body: the order code placed between "Pedido " and
      ": ", followed by the template's body. */
  function NotificationBody(codigo: string, templateBody: string): (r: string)
    ensures |r| == |BodyPrefix| + |codigo| + |BodySeparator| + |templateBody|
    ensures r[..|BodyPrefix|] == BodyPrefix
    ensures r[|BodyPrefix|..|BodyPrefix| + |codigo|] == codigo
    ensures r[|r| - |BodySeparator| - |templateBody|..] == BodySeparator + templateBody
  {
    BodyPrefix + codigo + BodySeparator + templateBody
  }

  /** Reads the order code back out of a body built for a known template body. */
  function CodigoOfBody(body: string, templateBody: string): Option<string>
  {
    var n := |BodyPrefix|;
    var k := |BodySeparator| + |templateBody|;
    if |body| >= n + k && body[..n] == BodyPrefix && body[|body| - k..] == BodySeparator + templateBody
    then Some(body[n..|body| - k])
    else None
  }

  /** The order code can be recovered from the notification body. */
  lemma CodigoRecoverable(codigo: string, templateBody: string)
    ensures CodigoOfBody(NotificationBody(codigo, templateBody), templateBody) == Some(codigo)
  {
  }

  /** Every body CodigoOfBody accepts is the body built from the code it returns. */
  lemma CodigoOfBodySound(body: string, templateBody: string, codigo: string)
    requires CodigoOfBody(body, templateBody) == Some(codigo)
    ensures NotificationBody(codigo, templateBody) == body
  {
  }

  // ---------------------------------------------------------------------------
  // The handler

  /** The message the handler builds for one status change, or None when it
      returns early. `statusAnterior` is only logged by the handler. */
  function Compose(pedidoId: string, pedido: Option<Order>, novoStatus: string,
                   statusAnterior: string, timestamp: string): (r: Option<Message>)
    ensures r.Some? <==>
      && pedido.Some? && pedido.value.fcmToken.Some? && pedido.value.fcmToken.value != ""
      && novoStatus in KnownStatuses
    ensures r.Some? ==>
      && r.value.token == pedido.value.fcmToken.value
      && r.value.notification.title == StatusNotifications[novoStatus].title
      && r.value.notification.body == "Pedido " + pedido.value.codigo + ": " + StatusNotifications[novoStatus].body
      && r.value.data == Payload(pedidoId, pedido.value.codigo, novoStatus, timestamp)
      && r.value.webpush == WebpushHints
  {
    match RecipientToken(pedido)
    case None => None
    case Some(token) =>
      match Lookup(novoStatus)
      case None => None
      case Some(template) =>
        Some(Message(
          token,
          Notification(template.title, NotificationBody(pedido.value.codigo, template.body)),
          Payload(pedidoId, pedido.value.codigo, novoStatus, timestamp),
          WebpushHints))
  }

  /** The provider's answer to a send: its response string, or a failure. */
  datatype SendResult = Sent(response: string) | Failed

  /** One invocation: the message handed to the provider (if any) and the
      value the handler returns (None stands for `null`). */
  datatype Invocation = Invocation(dispatched: Option<Message>, returned: Option<string>)

  /** The whole handler: compose, then send and map the outcome. A failed
      send is swallowed and yields `null`. */
  function Handle(pedidoId: string, pedido: Option<Order>, novoStatus: string,
                  statusAnterior: string, timestamp: string,
                  send: Message -> SendResult): (r: Invocation)
    ensures r.dispatched == Compose(pedidoId, pedido, novoStatus, statusAnterior, timestamp)
    ensures r.returned.Some? <==> r.dispatched.Some? && send(r.dispatched.value).Sent?
    ensures r.returned.Some? ==> send(r.dispatched.value) == Sent(r.returned.value)
  {
    match Compose(pedidoId, pedido, novoStatus, statusAnterior, timestamp)
    case None => Invocation(None, None)
    case Some(m) =>
      match send(m)
      case Sent(response) => Invocation(Some(m), Some(response))
      case Failed => Invocation(Some(m), None)
  }

  // ---------------------------------------------------------------------------
  // Properties of the handler

  /** A missing record, or a missing or empty token, stops the handler before
      the lookup: nothing is sent and it returns null, whatever the status. */
  lemma NoTokenNoMessage(pedidoId: string, pedido: Option<Order>, novoStatus: string,
                         statusAnterior: string, timestamp: string, send: Message -> SendResult)
    requires pedido.None? || !Truthy(pedido.value.fcmToken)
    ensures Handle(pedidoId, pedido, novoStatus, statusAnterior, timestamp, send) == Invocation(None, None)
  {
  }

  /** A status outside the six known ones sends nothing and returns null. */
  lemma UnknownStatusNoMessage(pedidoId: string, pedido: Option<Order>, novoStatus: string,
                               statusAnterior: string, timestamp: string, send: Message -> SendResult)
    requires novoStatus !in KnownStatuses
    ensures Handle(pedidoId, pedido, novoStatus, statusAnterior, timestamp, send) == Invocation(None, None)
  {
  }

  /** The previous status never changes the outcome. */
  lemma PreviousStatusIrrelevant(pedidoId: string, pedido: Option<Order>, novoStatus: string,
                                 before1: string, before2: string, timestamp: string,
                                 send: Message -> SendResult)
    ensures Handle(pedidoId, pedido, novoStatus, before1, timestamp, send)
         == Handle(pedidoId, pedido, novoStatus, before2, timestamp, send)
  {
  }

  /** The send-outcome mapping of `Handle`'s contract, spelled out case by
      case: the provider's response on success, null on failure, and no send
      when no message was composed. */
  lemma SendOutcomeMapping(pedidoId: string, pedido: Option<Order>, novoStatus: string,
                           statusAnterior: string, timestamp: string, send: Message -> SendResult)
    ensures var m := Compose(pedidoId, pedido, novoStatus, statusAnterior, timestamp);
            var r := Handle(pedidoId, pedido, novoStatus, statusAnterior, timestamp, send);
            && (m.None? ==> r == Invocation(None, None))
            && (m.Some? && send(m.value).Failed? ==> r == Invocation(m, None))
            && (m.Some? && send(m.value).Sent? ==> r == Invocation(m, Some(send(m.value).response)))
  {
  }

  /** A composed message is self-describing: the status in its payload has a
      template whose title is the message's title, and the message's body,
      read against that template, gives back the payload's order code. */
  lemma MessageDeterminesOrder(pedidoId: string, pedido: Option<Order>, novoStatus: string,
                               statusAnterior: string, timestamp: string)
    requires Compose(pedidoId, pedido, novoStatus, statusAnterior, timestamp).Some?
    ensures var m := Compose(pedidoId, pedido, novoStatus, statusAnterior, timestamp).value;
            && Lookup(m.data.status).Some?
            && Lookup(m.data.status).value.title == m.notification.title
            && CodigoOfBody(m.notification.body, Lookup(m.data.status).value.body) == Some(m.data.codigo)
  {
  }

  /** The worked example: order "abc123" with code "0007" moving from
      "Pendente" to "Em Preparo". */
  lemma ExampleEmPreparo(timestamp: string)
    ensures Compose("abc123", Some(Order("0007", Some("tok_xyz"))), "Em Preparo", "Pendente", timestamp)
         == Some(Message(
              "tok_xyz",
              Notification("\U{1F468}\U{200D}\U{1F373} Preparando seu Pedido!",
                           "Pedido 0007: " + "Estamos preparando seu pedido com muito carinho!"),
              Payload("abc123", "0007", "Em Preparo", timestamp),
              WebpushHints))
  {
    assert StatusNotifications["Em Preparo"].body == "Estamos preparando seu pedido com muito carinho!";
    assert BodyPrefix + "0007" + BodySeparator == "Pedido 0007: ";
  }

  // ---------------------------------------------------------------------------
  // Repeated invocations

  /** One status-change event as the trigger delivers it, with the record
      read for it and the time it was handled. */
  datatype Event = Event(pedidoId: string, pedido: Option<Order>, novoStatus: string,
                         statusAnterior: string, timestamp: string)

  function ComposeEvent(e: Event): Option<Message>
  {
    Compose(e.pedidoId, e.pedido, e.novoStatus, e.statusAnterior, e.timestamp)
  }

  /** The messages dispatched when the handler runs once per event, in order.
      Invocations share no state, so nothing is deduplicated. */
  function Deliveries(events: seq<Event>): (ms: seq<Message>)
    ensures |ms| <= |events|
    ensures ms == [] <==> forall j :: 0 <= j < |events| ==> ComposeEvent(events[j]).None?
  {
    if events == [] then []
    else
      var first := match ComposeEvent(events[0]) case None => [] case Some(m) => [m];
      first + Deliveries(events[1..])
  }

  /** A message is dispatched exactly when some event composes it. */
  lemma {:induction false} DeliveriesMembership(events: seq<Event>, m: Message)
    ensures m in Deliveries(events) <==> exists j :: 0 <= j < |events| && ComposeEvent(events[j]) == Some(m)
  {
    if events != [] {
      var first := match ComposeEvent(events[0]) case None => [] case Some(x) => [x];
      assert Deliveries(events) == first + Deliveries(events[1..]);
      DeliveriesMembership(events[1..], m);
      if m in Deliveries(events[1..]) {
        var j :| 0 <= j < |events[1..]| && ComposeEvent(events[1..][j]) == Some(m);
        assert events[j + 1] == events[1..][j];
      }
      if exists j :: 0 <= j < |events| && ComposeEvent(events[j]) == Some(m) {
        var j :| 0 <= j < |events| && ComposeEvent(events[j]) == Some(m);
        if j > 0 {
          assert events[1..][j - 1] == events[j];
        }
      }
    }
  }

  /** Running two batches of events dispatches the messages of each in turn. */
  lemma {:induction false} DeliveriesAppend(a: seq<Event>, b: seq<Event>)
    ensures Deliveries(a + b) == Deliveries(a) + Deliveries(b)
  {
    if a == [] {
      assert a + b == b;
    } else {
      var first := match ComposeEvent(a[0]) case None => [] case Some(m) => [m];
      assert (a + b)[0] == a[0];
      assert (a + b)[1..] == a[1..] + b;
      calc {
        Deliveries(a + b);
        first + Deliveries(a[1..] + b);
        { DeliveriesAppend(a[1..], b); }
        first + (Deliveries(a[1..]) + Deliveries(b));
        (first + Deliveries(a[1..])) + Deliveries(b);
        Deliveries(a) + Deliveries(b);
      }
    }
  }

  /** The same status change delivered twice sends the same message twice:
      the handler is not idempotent. */
  lemma RepeatedEventSentTwice(e: Event)
    requires ComposeEvent(e).Some?
    ensures Deliveries([e, e]) == [ComposeEvent(e).value, ComposeEvent(e).value]
  {
    DeliveriesAppend([e], [e]);
  }

  // ---------------------------------------------------------------------------
  // The lookup as written: a plain-object property read

  /** Property names every JavaScript object inherits from Object.prototype;
      each reads as a truthy value (a function, or the prototype itself). */
  const ObjectPrototypeMembers: set<string> := {
    "constructor", "hasOwnProperty", "isPrototypeOf", "propertyIsEnumerable",
    "toLocaleString", "toString", "valueOf", "__proto__",
    "__defineGetter__", "__defineSetter__", "__lookupGetter__", "__lookupSetter__"
  }

  /** Whether `statusNotifications[novoStatus]` is truthy as the handler reads
      it: an own key of the table, or an inherited member. */
  predicate PassesGuardAsWritten(status: string)
  {
    status in StatusNotifications || status in ObjectPrototypeMembers
  }

  /** An inherited name passes the handler's guard although the table has no
      template for it, while Lookup rejects it. */
  lemma InheritedNamePassesGuard(status: string)
    requires status in ObjectPrototypeMembers
    ensures PassesGuardAsWritten(status)
    ensures status !in KnownStatuses && Lookup(status).None?
  {
  }
}
