/**
 * The payments router: opening a Stripe payment intent for an unpaid order,
 * and the Stripe webhook that records a successful payment. Stripe itself
 * is a pair of oracles: the intent creator and the event verifier.
 */
module Payments {
  import opened Wrappers
  import opened Uuids
  import opened Schemas
  import opened Adapter
  import opened Http
  import opened Config
  import opened Firestore
  import opened Factory

  // ----- Stripe, as seen through its SDK -----

  /** The arguments of `stripe.PaymentIntent.create`. */
  datatype IntentRequest = IntentRequest(amount: int, currency: string, metadata: map<string, string>, automaticPaymentMethods: bool)

  /** The fields of a created intent the handler reads back. */
  datatype StripeIntent = StripeIntent(id: string, clientSecret: string, amount: int, currency: string)

  /** `stripe.PaymentIntent.create`: the intent, or the message of a StripeError. */
  type IntentCreator = IntentRequest -> Result<StripeIntent, string>

  /** A verified event: its type and the metadata of `event["data"]["object"]` (empty when absent). */
  datatype StripeEvent = StripeEvent(eventType: string, metadata: map<string, string>)

  /** `stripe.Webhook.construct_event`: the event, or ValueError, or SignatureVerificationError. */
  datatype Verification = Verified(event: StripeEvent) | InvalidPayload | InvalidSignature

  /** Called with the payload, the signature header and the webhook secret. */
  type Verifier = (string, string, string) -> Verification

  const ORDER_ID_KEY: string := "order_id"
  const PAYMENT_SUCCEEDED: string := "payment_intent.succeeded"
  /** The `{"status": "success"}` every accepted webhook call answers. */
  const ACK: string := "success"

  /** The body of a create-payment-intent request before validation. */
  datatype IntentBody = IntentBody(orderId: Uuid, amount: int, currency: Option<string>)

  /** What passing a request to `stripe.PaymentIntent.create` asks for: the order named in the metadata. */
  function IntentRequestFor(payment: PaymentIntent): (req: IntentRequest)
    ensures req.amount == payment.amount && req.currency == payment.currency && req.automaticPaymentMethods
    ensures ORDER_ID_KEY in req.metadata && ParseUuid(req.metadata[ORDER_ID_KEY]) == Some(payment.orderId)
  {
    IntentRequest(payment.amount, payment.currency, map[ORDER_ID_KEY := DocumentId(payment.orderId)], true)
  }

  /** `create_payment_intent`, over the backend state and the store it holds. */
  function CreatePaymentIntentOutcome(backend: Backend, store: Store, body: IntentBody, create: IntentCreator)
    : (r: Result<Reply<PaymentIntentResponse>, HttpError>)
    ensures r.Ok? ==> && body.amount > 0 && backend == Ready && body.orderId in store
                      && store[body.orderId].paymentStatus != PaymentStatus.Completed && r.value.status == CREATED
    ensures r.Ok? ==> var asked := create(IntentRequestFor(BuildPaymentIntent(body.orderId, body.amount, body.currency).value));
      asked.Ok? && r.value.body.clientSecret == asked.value.clientSecret && r.value.body.paymentIntentId == asked.value.id
  {
    match BuildPaymentIntent(body.orderId, body.amount, body.currency)
    case Err(e) => Err(Unprocessable(e.fields))
    case Ok(payment) =>
      if backend != Ready then Err(Internal)
      else match Found(store, payment.orderId)
        case None => Err(OrderNotFound(payment.orderId))
        case Some(order) =>
          if order.paymentStatus == PaymentStatus.Completed then Err(HttpException(BAD_REQUEST, "Order has already been paid"))
          else match create(IntentRequestFor(payment))
            case Err(message) => Err(HttpException(BAD_REQUEST, "Stripe error: " + message))
            case Ok(intent) =>
              Ok(Reply(CREATED, PaymentIntentResponse(intent.clientSecret, intent.id, intent.amount, intent.currency)))
  }

  /** A valid request for an unknown order is answered 404 and Stripe is never asked. */
  lemma UnknownOrderNotFound(store: Store, body: IntentBody, create1: IntentCreator, create2: IntentCreator)
    requires body.amount > 0 && body.orderId !in store
    ensures CreatePaymentIntentOutcome(Ready, store, body, create1) == Err(OrderNotFound(body.orderId))
    ensures CreatePaymentIntentOutcome(Ready, store, body, create1) == CreatePaymentIntentOutcome(Ready, store, body, create2)
  {
  }

  /** A valid request for a paid order is answered 400 and Stripe is never asked. */
  lemma PaidOrderRefused(store: Store, body: IntentBody, create1: IntentCreator, create2: IntentCreator)
    requires body.amount > 0 && body.orderId in store && store[body.orderId].paymentStatus == PaymentStatus.Completed
    ensures CreatePaymentIntentOutcome(Ready, store, body, create1) == Err(HttpException(BAD_REQUEST, "Order has already been paid"))
    ensures CreatePaymentIntentOutcome(Ready, store, body, create1) == CreatePaymentIntentOutcome(Ready, store, body, create2)
  {
  }

  /**
   * Otherwise Stripe is asked for the requested amount and currency with the
   * order's id in the metadata, and the reply carries the created intent.
   */
  lemma UnpaidOrderCharged(store: Store, body: IntentBody, create: IntentCreator)
    requires body.amount > 0 && body.orderId in store && store[body.orderId].paymentStatus == Incomplete
    ensures var currency := if body.currency.Some? then body.currency.value else DEFAULT_CURRENCY;
      var req := IntentRequestFor(PaymentIntent(body.orderId, body.amount, currency));
      && req == IntentRequest(body.amount, currency, map[ORDER_ID_KEY := UuidString(body.orderId)], true)
      && CreatePaymentIntentOutcome(Ready, store, body, create) ==
        match create(req)
        case Err(message) => Err(HttpException(BAD_REQUEST, "Stripe error: " + message))
        case Ok(intent) => Ok(Reply(CREATED, PaymentIntentResponse(intent.clientSecret, intent.id, intent.amount, intent.currency)))
  {
  }

  /** A non-positive amount is refused before the store or Stripe is consulted. */
  lemma NonPositiveAmountRefused(backend: Backend, store: Store, body: IntentBody, create: IntentCreator)
    requires body.amount <= 0
    ensures CreatePaymentIntentOutcome(backend, store, body, create) == Err(Unprocessable(["amount"]))
  {
  }

  // ----- the webhook -----

  /**
   * The order a verified event asks to mark paid: only a
   * `payment_intent.succeeded` event whose metadata holds a non-empty
   * order id that parses as a UUID names one.
   */
  function PaidOrderId(event: StripeEvent): (r: Option<Uuid>)
    ensures r.Some? ==>
      event.eventType == PAYMENT_SUCCEEDED && ORDER_ID_KEY in event.metadata && ParseUuid(event.metadata[ORDER_ID_KEY]) == r
    ensures (event.eventType == PAYMENT_SUCCEEDED && ORDER_ID_KEY in event.metadata
      && ParseUuid(event.metadata[ORDER_ID_KEY]).Some?) ==> r.Some?
  {
    if event.eventType != PAYMENT_SUCCEEDED || ORDER_ID_KEY !in event.metadata then None
    else
      var text := event.metadata[ORDER_ID_KEY];
      if text == "" then None else ParseUuid(text)
  }

  /** `stripe_webhook`, over the backend state and the store it holds. */
  function WebhookOutcome(backend: Backend, store: Store, signature: Option<string>, payload: string,
                          secret: string, verify: Verifier, now: int): (o: Outcome<string>)
    ensures o.response.Err? ==> o.store == store
    ensures o.response.Ok? ==> o.response.value == Reply(OK, ACK)
  {
    if !Signed(signature) then
      Outcome(store, Err(HttpException(BAD_REQUEST, "Missing Stripe signature")))
    else match verify(payload, signature.value, secret)
      case InvalidPayload => Outcome(store, Err(HttpException(BAD_REQUEST, "Invalid payload")))
      case InvalidSignature => Outcome(store, Err(HttpException(BAD_REQUEST, "Invalid signature")))
      case Verified(event) =>
        match PaidOrderId(event)
        case None => Outcome(store, Ok(Reply(OK, ACK)))
        case Some(orderId) =>
          if backend != Ready then Outcome(store, Err(Internal))
          else Outcome(PaymentStatusUpdated(store, orderId, PaymentStatus.Completed, now).store, Ok(Reply(OK, ACK)))
  }

  /** The signature header was sent and is not empty. */
  predicate Signed(signature: Option<string>) {
    signature.Some? && signature.value != ""
  }

  /** Without a signature the call is refused before anything is verified or stored. */
  lemma UnsignedRefused(backend: Backend, store: Store, signature: Option<string>, payload: string,
                        secret: string, verify1: Verifier, verify2: Verifier, now: int)
    requires !Signed(signature)
    ensures WebhookOutcome(backend, store, signature, payload, secret, verify1, now)
         == Outcome(store, Err(HttpException(BAD_REQUEST, "Missing Stripe signature")))
    ensures WebhookOutcome(backend, store, signature, payload, secret, verify1, now)
         == WebhookOutcome(backend, store, signature, payload, secret, verify2, now)
  {
  }

  /** A payload or signature Stripe does not accept is refused with 400 and nothing is stored. */
  lemma UnverifiedRefused(backend: Backend, store: Store, signature: Option<string>, payload: string,
                          secret: string, verify: Verifier, now: int)
    requires Signed(signature) && !verify(payload, signature.value, secret).Verified?
    ensures var o := WebhookOutcome(backend, store, signature, payload, secret, verify, now);
      o.store == store && o.response.Err? && o.response.error.Status() == BAD_REQUEST
  {
  }

  /**
   * The store changes only for a verified succeeded event naming a stored
   * order while the backend is ready, and then exactly that order is marked
   * Completed; in every other case it stays as it was.
   */
  lemma WebhookWrites(backend: Backend, store: Store, signature: Option<string>, payload: string,
                      secret: string, verify: Verifier, now: int)
    ensures var o := WebhookOutcome(backend, store, signature, payload, secret, verify, now);
      if Signed(signature) && verify(payload, signature.value, secret).Verified?
         && PaidOrderId(verify(payload, signature.value, secret).event).Some? && backend == Ready
      then o.store == PaymentStatusUpdated(store, PaidOrderId(verify(payload, signature.value, secret).event).value,
                                           PaymentStatus.Completed, now).store
      else o.store == store
  {
  }

  /** Every verified event is acknowledged, unless it names an order while no adapter can be used. */
  lemma VerifiedAcknowledged(backend: Backend, store: Store, signature: Option<string>, payload: string,
                             secret: string, verify: Verifier, now: int)
    requires Signed(signature) && verify(payload, signature.value, secret).Verified?
    requires PaidOrderId(verify(payload, signature.value, secret).event).None? || backend == Ready
    ensures WebhookOutcome(backend, store, signature, payload, secret, verify, now).response == Ok(Reply(OK, ACK))
  {
  }

  /** No webhook call writes a status other than Completed, adds or removes an order. */
  lemma WebhookOnlyCompletes(backend: Backend, store: Store, signature: Option<string>, payload: string,
                             secret: string, verify: Verifier, now: int)
    ensures var o := WebhookOutcome(backend, store, signature, payload, secret, verify, now);
      && o.store.Keys == store.Keys
      && forall u | u in store :: o.store[u] == store[u]
           || o.store[u] == store[u].(paymentStatus := PaymentStatus.Completed, updatedAt := now)
  {
    WebhookWrites(backend, store, signature, payload, secret, verify, now);
  }

  /** What a handler answers and leaves behind, over the stored documents themselves. */
  datatype DocsOutcome<T> = DocsOutcome(docs: map<string, Doc>, response: Result<Reply<T>, HttpError>)

  /**
   * `stripe_webhook` over whatever documents the collection holds. Recording
   * the payment re-reads the merged document: a ValueError from it is
   * swallowed like an unparseable id, while a KeyError or TypeError from a
   * damaged document, or an adapter that was never initialized, escapes as
   * a 500.
   */
  function WebhookOnDocs(backend: Backend, docs: map<string, Doc>, signature: Option<string>, payload: string,
                         secret: string, verify: Verifier, now: int): (o: DocsOutcome<string>)
    ensures o.docs != docs ==> Recording(backend, signature, payload, secret, verify)
    ensures o.response.Err? && o.response.error != Internal ==> o.docs == docs
    ensures o.response.Ok? ==> o.response.value == Reply(OK, ACK)
  {
    if !Signed(signature) then
      DocsOutcome(docs, Err(HttpException(BAD_REQUEST, "Missing Stripe signature")))
    else match verify(payload, signature.value, secret)
      case InvalidPayload => DocsOutcome(docs, Err(HttpException(BAD_REQUEST, "Invalid payload")))
      case InvalidSignature => DocsOutcome(docs, Err(HttpException(BAD_REQUEST, "Invalid signature")))
      case Verified(event) =>
        match PaidOrderId(event)
        case None => DocsOutcome(docs, Ok(Reply(OK, ACK)))
        case Some(orderId) =>
          if backend != Ready then DocsOutcome(docs, Err(Internal))
          else
            var u := DocsUpdated(docs, orderId, "payment_status", Str(PaymentStatus.Completed.Value()), now);
            DocsOutcome(u.docs, if u.result.Err? && !IsValueError(u.result.error) then Err(Internal) else Ok(Reply(OK, ACK)))
  }

  /** Over a collection that spells the store, the webhook answers and writes as `WebhookOutcome` says. */
  lemma WebhookOnDocsRefines(backend: Backend, docs: map<string, Doc>, store: Store, signature: Option<string>,
                             payload: string, secret: string, verify: Verifier, now: int)
    requires Consistent(docs, store)
    ensures var a := WebhookOnDocs(backend, docs, signature, payload, secret, verify, now);
      var b := WebhookOutcome(backend, store, signature, payload, secret, verify, now);
      a.response == b.response && Consistent(a.docs, b.store)
  {
    if Recording(backend, signature, payload, secret, verify) {
      var orderId := PaidOrderId(verify(payload, signature.value, secret).event).value;
      RecordRefines(docs, store, orderId, now);
      WebhookRecords(backend, docs, store, signature, payload, secret, verify, now);
    } else {
      WebhookUntouched(backend, docs, store, signature, payload, secret, verify, now);
    }
  }

  /** The call is one that records a payment: signed, verified, naming an order, with a ready adapter. */
  predicate Recording(backend: Backend, signature: Option<string>, payload: string, secret: string, verify: Verifier) {
    && Signed(signature) && verify(payload, signature.value, secret).Verified?
    && PaidOrderId(verify(payload, signature.value, secret).event).Some? && backend == Ready
  }

  /** A call that records nothing leaves documents and store alone, and both views answer alike. */
  lemma WebhookUntouched(backend: Backend, docs: map<string, Doc>, store: Store, signature: Option<string>,
                         payload: string, secret: string, verify: Verifier, now: int)
    requires !Recording(backend, signature, payload, secret, verify)
    ensures var a := WebhookOnDocs(backend, docs, signature, payload, secret, verify, now);
      var b := WebhookOutcome(backend, store, signature, payload, secret, verify, now);
      a.docs == docs && b.store == store && a.response == b.response
  {
  }

  /** A call that records writes the update on both views; the documents answer 200 once re-reading succeeds. */
  lemma WebhookRecords(backend: Backend, docs: map<string, Doc>, store: Store, signature: Option<string>,
                       payload: string, secret: string, verify: Verifier, now: int)
    requires Recording(backend, signature, payload, secret, verify)
    ensures var orderId := PaidOrderId(verify(payload, signature.value, secret).event).value;
      var u := DocsUpdated(docs, orderId, "payment_status", Str(PaymentStatus.Completed.Value()), now);
      var a := WebhookOnDocs(backend, docs, signature, payload, secret, verify, now);
      var b := WebhookOutcome(backend, store, signature, payload, secret, verify, now);
      && a.docs == u.docs && b.store == PaymentStatusUpdated(store, orderId, PaymentStatus.Completed, now).store
      && b.response == Ok(Reply(OK, ACK)) && (u.result.Ok? ==> a.response == b.response)
  {
  }

  /** Recording the payment on a collection that spells the store never fails, and spells the updated store. */
  lemma RecordRefines(docs: map<string, Doc>, store: Store, orderId: Uuid, now: int)
    requires Consistent(docs, store)
    ensures var u := DocsUpdated(docs, orderId, "payment_status", Str(PaymentStatus.Completed.Value()), now);
      u.result.Ok? && Consistent(u.docs, PaymentStatusUpdated(store, orderId, PaymentStatus.Completed, now).store)
  {
    PaymentStatusRefines(docs, store, orderId, PaymentStatus.Completed, now);
  }

  /**
   * When a verified succeeded event names a stored document and the adapter
   * is ready, the document is merged, and the call fails with 500 exactly
   * when re-reading the merged document raises something other than a
   * ValueError.
   */
  lemma WebhookAnswersByErrorKind(docs: map<string, Doc>, signature: Option<string>, payload: string,
                                  secret: string, verify: Verifier, now: int, orderId: Uuid)
    requires Signed(signature) && verify(payload, signature.value, secret).Verified?
    requires PaidOrderId(verify(payload, signature.value, secret).event) == Some(orderId)
    requires DocumentId(orderId) in docs
    ensures var key := DocumentId(orderId);
      var merged := Merged(docs[key], "payment_status", Str(PaymentStatus.Completed.Value()), now);
      var o := WebhookOnDocs(Ready, docs, signature, payload, secret, verify, now);
      && o.docs == docs[key := merged]
      && (o.response == Err(Internal) <==> DictToOrder(merged).Err? && !IsValueError(DictToOrder(merged).error))
      && (o.response != Err(Internal) ==> o.response == Ok(Reply(OK, ACK)))
  {
    var key := DocumentId(orderId);
    var merged := Merged(docs[key], "payment_status", Str(PaymentStatus.Completed.Value()), now);
    FetchedWritten(docs, orderId, merged);
  }

  /** One webhook delivery: the signature header, the body and the time it is handled. */
  datatype Delivery = Delivery(signature: Option<string>, payload: string, now: int)

  /** The store after handling a sequence of deliveries in order. */
  function Delivered(backend: Backend, store: Store, deliveries: seq<Delivery>, secret: string, verify: Verifier): Store
    decreases |deliveries|
  {
    if deliveries == [] then store
    else
      var d := deliveries[0];
      Delivered(backend, WebhookOutcome(backend, store, d.signature, d.payload, secret, verify, d.now).store,
        deliveries[1..], secret, verify)
  }

  /** Once paid, an order stays paid whatever webhook deliveries follow, and no order disappears. */
  lemma {:induction false} PaidStaysPaid(backend: Backend, store: Store, deliveries: seq<Delivery>,
                                         secret: string, verify: Verifier, orderId: Uuid)
    requires orderId in store && store[orderId].paymentStatus == PaymentStatus.Completed
    ensures var after := Delivered(backend, store, deliveries, secret, verify);
      orderId in after && after[orderId].paymentStatus == PaymentStatus.Completed
    decreases |deliveries|
  {
    if deliveries != [] {
      var d := deliveries[0];
      WebhookOnlyCompletes(backend, store, d.signature, d.payload, secret, verify, d.now);
      var next := WebhookOutcome(backend, store, d.signature, d.payload, secret, verify, d.now).store;
      PaidStaysPaid(backend, next, deliveries[1..], secret, verify, orderId);
    }
  }

  /** Delivering the same event again leaves every status as it was; only `updated_at` may move. */
  lemma RedeliveryKeepsStatus(backend: Backend, store: Store, signature: Option<string>, payload: string,
                              secret: string, verify: Verifier, now: int, later: int)
    ensures var once := WebhookOutcome(backend, store, signature, payload, secret, verify, now).store;
      var twice := WebhookOutcome(backend, once, signature, payload, secret, verify, later).store;
      && twice.Keys == once.Keys
      && forall u | u in once :: twice[u] == once[u] || twice[u] == once[u].(updatedAt := later)
  {
    WebhookWrites(backend, store, signature, payload, secret, verify, now);
    var once := WebhookOutcome(backend, store, signature, payload, secret, verify, now).store;
    WebhookWrites(backend, once, signature, payload, secret, verify, later);
  }

  /**
   * A payment for an intent this server opened closes the loop: the succeeded
   * event carries the intent's metadata, which names the order, and the
   * order is then marked Completed.
   */
  lemma IntentPaymentCompletesOrder(store: Store, payment: PaymentIntent, signature: Option<string>, payload: string,
                                    secret: string, verify: Verifier, now: int)
    requires payment.orderId in store && Signed(signature)
    requires verify(payload, signature.value, secret) == Verified(StripeEvent(PAYMENT_SUCCEEDED, IntentRequestFor(payment).metadata))
    ensures var o := WebhookOutcome(Ready, store, signature, payload, secret, verify, now);
      && o.response == Ok(Reply(OK, ACK))
      && o.store[payment.orderId] == store[payment.orderId].(paymentStatus := PaymentStatus.Completed, updatedAt := now)
  {
    var text := IntentRequestFor(payment).metadata[ORDER_ID_KEY];
    assert text != [] by {
      assert |UuidString(payment.orderId)| == 36;
    }
  }

  /** The store itself accepts any payment status: monotonicity rests on the webhook alone. */
  lemma StoreAcceptsAnyPaymentStatus(store: Store, orderId: Uuid, now: int)
    requires orderId in store && store[orderId].paymentStatus == PaymentStatus.Completed
    ensures PaymentStatusUpdated(store, orderId, Incomplete, now).store[orderId].paymentStatus == Incomplete
  {
  }

  // ----- the handlers over the database slot -----

  /** `create_payment_intent`: reads the store, never changes it. */
  method CreatePaymentIntent(slot: DatabaseSlot, body: IntentBody, create: IntentCreator)
    returns (r: Result<Reply<PaymentIntentResponse>, HttpError>)
    requires slot.Valid()
    ensures slot.remote.Valid() ==> r == CreatePaymentIntentOutcome(BackendOf(slot), slot.remote.orders, body, create)
  {
    match BuildPaymentIntent(body.orderId, body.amount, body.currency) {
      case Err(e) =>
        return Err(Unprocessable(e.fields));
      case Ok(payment) =>
        var got := slot.Get();
        if got.Err? {
          return Err(Internal);
        }
        var found := got.value.GetOrder(payment.orderId);
        match found {
          case Err(_) =>
            r := Err(Internal);
          case Ok(None) =>
            r := Err(OrderNotFound(payment.orderId));
          case Ok(Some(order)) =>
            if order.paymentStatus == PaymentStatus.Completed {
              return Err(HttpException(BAD_REQUEST, "Order has already been paid"));
            }
            match create(IntentRequestFor(payment)) {
              case Err(message) =>
                r := Err(HttpException(BAD_REQUEST, "Stripe error: " + message));
              case Ok(intent) =>
                r := Ok(Reply(CREATED, PaymentIntentResponse(intent.clientSecret, intent.id, intent.amount, intent.currency)));
            }
        }
    }
  }

  /**
   * `stripe_webhook`. A ValueError raised while recording the payment (an
   * unreadable stored document) is swallowed like an unparseable id; any
   * other failure is a 500.
   */
  method Webhook(slot: DatabaseSlot, signature: Option<string>, payload: string, settings: Settings,
                 verify: Verifier, now: int)
    returns (r: Result<Reply<string>, HttpError>)
    requires slot.Valid()
    modifies slot.remote
    ensures var o := WebhookOnDocs(old(BackendOf(slot)), old(slot.remote.docs), signature, payload,
                                   settings.stripeWebhookSecret, verify, now);
      r == o.response && slot.remote.docs == o.docs
    ensures old(slot.remote.Valid()) ==>
      var o := WebhookOutcome(old(BackendOf(slot)), old(slot.remote.orders), signature, payload,
                              settings.stripeWebhookSecret, verify, now);
      r == o.response && slot.remote.orders == o.store && slot.remote.Valid()
  {
    if !Signed(signature) {
      return Err(HttpException(BAD_REQUEST, "Missing Stripe signature"));
    }
    match verify(payload, signature.value, settings.stripeWebhookSecret) {
      case InvalidPayload =>
        r := Err(HttpException(BAD_REQUEST, "Invalid payload"));
      case InvalidSignature =>
        r := Err(HttpException(BAD_REQUEST, "Invalid signature"));
      case Verified(event) =>
        var target := PaidOrderId(event);
        if target.Some? {
          var got := slot.Get();
          if got.Err? {
            return Err(Internal);
          }
          var updated := got.value.UpdateOrderPaymentStatus(target.value, PaymentStatus.Completed, now);
          if updated.Err? && !IsValueError(updated.error) {
            return Err(Internal);
          }
        }
        r := Ok(Reply(OK, ACK));
    }
  }
}
