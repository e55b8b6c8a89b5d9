# Blumelein order backend, modelled in Dafny

This project models the order core of the Blumelein server. The server is a
FastAPI backend for a flower shop, with orders stored in Firestore and
payments taken through Stripe. The model covers:

- the pydantic schemas: the three enums, the item and order records with their
  defaults, and the length and size constraints on request bodies
  (`schemas.dfy`);
- the storage interface every backend implements: a map from order id to order,
  and the documented outcome of each operation (`adapter.dfy`);
- the Firestore backend: the document codec `_order_to_dict` / `_dict_to_order`,
  the `orders` collection as a class holding its documents, and the adapter
  whose methods read and write it. Each method is proved to do to the store
  what the interface promises (`firestore.dfy`);
- `str(uuid)` and `UUID(text)`, written out after CPython's `uuid` module, with
  the round trip between them (`uuids.dfy`);
- the process-wide adapter slot of `database/factory.py`: empty, then filled by
  `initialize_database`, then emptied by `close_database` (`factory.dfy`);
- `Settings.cors_origins_list`: split on commas, then strip each piece
  (`config.dfy`);
- the three routers. Each handler is a pure function over the backend state and
  the store. A method over the adapter slot is proved to answer what that
  function answers and to leave the store as it says (`payments.dfy`,
  `manage.dfy`, `orders.dfy`, `http.dfy` for the replies and errors).

The modelling choices:

- Stripe is two function parameters: the intent creator and `construct_event`.
- The clock, `uuid4` and the time of each write are parameters: `now`, and the
  `Fresh` values of a submission.
- Timestamps are integers.
- An exception the handler does not catch is the bare 500 `Internal`.
- A request body that parses but fails validation is a 422 that names the
  offending fields. FastAPI resolves the admin-key dependency before it
  validates such a body, so a wrong key together with a body that parses but
  fails validation is a 403. A body that is not JSON at all is a 422 whatever
  the key, and the model does not represent it (handlers take parsed bodies).
- `FirestoreAdapter.close()` closes the client but leaves `self.db` set. The
  model's `Close` therefore changes nothing.

Where an order lifecycle would refuse an operation, the model follows the code:

- `create_order` overwrites an existing document instead of failing.
- The webhook writes `Completed` again on every redelivery, which refreshes
  `updated_at`. Redelivery therefore keeps every status, but it is not a no-op
  (`Payments.RedeliveryKeepsStatus`).
- No transition is ever refused. The store accepts any payment status
  (`Payments.StoreAcceptsAnyPaymentStatus`). Payments stay paid only because the
  webhook writes nothing but `Completed` (`Payments.PaidStaysPaid`).
- The admin endpoint accepts any order status, going back to Not Started
  included (`Manage.AnyStatusAccepted`).

Everything after the codec models the corrected program. As written, the
program cannot store or read back any order:

- `_order_to_dict` writes neither `buyer_email` nor `buyer_phone`, and
  `_dict_to_order` passes neither to `Order(...)`. Decoding therefore fails on
  every document (`Firestore.DictToOrderAsWrittenAlwaysFails`). `get_order`,
  both status updates and `get_all_orders` raise on every stored document.
- `submit_order` passes neither contact field either, so it answers 500 to
  every valid submission and stores nothing
  (`Orders.SubmitOrderAsWrittenAlwaysFails`).

Both defects are listed under "## Findings", each with its corrected
definition. The adapter, the handlers and the lemmas about them use the
corrected codec (`Firestore.OrderToDict`, `Firestore.DictToOrder`) and the
corrected submission (`Orders.SubmitOrderOutcome`).

The collection is consistent with the store when it holds exactly the
corrected encoding of each stored order, filed under the order's own id
(`Firestore.Collection.Valid`). Every writing method keeps that consistency.
Most handler contracts are stated over the store and hold on a consistent
collection. Some contracts are stated over the documents themselves and hold
on any collection of documents whose fields have the types the program itself
writes (text, timestamps, None, lists and maps), including one holding such
documents another program wrote:

- the stream and the listing (`Firestore.FirestoreAdapter.StreamOrders`,
  `Firestore.FirestoreAdapter.GetAllOrders`);
- the webhook (`Payments.WebhookOnDocs`). It swallows a ValueError raised while
  recording a payment, and any other exception is a 500.

## Model

| member | source | states |
|---|---|---|
| Schemas.BouquetSizeOf | src/blumelein_server/models/schemas.py:11-15 | `BouquetSize(text)` finds a member exactly when some member's value is `text`, and then that member |
| Schemas.PaymentStatusOf | src/blumelein_server/models/schemas.py:18-21 | the same lookup for PaymentStatus: "Incomplete", "Completed" |
| Schemas.OrderStatusOf | src/blumelein_server/models/schemas.py:24-28 | the same lookup for OrderStatus: "Not Started", "In Progress", "Completed" |
| Schemas.EnumValuesDistinct | src/blumelein_server/models/schemas.py:11-28 | within each enum, distinct members have distinct values, so decoding a value is the inverse of `.value` |
| Schemas.BuildItem | src/blumelein_server/models/schemas.py:32-64 | an Item is built exactly when `main_colours` is non-empty and `comments` is absent or at most 500 characters; the error names `main_colours` exactly when there are too few colours |
| Schemas.NewItem | src/blumelein_server/models/schemas.py:61-64 | an Item is its ItemCreate fields plus the given `item_id` and `created_at`; it is built exactly when the ItemCreate is valid |
| Schemas.OrderCreateErrors | src/blumelein_server/models/schemas.py:70-100 | the list of refused fields is empty exactly when the body is valid (at least one valid item, name 1..100, email 3..254, phone 1..20, address 1..300); email and phone are each listed exactly when their length is out of range |
| Schemas.BuildOrder | src/blumelein_server/models/schemas.py:121-138 | `Order(...)` succeeds exactly when both buyer email and phone are supplied; the statuses default to Incomplete and Not Started; every supplied field is kept |
| Schemas.BuildOrderWithoutContact | src/blumelein_server/models/schemas.py:126-127 | without email and phone, `Order(...)` fails naming exactly those two fields |
| Schemas.ToResponseInjective | src/blumelein_server/models/schemas.py:143-154 | an OrderResponse carries every field, so two orders with the same response are equal |
| Schemas.BuildPaymentIntent | src/blumelein_server/models/schemas.py:160-171 | a PaymentIntent is built exactly when `amount > 0`; `currency` defaults to "usd"; the error names `amount` |
| Uuids.UuidString | src/blumelein_server/database/firestore_adapter.py:57 | `str(uuid)` has 36 characters |
| Uuids.ParseUuid | src/blumelein_server/database/firestore_adapter.py:88 | `UUID(text)`, as at `item_id` (line 88), `order_id` (line 98) and the webhook metadata (src/blumelein_server/routers/payments.py:138): accepted exactly when, after dropping "urn:", "uuid:", surrounding braces and hyphens, 32 hexadecimal digits remain; the parsed UUID then prints as those digits in lower case, grouped 8-4-4-4-12 |
| Uuids.ParseUuidString | src/blumelein_server/database/firestore_adapter.py:98 | `UUID(str(u)) == u`: reading back a written id gives that id |
| Uuids.UuidStringInjective | src/blumelein_server/database/firestore_adapter.py:114 | distinct ids have distinct canonical forms, so document names never collide |
| Adapter.Created | src/blumelein_server/database/adapter.py:18-29 | after `create_order` the store files the order under its id and keeps every other order |
| Adapter.Found | src/blumelein_server/database/adapter.py:31-42 | `get_order` gives the order exactly when its id is stored, None otherwise |
| Adapter.PaymentStatusUpdated | src/blumelein_server/database/adapter.py:54-70 | None and no change for an absent id; otherwise only that order's payment status and update time change, and the updated order is returned |
| Adapter.OrderStatusUpdated | src/blumelein_server/database/adapter.py:72-88 | the same for the processing status |
| Adapter.ListingSize | src/blumelein_server/database/adapter.py:44-52 | a listing of all stored orders has exactly one entry per stored order |
| Firestore.DocumentId | src/blumelein_server/database/firestore_adapter.py:114 | the document name `str(order_id)` parses back to the order id |
| Firestore.OrderToDictAsWritten | src/blumelein_server/database/firestore_adapter.py:56-74 | the written document holds neither `buyer_email` nor `buyer_phone` |
| Firestore.OrderToDict | src/blumelein_server/database/firestore_adapter.py:56-74 | the corrected encoding holds `buyer_email` and `buyer_phone` as well |
| Firestore.ReadKwargs | src/blumelein_server/database/firestore_adapter.py:86-106 | the keywords of `Order(...)`, read field by field in the order Python evaluates them; email and phone are among them exactly when the corrected decoder reads them |
| Firestore.OrderFromKwargs | src/blumelein_server/database/firestore_adapter.py:97-106 | `Order(...)` raises a ValidationError exactly when a text or time field cannot be coerced or email or phone is not text, and the error names email, and phone, exactly when that field is missing or not text |
| Firestore.DictToOrderAsWritten | src/blumelein_server/database/firestore_adapter.py:76-106 | decoding as written fails on every document |
| Firestore.DictToOrder | src/blumelein_server/database/firestore_adapter.py:76-106 | the corrected decoder succeeds only on a document holding `buyer_email` and `buyer_phone` |
| Firestore.MissingNameBeforeBadStatus | src/blumelein_server/database/firestore_adapter.py:97-103 | keywords are evaluated in order, so a missing `buyer_full_name` raises KeyError, which is no ValueError, before an unknown `payment_status` could raise ValueError |
| Firestore.NonListItemsIsTypeError | src/blumelein_server/database/firestore_adapter.py:86-94 | an `items` field that cannot be iterated as a list of documents raises TypeError, not ValueError |
| Firestore.NonTextIdIsTypeError | src/blumelein_server/database/firestore_adapter.py:98 | an `order_id` that is not text raises TypeError or AttributeError, not ValueError |
| Firestore.ItemRoundTrip | src/blumelein_server/database/firestore_adapter.py:58-65 | decoding an encoded item gives back that item |
| Firestore.ItemsRoundTrip | src/blumelein_server/database/firestore_adapter.py:86-95 | decoding the encoded item list gives back the same items, in the same order and with the same length |
| Firestore.UuidValueRoundTrip | src/blumelein_server/database/firestore_adapter.py:88 | `UUID(...)` of a written id field gives back the id |
| Firestore.ArgsRoundTrip | src/blumelein_server/database/firestore_adapter.py:56-106 | decoding the document as written agrees with the order on every field it encodes: id, items, name, address, both statuses, both timestamps |
| Firestore.DictToOrderAsWrittenAlwaysFails | src/blumelein_server/database/firestore_adapter.py:97-106 | as written, decoding fails on every document; a readable one fails with the ValidationError for email and phone |
| Firestore.RoundTrip | src/blumelein_server/database/firestore_adapter.py:56-106 | with email and phone encoded and decoded too, decoding an encoded order gives back the order |
| Firestore.ConsistentSet | src/blumelein_server/database/firestore_adapter.py:113-115 | writing an order's document under `str(order_id)` keeps the collection in step with the store holding that order |
| Firestore.FetchedFound | src/blumelein_server/database/firestore_adapter.py:124-130 | on a consistent collection, fetching a document finds exactly what the store finds |
| Firestore.MergedPaymentStatus | src/blumelein_server/database/firestore_adapter.py:165-168 | merging the two updated fields into an order's document gives the document of the updated order |
| Firestore.MergedOrderStatus | src/blumelein_server/database/firestore_adapter.py:190-193 | the same for the processing status |
| Firestore.PaymentStatusRefines | src/blumelein_server/database/firestore_adapter.py:158-172 | the get, update and get again of a payment status does to a consistent collection what `Adapter.PaymentStatusUpdated` does to the store, and returns the same |
| Firestore.OrderStatusRefines | src/blumelein_server/database/firestore_adapter.py:183-197 | the same for the processing status |
| Firestore.SortNewestFirst | src/blumelein_server/database/firestore_adapter.py:145 | the sort is a permutation of its input |
| Firestore.SortIsNewestFirst | src/blumelein_server/database/firestore_adapter.py:145 | the sorted list has non-increasing `created_at` |
| Firestore.ListedDocuments | src/blumelein_server/database/firestore_adapter.py:137-147 | a listing of the documents holds, for every document, the order it decodes to, and nothing that is not some document decoded |
| Firestore.StreamedStore | src/blumelein_server/database/firestore_adapter.py:137-142 | on a consistent collection, decoding every document once lists each stored order exactly once |
| Firestore.AllListed | src/blumelein_server/database/firestore_adapter.py:145-147 | a list that enumerates the store, sorted newest first, is a listing of the store |
| Firestore.FirestoreAdapter.constructor | src/blumelein_server/database/firestore_adapter.py:21-30 | a new adapter keeps its project id and has no client yet |
| Firestore.FirestoreAdapter.Initialize | src/blumelein_server/database/firestore_adapter.py:32-38 | after `initialize()` the adapter has a client |
| Firestore.FirestoreAdapter.CreateOrder | src/blumelein_server/database/firestore_adapter.py:108-117 | RuntimeError and no write before `initialize()`; otherwise the encoded order is set under `str(order_id)`, the store gains the order, the call returns the input, and consistency is kept |
| Firestore.FirestoreAdapter.GetOrder | src/blumelein_server/database/firestore_adapter.py:119-130 | RuntimeError before `initialize()`; otherwise the decoded document or None; on a consistent collection exactly `Adapter.Found` |
| Firestore.FirestoreAdapter.UpdateFields | src/blumelein_server/database/firestore_adapter.py:158-172 | the fetch, `update` of two fields and fetch again, as one change of the collection |
| Firestore.FirestoreAdapter.UpdateOrderPaymentStatus | src/blumelein_server/database/firestore_adapter.py:149-172 | RuntimeError and no write before `initialize()`; otherwise the store changes as `Adapter.PaymentStatusUpdated` says, consistency is kept, and the result is the updated order or None |
| Firestore.FirestoreAdapter.UpdateOrderStatus | src/blumelein_server/database/firestore_adapter.py:174-197 | the same for the processing status |
| Firestore.FirestoreAdapter.StreamOrders | src/blumelein_server/database/firestore_adapter.py:137-142 | on any collection, the result decodes every document exactly once, in some order of the document names, one entry per document; an error is some document's decoding error; on a consistent collection it succeeds and enumerates the store |
| Firestore.FirestoreAdapter.GetAllOrders | src/blumelein_server/database/firestore_adapter.py:132-147 | RuntimeError before `initialize()`; otherwise, on any collection, a rearrangement of such a stream, one order per document, newest first, or some document's decoding error; on a consistent collection it succeeds with a listing of the store |
| Factory.ProjectId | src/blumelein_server/database/factory.py:40 | an empty `google_cloud_project` is passed as None, any other value as itself |
| Factory.DatabaseSlot.constructor | src/blumelein_server/database/factory.py:9 | the slot starts empty |
| Factory.DatabaseSlot.Get | src/blumelein_server/database/factory.py:12-26 | RuntimeError exactly when the slot is empty; otherwise the adapter it holds |
| Factory.DatabaseSlot.Initialize | src/blumelein_server/database/factory.py:29-46 | for "firestore", a new initialized adapter for the configured project fills the slot and is returned; any other type is a ValueError and the slot is untouched |
| Factory.DatabaseSlot.Close | src/blumelein_server/database/factory.py:49-55 | the slot is empty afterwards, whether or not it held an adapter |
| Factory.BackendOf | src/blumelein_server/database/factory.py:22-26 | a handler finds the slot empty, holding an adapter without a client, or ready |
| Config.Split | src/blumelein_server/config.py:43 | `split(",")` gives at least one piece |
| Config.SplitCount | src/blumelein_server/config.py:43 | there is one piece more than there are commas |
| Config.SplitNoSeparator | src/blumelein_server/config.py:43 | no piece contains a comma |
| Config.JoinSplit | src/blumelein_server/config.py:43 | joining the pieces with commas gives back the text |
| Config.SplitJoin | src/blumelein_server/config.py:43 | splitting comma-free pieces joined by commas gives back the pieces |
| Config.Strip | src/blumelein_server/config.py:45 | `strip()` gives the middle of the text after its leading whitespace, only whitespace follows it, and it neither begins nor ends with whitespace |
| Config.StripUnchanged | src/blumelein_server/config.py:45 | a text that neither begins nor ends with whitespace is its own strip |
| Config.CorsOriginsList | src/blumelein_server/config.py:40-45 | one origin per comma-separated piece, one more than there are commas; origin i is piece i stripped; no origin holds a comma or begins or ends with whitespace |
| Config.DefaultOrigins | src/blumelein_server/config.py:35 | the settings' default `allowed_origins` yields its five origins, in order and unaltered |
| Payments.IntentRequestFor | src/blumelein_server/routers/payments.py:60-69 | the intent asks for the request's amount and currency with automatic payment methods, and its metadata `order_id` parses back to the order |
| Payments.UnknownOrderNotFound | src/blumelein_server/routers/payments.py:43-49 | an unknown order is a 404, whatever Stripe would answer |
| Payments.PaidOrderRefused | src/blumelein_server/routers/payments.py:51-56 | a paid order is a 400 "Order has already been paid", whatever Stripe would answer |
| Payments.UnpaidOrderCharged | src/blumelein_server/routers/payments.py:58-82 | otherwise Stripe is asked with the metadata `order_id = str(order_id)`, and the reply is 201 with the intent, or 400 "Stripe error: ..." |
| Payments.NonPositiveAmountRefused | src/blumelein_server/models/schemas.py:163-167 | an amount of zero or less is a 422 before the store or Stripe is consulted |
| Payments.CreatePaymentIntentOutcome | src/blumelein_server/routers/payments.py:29-82 | a 201 only for a positive amount on a ready backend, for a stored unpaid order, when Stripe created the intent; the reply carries that intent's client secret and id |
| Payments.CreatePaymentIntent | src/blumelein_server/routers/payments.py:29-82 | the handler answers what `CreatePaymentIntentOutcome` answers and changes no state |
| Payments.PaidOrderId | src/blumelein_server/routers/payments.py:132-138 | an event names an order exactly when it is `payment_intent.succeeded` and its metadata holds an `order_id` that parses as a UUID |
| Payments.UnsignedRefused | src/blumelein_server/routers/payments.py:104-108 | a missing or empty signature is a 400 before anything is verified or stored |
| Payments.UnverifiedRefused | src/blumelein_server/routers/payments.py:112-129 | an invalid payload or signature is a 400 and the store is unchanged |
| Payments.WebhookWrites | src/blumelein_server/routers/payments.py:131-150 | the store changes only for a verified succeeded event naming an order, and then exactly as an update to Completed |
| Payments.VerifiedAcknowledged | src/blumelein_server/routers/payments.py:136-152 | every verified event is answered 200 "success", unless it names an order while no adapter is ready |
| Payments.WebhookOnlyCompletes | src/blumelein_server/routers/payments.py:140-143 | no webhook call writes a status other than Completed, or adds or removes an order |
| Payments.PaidStaysPaid | src/blumelein_server/routers/payments.py:140-143 | once paid, an order stays stored and paid under any sequence of webhook deliveries |
| Payments.RedeliveryKeepsStatus | src/blumelein_server/routers/payments.py:132-150 | delivering the same event again changes no status; only `updated_at` may move |
| Payments.IntentPaymentCompletesOrder | src/blumelein_server/routers/payments.py:132-143 | a succeeded event carrying the metadata of an intent this server opened marks that order Completed |
| Payments.StoreAcceptsAnyPaymentStatus | src/blumelein_server/database/firestore_adapter.py:165-168 | the store itself lets a paid order go back to Incomplete |
| Payments.WebhookOutcome | src/blumelein_server/routers/payments.py:91-152 | on the store: every refusal leaves the store unchanged, and every success is 200 "success" |
| Payments.WebhookOnDocs | src/blumelein_server/routers/payments.py:91-152 | on any collection: documents change only while recording a verified succeeded event that names an order on a ready backend; only a 500 may follow a write; every success is 200 "success" |
| Payments.WebhookAnswersByErrorKind | src/blumelein_server/routers/payments.py:137-150 | recording merges Completed into the order's document; the answer is a 500 exactly when decoding the merged document raises something other than a ValueError, and 200 "success" otherwise |
| Payments.WebhookOnDocsRefines | src/blumelein_server/routers/payments.py:91-152 | on a consistent collection, the webhook over documents answers what `WebhookOutcome` answers and keeps the collection consistent with its new store |
| Payments.Webhook | src/blumelein_server/routers/payments.py:91-152 | the handler answers and writes what `WebhookOnDocs` says on any collection, and what `WebhookOutcome` says on a consistent one, keeping it consistent |
| Manage.VerifyAdminKey | src/blumelein_server/routers/manage.py:21-32 | a key other than the admin key is a 403 "Invalid API key"; the admin key is returned unchanged |
| Manage.ToResponses | src/blumelein_server/routers/manage.py:52 | one response per order, in the same order |
| Manage.ListAllOrdersOutcome | src/blumelein_server/routers/manage.py:42-52 | a reply exactly with the admin key on a ready backend, 200 with one response per listed order |
| Manage.ListAllOrdersAnswersEveryOrder | src/blumelein_server/routers/manage.py:42-52 | with the admin key, the answer holds one response per stored order; each is a stored order's response; newest first; none twice |
| Manage.ListAllOrders | src/blumelein_server/routers/manage.py:42-52 | the handler answers what `ListAllOrdersOutcome` answers for the adapter's listing, which lists every stored order |
| Manage.GetOrderDetailsOutcome | src/blumelein_server/routers/manage.py:104-120 | 403 without the admin key; otherwise the same lookup as the public endpoint |
| Manage.GetOrderDetails | src/blumelein_server/routers/manage.py:104-120 | the handler answers what `GetOrderDetailsOutcome` answers and changes no state |
| Manage.UpdateOrderProcessingStatusOutcome | src/blumelein_server/routers/manage.py:62-94 | the store changes only with the admin key, a known status, a ready backend and a stored order; the set of orders never changes |
| Manage.StatusChangeOutcome | src/blumelein_server/routers/manage.py:77-94 | a reply exactly when the order is stored, carrying the new status and the update time; the set of orders never changes |
| Manage.UpdateAnswer | src/blumelein_server/routers/manage.py:88-94 | the 500 "Failed to update order status" exactly when the update returns nothing, otherwise 200 with the updated order's response |
| Manage.WrongKeyChangesNothing | src/blumelein_server/routers/manage.py:55-62 | without the admin key a status update is a 403 and the store is unchanged, whatever the body says |
| Manage.UnknownStatusRefused | src/blumelein_server/models/schemas.py:195-197 | text that names no order status is a 422 for `order_status`, and nothing changes |
| Manage.UnknownOrderUntouched | src/blumelein_server/routers/manage.py:76-83 | an absent order is a 404 and the store is unchanged |
| Manage.AnyStatusAccepted | src/blumelein_server/routers/manage.py:85-94 | any target status, Not Started included, is written to a stored order and returned; the "Failed to update" 500 is never reached |
| Manage.UpdateIsLocal | src/blumelein_server/routers/manage.py:62-94 | no status update touches another order, a payment status, or the set of orders |
| Manage.UpdateOrderProcessingStatus | src/blumelein_server/routers/manage.py:62-94 | the handler answers and writes what `UpdateOrderProcessingStatusOutcome` says |
| Manage.UpdateAndAnswer | src/blumelein_server/routers/manage.py:85-94 | on a connected adapter over a consistent collection, the update writes what `Adapter.OrderStatusUpdated` says, keeps the collection consistent and answers what `UpdateAnswer` says about its result |
| Manage.ChangeStatus | src/blumelein_server/routers/manage.py:77-94 | on a connected adapter over a consistent collection, the lookup and the update answer and write what `StatusChangeOutcome` says and keep the collection consistent; a disconnected adapter is a 500 and writes nothing |
| Orders.NewItems | src/blumelein_server/routers/orders.py:40 | one Item per ItemCreate, in the same order, with the same colours, size and comments |
| Orders.NewItemsRebuilt | src/blumelein_server/routers/orders.py:40 | each new item is what `Item(**item.model_dump())` builds, and it is valid |
| Orders.OrderArgsAsWritten | src/blumelein_server/routers/orders.py:43-47 | `submit_order` passes neither buyer email nor buyer phone to `Order(...)` |
| Orders.SubmitOrderAsWritten | src/blumelein_server/routers/orders.py:28-53 | as written: a refusal leaves the store unchanged, and a success needs `Order(...)` to accept the arguments without email and phone |
| Orders.SubmitOrderAsWrittenAlwaysFails | src/blumelein_server/routers/orders.py:43-47 | as written, no submission is stored; every valid one is a 500 |
| Orders.OrderArgsOf | src/blumelein_server/routers/orders.py:43-47 | the corrected call passes the buyer's email and phone |
| Orders.NewOrder | src/blumelein_server/routers/orders.py:40-47 | the new order copies name, email, phone and address, holds the items one for one, takes the fresh id and times, starts Incomplete and Not Started, and is valid when the body is |
| Orders.SubmitOrderOutcome | src/blumelein_server/routers/orders.py:28-53 | corrected: a 201 exactly for a valid body on a ready backend, and then the new order is created in the store; a refusal leaves the store unchanged |
| Orders.InvalidSubmissionRefused | src/blumelein_server/routers/orders.py:28 | a refused body is a 422 naming at least one field, and nothing is stored |
| Orders.SubmissionStored | src/blumelein_server/routers/orders.py:49-53 | a valid submission is stored under its fresh id, nothing else changes, and the 201 reply echoes what was stored |
| Orders.SubmissionKeepsWellFormed | src/blumelein_server/routers/orders.py:49-53 | every order a submission stores is filed under its own id and is valid |
| Orders.SubmittedOrderReadable | src/blumelein_server/routers/orders.py:56-82 | a stored submission reads back by its id as the same response |
| Orders.GetOrderByIdOutcome | src/blumelein_server/routers/orders.py:73-82 | on a ready backend, a 404 exactly when the order is absent, otherwise 200 with the stored order; a 500 without a ready adapter |
| Orders.SubmitOrder | src/blumelein_server/routers/orders.py:28-53 | the handler answers and writes what `SubmitOrderOutcome` says |
| Orders.GetOrderById | src/blumelein_server/routers/orders.py:62-82 | the handler answers what `GetOrderByIdOutcome` answers and changes no state |

## Left out

- Network I/O, `async`/`await`, the `print` logging and `stripe.api_key`: the Firestore client is the `Collection` class, and Stripe is two function parameters.
- The read-then-update race inside the update methods: each call is one sequential step.
- `main.py`, the app construction, the CORS middleware and the health endpoints: framework glue.
- Environment and `.env` loading through pydantic-settings: settings values are parameters.
- The choice of Google Cloud project in `initialize()`: the project id is kept, but a client is one collection whatever the project.
- Uuids.ParseUuid: does not model the leniency of `int(text, 16)` towards surrounding whitespace, a sign, a `0x` prefix, underscores, or any Unicode decimal digit in place of 0-9 (32 ARABIC-INDIC DIGIT ZERO characters, U+0660, parse as the all-zero UUID in Python). Such text is refused here though Python may accept it. So where Python reads such a webhook `order_id` (src/blumelein_server/routers/payments.py:138) and marks that order paid, `Payments.PaidOrderId` names no order and nothing is written; a stored `order_id` or `item_id` of that kind (src/blumelein_server/database/firestore_adapter.py:88, 98) is a ValueError here where Python reads the document.
- The order in which Firestore streams documents: the model streams them in an arbitrary order, and nothing proved depends on it.
- Python's sort is stable; `Firestore.SortNewestFirst` keeps equal timestamps in input order, but no lemma states it.
- A missing `X-API-Key` header (a 403 from `APIKeyHeader`) is not distinguished from a wrong key.
- FastAPI's validation of the `order_id` path parameter: handlers take a parsed UUID.
- `PaymentIntent.order_id` in the payment request body (src/blumelein_server/models/schemas.py:162): pydantic refuses text that is no UUID with a 422, but `Payments.IntentBody` holds an already parsed `Uuid`, so that 422 is not modelled.
- A webhook event without `data.object`: for a `payment_intent.succeeded` event, `event["data"]["object"]` (src/blumelein_server/routers/payments.py:133) raises an unhandled KeyError, which is a 500. The model's event always carries its metadata, empty when absent, so that 500 is not modelled.
- Firestore.OrderFromKwargs: pydantic's lax coercion of ISO-8601 text such as "2024-05-01T10:00:00Z" to a `datetime` is not modelled; only a Firestore timestamp is a time, so such text, which Python accepts for `created_at` and `updated_at`, is refused here and `GetOrder`, `StreamOrders` and `GetAllOrders` answer an error where Python reads the order. `Firestore.ItemFromValues` treats an item's `created_at` the same way. Document fields holding integers, floats or booleans have no `Value` at all, so such documents are outside the model.
- Orders.GetOrderById: specified only on a consistent collection; on a document that fails to decode it is a 500, which no contract states.
- Manage.ListAllOrders: specified only on a consistent collection, for the same reason.
- Manage.GetOrderDetails: specified only on a consistent collection, for the same reason.
- Manage.UpdateOrderProcessingStatus: specified only on a consistent collection, for the same reason.
- Payments.CreatePaymentIntent: specified only on a consistent collection, for the same reason.
- Orders.SubmitOrder: its outcome is specified only on a consistent collection, which it keeps consistent.
- `uuid4` uniqueness: fresh ids are parameters, so a colliding id overwrites the stored order, as `create_order` does.

## Findings

| source | as written | input that shows it | evidently intended | confidence | as-written member | corrected member |
|---|---|---|---|---|---|---|
| src/blumelein_server/routers/orders.py:43-47 | `Order(...)` is called without `buyer_email` and `buyer_phone`, which the schema requires (src/blumelein_server/models/schemas.py:126-127) | any valid submission, e.g. one item of size M coloured red, with name, email, phone and address filled in | pass the submitted email and phone, store the order and answer 201 | not executed | Orders.SubmitOrderAsWrittenAlwaysFails | Orders.SubmissionStored |
| src/blumelein_server/database/firestore_adapter.py:56-74 | the codec neither writes nor reads `buyer_email` and `buyer_phone`, so `_dict_to_order` raises on every document | the document `_order_to_dict` writes for any order | encode and decode the contact fields too, so that reading back a written order gives that order | not executed | Firestore.DictToOrderAsWrittenAlwaysFails | Firestore.RoundTrip |
