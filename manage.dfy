/**
 * The management router: every endpoint first checks the X-API-Key header
 * against the configured admin key, then lists orders, shows one, or moves
 * one to a new processing status.
 */
module Manage {
  import opened Wrappers
  import opened Uuids
  import opened Schemas
  import opened Adapter
  import opened Http
  import opened Config
  import opened Firestore
  import opened Factory
  import opened Orders

  const INVALID_API_KEY: string := "Invalid API key"
  const UPDATE_FAILED: string := "Failed to update order status"
  /** The field a status update body must carry. */
  const ORDER_STATUS_FIELD: string := "order_status"

  /** `verify_admin_key`: the key itself when it is the admin key, 403 otherwise. */
  function VerifyAdminKey(apiKey: string, adminApiKey: string): (r: Result<string, HttpError>)
    ensures r.Ok? <==> apiKey == adminApiKey
    ensures r.Ok? ==> r.value == apiKey
    ensures r.Err? ==> r.error == HttpException(FORBIDDEN, INVALID_API_KEY) && r.error.Status() == FORBIDDEN
  {
    if apiKey != adminApiKey then Err(HttpException(FORBIDDEN, INVALID_API_KEY)) else Ok(apiKey)
  }

  /** `[OrderResponse(**order.model_dump()) for order in orders]`: one response per order, in order. */
  function ToResponses(orders: seq<Order>): (r: seq<OrderResponse>)
    ensures |r| == |orders|
    ensures forall i :: 0 <= i < |r| ==> r[i] == ToResponse(orders[i])
  {
    seq(|orders|, i requires 0 <= i < |orders| => ToResponse(orders[i]))
  }

  /** `list_all_orders`, given the listing the adapter returns. */
  function ListAllOrdersOutcome(apiKey: string, adminApiKey: string, backend: Backend, listing: seq<Order>)
    : (r: Result<Reply<seq<OrderResponse>>, HttpError>)
    ensures r.Ok? <==> apiKey == adminApiKey && backend == Ready
    ensures r.Ok? ==> r.value.status == OK && |r.value.body| == |listing|
  {
    if apiKey != adminApiKey then Err(HttpException(FORBIDDEN, INVALID_API_KEY))
    else if backend != Ready then Err(Internal)
    else Ok(Reply(OK, ToResponses(listing)))
  }

  /**
   * With the admin key the answer holds one response per stored order, each
   * the response of a stored order, newest first, none twice.
   */
  lemma ListAllOrdersAnswersEveryOrder(store: Store, listing: seq<Order>, apiKey: string)
    requires WellFormed(store) && IsListing(store, listing)
    ensures var r := ListAllOrdersOutcome(apiKey, apiKey, Ready, listing);
      && r.Ok? && r.value.status == OK
      && |r.value.body| == |store|
      && (forall u | u in store :: ToResponse(store[u]) in r.value.body)
      && (forall i :: 0 <= i < |r.value.body| ==> exists u | u in store :: r.value.body[i] == ToResponse(store[u]))
      && (forall i, j :: 0 <= i < j < |r.value.body| ==> r.value.body[i].createdAt >= r.value.body[j].createdAt)
      && (forall i, j :: 0 <= i < j < |r.value.body| ==> r.value.body[i] != r.value.body[j])
  {
    ListingSize(store, listing);
    var body := ToResponses(listing);
    forall u | u in store ensures ToResponse(store[u]) in body {
      assert Stored(store, store[u]);
      var i :| 0 <= i < |listing| && listing[i] == store[u];
      assert body[i] == ToResponse(store[u]);
    }
    forall i | 0 <= i < |body| ensures exists u | u in store :: body[i] == ToResponse(store[u]) {
      assert listing[i] in listing;
      assert Stored(store, listing[i]);
    }
    forall i, j | 0 <= i < j < |body| ensures body[i] != body[j] {
      if body[i] == body[j] {
        ToResponseInjective(listing[i], listing[j]);
        DuplicateCounted(listing, i, j);
        assert false;
      }
    }
  }

  /** A value found at two positions occurs at least twice. */
  lemma DuplicateCounted<T>(s: seq<T>, i: nat, j: nat)
    requires i < j < |s| && s[i] == s[j]
    ensures multiset(s)[s[i]] >= 2
  {
    assert s == s[..i] + [s[i]] + s[i + 1..j] + [s[j]] + s[j + 1..];
    assert multiset(s) == multiset(s[..i]) + multiset{s[i]} + multiset(s[i + 1..j]) + multiset{s[j]} + multiset(s[j + 1..]);
  }

  /** `get_order_details`: the admin's view of one order, the same lookup as the public one. */
  function GetOrderDetailsOutcome(apiKey: string, adminApiKey: string, backend: Backend, store: Store, orderId: Uuid)
    : (r: Result<Reply<OrderResponse>, HttpError>)
    ensures apiKey != adminApiKey ==> r == Err(HttpException(FORBIDDEN, INVALID_API_KEY))
    ensures apiKey == adminApiKey ==> r == GetOrderByIdOutcome(backend, store, orderId)
  {
    match VerifyAdminKey(apiKey, adminApiKey)
    case Err(e) => Err(e)
    case Ok(_) => GetOrderByIdOutcome(backend, store, orderId)
  }

  /**
   * `update_order_processing_status`, over the raw `order_status` text of the
   * body: the key first, then the body, then the lookup, then the update.
   */
  function UpdateOrderProcessingStatusOutcome(apiKey: string, adminApiKey: string, backend: Backend, store: Store,
                                              orderId: Uuid, statusText: string, now: int): (o: Outcome<OrderResponse>)
    ensures o.store != store ==> apiKey == adminApiKey && OrderStatusOf(statusText).Some? && backend == Ready && orderId in store
    ensures o.store.Keys == store.Keys
  {
    if apiKey != adminApiKey then Outcome(store, Err(HttpException(FORBIDDEN, INVALID_API_KEY)))
    else match OrderStatusOf(statusText)
      case None => Outcome(store, Err(Unprocessable([ORDER_STATUS_FIELD])))
      case Some(status) =>
        if backend != Ready then Outcome(store, Err(Internal))
        else StatusChangeOutcome(store, orderId, status, now)
  }

  /** The lookup and the update once the key and the body have passed and the database is ready. */
  function StatusChangeOutcome(store: Store, orderId: Uuid, status: OrderStatus, now: int): (o: Outcome<OrderResponse>)
    ensures o.response.Ok? <==> orderId in store
    ensures o.store.Keys == store.Keys
    ensures o.response.Ok? ==> o.response.value.body.orderStatus == status && o.response.value.body.updatedAt == now
  {
    match Found(store, orderId)
    case None => Outcome(store, Err(OrderNotFound(orderId)))
    case Some(_) =>
      var u := OrderStatusUpdated(store, orderId, status, now);
      Outcome(u.store, UpdateAnswer(u.result))
  }

  /** `if not updated_order: raise HTTPException(500, ...)`, else the updated order's response. */
  function UpdateAnswer(updated: Option<Order>): (r: Result<Reply<OrderResponse>, HttpError>)
    ensures r.Ok? <==> updated.Some?
    ensures r.Ok? ==> r.value == Reply(OK, ToResponse(updated.value))
    ensures r.Err? ==> r.error == HttpException(INTERNAL_SERVER_ERROR, UPDATE_FAILED)
  {
    match updated
    case None => Err(HttpException(INTERNAL_SERVER_ERROR, UPDATE_FAILED))
    case Some(order) => Ok(Reply(OK, ToResponse(order)))
  }

  /** Without the admin key nothing is changed, whatever the body says. */
  lemma WrongKeyChangesNothing(apiKey: string, adminApiKey: string, backend: Backend, store: Store,
                               orderId: Uuid, statusText: string, now: int)
    requires apiKey != adminApiKey
    ensures UpdateOrderProcessingStatusOutcome(apiKey, adminApiKey, backend, store, orderId, statusText, now)
         == Outcome(store, Err(HttpException(FORBIDDEN, INVALID_API_KEY)))
  {
  }

  /** Text that names no status is a 422 and nothing is changed. */
  lemma UnknownStatusRefused(apiKey: string, backend: Backend, store: Store, orderId: Uuid, statusText: string, now: int)
    requires forall s: OrderStatus :: s.Value() != statusText
    ensures UpdateOrderProcessingStatusOutcome(apiKey, apiKey, backend, store, orderId, statusText, now)
         == Outcome(store, Err(Unprocessable([ORDER_STATUS_FIELD])))
  {
  }

  /** An unknown order is a 404 and nothing is changed. */
  lemma UnknownOrderUntouched(apiKey: string, store: Store, orderId: Uuid, status: OrderStatus, now: int)
    requires orderId !in store
    ensures UpdateOrderProcessingStatusOutcome(apiKey, apiKey, Ready, store, orderId, status.Value(), now)
         == Outcome(store, Err(OrderNotFound(orderId)))
  {
  }

  /**
   * Any target status is accepted for a stored order, going back to
   * Not Started included: only that order's status and update time change,
   * the reply shows it, and the "Failed to update" 500 is never reached.
   */
  lemma AnyStatusAccepted(apiKey: string, store: Store, orderId: Uuid, status: OrderStatus, now: int)
    requires orderId in store
    ensures var o := UpdateOrderProcessingStatusOutcome(apiKey, apiKey, Ready, store, orderId, status.Value(), now);
      var updated := store[orderId].(orderStatus := status, updatedAt := now);
      && o.store == store[orderId := updated]
      && o.response == Ok(Reply(OK, ToResponse(updated)))
  {
  }

  /** No status update touches another order, the payment status, or the set of orders. */
  lemma UpdateIsLocal(apiKey: string, adminApiKey: string, backend: Backend, store: Store,
                      orderId: Uuid, statusText: string, now: int)
    ensures var o := UpdateOrderProcessingStatusOutcome(apiKey, adminApiKey, backend, store, orderId, statusText, now);
      && o.store.Keys == store.Keys
      && (forall u | u in store && u != orderId :: o.store[u] == store[u])
      && (forall u | u in store :: o.store[u].paymentStatus == store[u].paymentStatus)
  {
  }

  // ----- the handlers over the database slot -----

  /**
   * `list_all_orders`. The ghost result `listing` is what the adapter
   * returned: with the admin key and a ready backend, every stored order.
   */
  method ListAllOrders(slot: DatabaseSlot, apiKey: string, settings: Settings)
    returns (r: Result<Reply<seq<OrderResponse>>, HttpError>, ghost listing: seq<Order>)
    requires slot.Valid()
    ensures slot.remote.Valid() ==> r == ListAllOrdersOutcome(apiKey, settings.adminApiKey, BackendOf(slot), listing)
    ensures slot.remote.Valid() && apiKey == settings.adminApiKey && BackendOf(slot) == Ready ==>
      IsListing(slot.remote.orders, listing)
  {
    listing := [];
    var checked := VerifyAdminKey(apiKey, settings.adminApiKey);
    if checked.Err? {
      return checked.PropagateFailure(), listing;
    }
    var got := slot.Get();
    if got.Err? {
      return Err(Internal), listing;
    }
    var all := got.value.GetAllOrders();
    match all {
      case Err(_) =>
        r := Err(Internal);
      case Ok(orders) =>
        listing := orders;
        r := Ok(Reply(OK, ToResponses(orders)));
    }
  }

  /** `get_order_details`: reads the store, never changes it. */
  method GetOrderDetails(slot: DatabaseSlot, apiKey: string, settings: Settings, orderId: Uuid)
    returns (r: Result<Reply<OrderResponse>, HttpError>)
    requires slot.Valid()
    ensures slot.remote.Valid() ==>
      r == GetOrderDetailsOutcome(apiKey, settings.adminApiKey, BackendOf(slot), slot.remote.orders, orderId)
  {
    var checked := VerifyAdminKey(apiKey, settings.adminApiKey);
    if checked.Err? {
      return checked.PropagateFailure();
    }
    r := GetOrderById(slot, orderId);
  }

  /** `update_order_processing_status`. */
  method UpdateOrderProcessingStatus(slot: DatabaseSlot, apiKey: string, settings: Settings, orderId: Uuid,
                                     statusText: string, now: int)
    returns (r: Result<Reply<OrderResponse>, HttpError>)
    requires slot.Valid()
    modifies slot.remote
    ensures old(slot.remote.Valid()) ==>
      var o := UpdateOrderProcessingStatusOutcome(apiKey, settings.adminApiKey, old(BackendOf(slot)),
                                                  old(slot.remote.orders), orderId, statusText, now);
      r == o.response && slot.remote.orders == o.store && slot.remote.Valid()
  {
    var checked := VerifyAdminKey(apiKey, settings.adminApiKey);
    if checked.Err? {
      return checked.PropagateFailure();
    }
    var status := OrderStatusOf(statusText);
    if status.None? {
      return Err(Unprocessable([ORDER_STATUS_FIELD]));
    }
    var got := slot.Get();
    if got.Err? {
      return Err(Internal);
    }
    r := ChangeStatus(got.value, orderId, status.value, now);
  }

  /** The lookup and the update on the adapter the slot holds. */
  method ChangeStatus(db: FirestoreAdapter, orderId: Uuid, status: OrderStatus, now: int)
    returns (r: Result<Reply<OrderResponse>, HttpError>)
    modifies db.remote
    ensures !old(db.connected) ==> r == Err(Internal) && db.remote.docs == old(db.remote.docs) && db.remote.orders == old(db.remote.orders)
    ensures old(db.connected) && old(db.remote.Valid()) ==>
      var o := StatusChangeOutcome(old(db.remote.orders), orderId, status, now);
      r == o.response && db.remote.orders == o.store && db.remote.Valid()
  {
    var found := db.GetOrder(orderId);
    match found {
      case Err(_) =>
        r := Err(Internal);
      case Ok(None) =>
        r := Err(OrderNotFound(orderId));
      case Ok(Some(_)) =>
        r := UpdateAndAnswer(db, orderId, status, now);
    }
  }

  /** `update_order_status` on a found order, and the reply built from what it returns. */
  method UpdateAndAnswer(db: FirestoreAdapter, orderId: Uuid, status: OrderStatus, now: int)
    returns (r: Result<Reply<OrderResponse>, HttpError>)
    modifies db.remote
    ensures !old(db.connected) ==> r == Err(Internal) && db.remote.docs == old(db.remote.docs) && db.remote.orders == old(db.remote.orders)
    ensures old(db.connected) && old(db.remote.Valid()) ==>
      var u := OrderStatusUpdated(old(db.remote.orders), orderId, status, now);
      r == UpdateAnswer(u.result) && db.remote.orders == u.store && db.remote.Valid()
  {
    var updated := db.UpdateOrderStatus(orderId, status, now);
    match updated {
      case Err(_) =>
        r := Err(Internal);
      case Ok(result) =>
        r := UpdateAnswer(result);
    }
  }
}
