/**
 * The public orders router: submitting an order and reading one back by id.
 * The identifiers and timestamps pydantic's default factories would draw
 * (uuid4, utcnow) are parameters.
 */
module Orders {
  import opened Wrappers
  import opened Uuids
  import opened Schemas
  import opened Adapter
  import opened Http
  import opened Firestore
  import opened Factory

  /** What the default factories hand out during one submission. */
  datatype Fresh = Fresh(itemIds: nat -> Uuid, itemTimes: nat -> int, orderId: Uuid, createdAt: int, updatedAt: int)

  /** `[Item(**item.model_dump()) for item in order_data.items]`: each item gets a fresh id and time. */
  function NewItems(items: seq<ItemCreate>, drawn: Fresh): (r: seq<Item>)
    ensures |r| == |items|
    ensures forall i :: 0 <= i < |r| ==>
      r[i].Base() == items[i] && r[i].itemId == drawn.itemIds(i) && r[i].createdAt == drawn.itemTimes(i)
  {
    seq(|items|, i requires 0 <= i < |items| =>
      Item(drawn.itemIds(i), items[i].mainColours, items[i].size, items[i].comments, drawn.itemTimes(i)))
  }

  /** Items that passed validation as submitted pass it again as full items. */
  lemma NewItemsRebuilt(items: seq<ItemCreate>, drawn: Fresh)
    requires forall i :: 0 <= i < |items| ==> ValidItemCreate(items[i])
    ensures forall i :: 0 <= i < |items| ==>
      NewItem(items[i], drawn.itemIds(i), drawn.itemTimes(i)) == Ok(NewItems(items, drawn)[i])
    ensures forall i :: 0 <= i < |items| ==> ValidItem(NewItems(items, drawn)[i])
  {
    var r := NewItems(items, drawn);
    forall i | 0 <= i < |items|
      ensures NewItem(items[i], drawn.itemIds(i), drawn.itemTimes(i)) == Ok(r[i])
    {
      var built := NewItem(items[i], drawn.itemIds(i), drawn.itemTimes(i));
      assert built.value.Base() == r[i].Base();
    }
  }

  /** The `Order(...)` keywords `submit_order` passes: no buyer email and no buyer phone. */
  function OrderArgsAsWritten(body: OrderCreate, drawn: Fresh): (args: OrderArgs)
    ensures args.buyerEmail.None? && args.buyerPhone.None?
  {
    OrderArgs(drawn.orderId, NewItems(body.items, drawn), body.buyerFullName, None, None, body.deliveryAddress,
      None, None, drawn.createdAt, drawn.updatedAt)
  }

  /**
   * `submit_order` as written: a body pydantic refuses is a 422; otherwise
   * building the Order raises, and the unhandled ValidationError is a 500
   * before the database is asked for.
   */
  function SubmitOrderAsWritten(backend: Backend, store: Store, body: OrderCreate, drawn: Fresh): (o: Outcome<OrderResponse>)
    ensures o.response.Err? ==> o.store == store
    ensures o.response.Ok? ==> ValidOrderCreate(body) && backend == Ready && BuildOrder(OrderArgsAsWritten(body, drawn)).Ok?
  {
    if !ValidOrderCreate(body) then Outcome(store, Err(Unprocessable(OrderCreateErrors(body))))
    else match BuildOrder(OrderArgsAsWritten(body, drawn))
      case Err(_) => Outcome(store, Err(Internal))
      case Ok(order) =>
        if backend != Ready then Outcome(store, Err(Internal))
        else Outcome(Created(store, order), Ok(Reply(CREATED, ToResponse(order))))
  }

  /** As written, no submission is ever stored: every valid one fails with 500 and leaves the store alone. */
  lemma SubmitOrderAsWrittenAlwaysFails(backend: Backend, store: Store, body: OrderCreate, drawn: Fresh)
    ensures SubmitOrderAsWritten(backend, store, body, drawn).store == store
    ensures ValidOrderCreate(body) ==> SubmitOrderAsWritten(backend, store, body, drawn).response == Err(Internal)
  {
    if ValidOrderCreate(body) {
      BuildOrderWithoutContact(OrderArgsAsWritten(body, drawn));
    }
  }

  /** The `Order(...)` keywords with the buyer's email and phone passed on as well. */
  function OrderArgsOf(body: OrderCreate, drawn: Fresh): (args: OrderArgs)
    ensures args.buyerEmail == Some(body.buyerEmail) && args.buyerPhone == Some(body.buyerPhone)
  {
    OrderArgs(drawn.orderId, NewItems(body.items, drawn), body.buyerFullName, Some(body.buyerEmail),
      Some(body.buyerPhone), body.deliveryAddress, None, None, drawn.createdAt, drawn.updatedAt)
  }

  /**
   * The order a submission creates: the submitted fields, the items one for
   * one, a fresh id and timestamps, not paid and not started.
   */
  function NewOrder(body: OrderCreate, drawn: Fresh): (order: Order)
    ensures order.orderId == drawn.orderId && order.createdAt == drawn.createdAt && order.updatedAt == drawn.updatedAt
    ensures order.buyerFullName == body.buyerFullName && order.buyerEmail == body.buyerEmail
    ensures order.buyerPhone == body.buyerPhone && order.deliveryAddress == body.deliveryAddress
    ensures order.paymentStatus == Incomplete && order.orderStatus == NotStarted
    ensures |order.items| == |body.items|
    ensures forall i :: 0 <= i < |order.items| ==> order.items[i].Base() == body.items[i]
    ensures ValidOrderCreate(body) ==> ValidOrder(order)
  {
    var built := BuildOrder(OrderArgsOf(body, drawn));
    if ValidOrderCreate(body) then
      NewItemsRebuilt(body.items, drawn);
      built.value
    else
      built.value
  }

  /** `submit_order` with the buyer's contact passed on: a valid body is stored and echoed with 201. */
  function SubmitOrderOutcome(backend: Backend, store: Store, body: OrderCreate, drawn: Fresh): (o: Outcome<OrderResponse>)
    ensures o.response.Ok? <==> ValidOrderCreate(body) && backend == Ready
    ensures o.response.Err? ==> o.store == store
    ensures o.response.Ok? ==> o.store == Created(store, NewOrder(body, drawn)) && o.response.value.status == CREATED
  {
    if !ValidOrderCreate(body) then Outcome(store, Err(Unprocessable(OrderCreateErrors(body))))
    else
      var order := NewOrder(body, drawn);
      if backend != Ready then Outcome(store, Err(Internal))
      else Outcome(Created(store, order), Ok(Reply(CREATED, ToResponse(order))))
  }

  /** A refused body is a 422 naming the offending fields, and nothing is stored. */
  lemma InvalidSubmissionRefused(backend: Backend, store: Store, body: OrderCreate, drawn: Fresh)
    requires !ValidOrderCreate(body)
    ensures var o := SubmitOrderOutcome(backend, store, body, drawn);
      && o.store == store
      && o.response.Err? && o.response.error.Status() == UNPROCESSABLE_ENTITY
      && o.response.error.fields != []
  {
  }

  /**
   * On a ready backend a valid submission is stored under its fresh id,
   * nothing else in the store changes, and the reply echoes what was stored.
   */
  lemma SubmissionStored(store: Store, body: OrderCreate, drawn: Fresh)
    requires ValidOrderCreate(body)
    ensures var o := SubmitOrderOutcome(Ready, store, body, drawn);
      && o.response.Ok? && o.response.value.status == CREATED
      && drawn.orderId in o.store && o.response.value.body == ToResponse(o.store[drawn.orderId])
      && o.store[drawn.orderId] == NewOrder(body, drawn)
      && o.store.Keys == store.Keys + {drawn.orderId}
      && (forall u | u in store && u != drawn.orderId :: o.store[u] == store[u])
  {
  }

  /** Every order a submission stores keeps the store well formed. */
  lemma SubmissionKeepsWellFormed(backend: Backend, store: Store, body: OrderCreate, drawn: Fresh)
    requires WellFormed(store)
    ensures WellFormed(SubmitOrderOutcome(backend, store, body, drawn).store)
  {
  }

  /** A stored submission can be read back unchanged by its id. */
  lemma SubmittedOrderReadable(store: Store, body: OrderCreate, drawn: Fresh)
    requires ValidOrderCreate(body)
    ensures var o := SubmitOrderOutcome(Ready, store, body, drawn);
      GetOrderByIdOutcome(Ready, o.store, drawn.orderId) == Ok(Reply(OK, o.response.value.body))
  {
  }

  /** `get_order_by_id` and every other lookup of one order: 404 when absent, the order otherwise. */
  function GetOrderByIdOutcome(backend: Backend, store: Store, orderId: Uuid): (r: Result<Reply<OrderResponse>, HttpError>)
    ensures backend == Ready ==> (r.Ok? <==> orderId in store)
    ensures backend == Ready && r.Ok? ==> r == Ok(Reply(OK, ToResponse(store[orderId])))
    ensures backend == Ready && r.Err? ==> r.error == OrderNotFound(orderId) && r.error.Status() == NOT_FOUND
    ensures backend != Ready ==> r == Err(Internal)
  {
    if backend != Ready then Err(Internal)
    else match Found(store, orderId)
      case None => Err(OrderNotFound(orderId))
      case Some(order) => Ok(Reply(OK, ToResponse(order)))
  }

  // ----- the handlers over the database slot -----

  /** `submit_order`, with the buyer's contact passed on. */
  method SubmitOrder(slot: DatabaseSlot, body: OrderCreate, drawn: Fresh)
    returns (r: Result<Reply<OrderResponse>, HttpError>)
    requires slot.Valid()
    modifies slot.remote
    ensures old(slot.remote.Valid()) ==>
      var o := SubmitOrderOutcome(old(BackendOf(slot)), old(slot.remote.orders), body, drawn);
      r == o.response && slot.remote.orders == o.store && slot.remote.Valid()
  {
    if !ValidOrderCreate(body) {
      return Err(Unprocessable(OrderCreateErrors(body)));
    }
    var order := NewOrder(body, drawn);
    var got := slot.Get();
    if got.Err? {
      return Err(Internal);
    }
    var created := got.value.CreateOrder(order);
    match created {
      case Err(_) =>
        r := Err(Internal);
      case Ok(stored) =>
        r := Ok(Reply(CREATED, ToResponse(stored)));
    }
  }

  /** `get_order_by_id`: reads the store, never changes it. */
  method GetOrderById(slot: DatabaseSlot, orderId: Uuid) returns (r: Result<Reply<OrderResponse>, HttpError>)
    requires slot.Valid()
    ensures slot.remote.Valid() ==> r == GetOrderByIdOutcome(BackendOf(slot), slot.remote.orders, orderId)
  {
    var got := slot.Get();
    if got.Err? {
      return Err(Internal);
    }
    var found := got.value.GetOrder(orderId);
    match found {
      case Err(_) =>
        r := Err(Internal);
      case Ok(None) =>
        r := Err(OrderNotFound(orderId));
      case Ok(Some(order)) =>
        r := Ok(Reply(OK, ToResponse(order)));
    }
  }
}
