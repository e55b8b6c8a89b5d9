/**
 * The request and record schemas of the order backend (pydantic models):
 * the three string-valued enums, the validity constraints pydantic enforces
 * when a model is built, and the defaults a new order starts with.
 */
module Schemas {
  import opened Wrappers
  import opened Uuids

  /** Bouquet sizes; the wire value is a single letter. */
  datatype BouquetSize = Small | Medium | Large {
    function Value(): string {
      match this
      case Small => "S"
      case Medium => "M"
      case Large => "L"
    }
  }

  /** `BouquetSize(text)`: the member whose value is `text`, or None (ValueError). */
  function BouquetSizeOf(text: string): (r: Option<BouquetSize>)
    ensures r.Some? ==> r.value.Value() == text
    ensures forall size: BouquetSize :: size.Value() == text ==> r == Some(size)
  {
    if text == "S" then Some(Small)
    else if text == "M" then Some(Medium)
    else if text == "L" then Some(Large)
    else None
  }

  datatype PaymentStatus = Incomplete | Completed {
    function Value(): string {
      match this
      case Incomplete => "Incomplete"
      case Completed => "Completed"
    }
  }

  /** `PaymentStatus(text)`: the member whose value is `text`, or None (ValueError). */
  function PaymentStatusOf(text: string): (r: Option<PaymentStatus>)
    ensures r.Some? ==> r.value.Value() == text
    ensures forall status: PaymentStatus :: status.Value() == text ==> r == Some(status)
  {
    if text == "Incomplete" then Some(Incomplete)
    else if text == "Completed" then Some(PaymentStatus.Completed)
    else None
  }

  datatype OrderStatus = NotStarted | InProgress | Completed {
    function Value(): string {
      match this
      case NotStarted => "Not Started"
      case InProgress => "In Progress"
      case Completed => "Completed"
    }
  }

  /** `OrderStatus(text)`: the member whose value is `text`, or None (ValueError). */
  function OrderStatusOf(text: string): (r: Option<OrderStatus>)
    ensures r.Some? ==> r.value.Value() == text
    ensures forall status: OrderStatus :: status.Value() == text ==> r == Some(status)
  {
    if text == "Not Started" then Some(NotStarted)
    else if text == "In Progress" then Some(InProgress)
    else if text == "Completed" then Some(OrderStatus.Completed)
    else None
  }

  /** The fields pydantic names when it refuses to build a model, in declaration order. */
  datatype ValidationError = ValidationError(fields: seq<string>)

  const MIN_MAIN_COLOURS: nat := 1
  const MAX_COMMENTS_LENGTH: nat := 500

  /** One bouquet as the client submits it. */
  datatype ItemCreate = ItemCreate(mainColours: seq<string>, size: BouquetSize, comments: Option<string>)

  predicate ValidItemFields(mainColours: seq<string>, comments: Option<string>) {
    |mainColours| >= MIN_MAIN_COLOURS && (comments.Some? ==> |comments.value| <= MAX_COMMENTS_LENGTH)
  }

  predicate ValidItemCreate(item: ItemCreate) {
    ValidItemFields(item.mainColours, item.comments)
  }

  /** A stored bouquet: the submitted fields plus an identifier and a creation time. */
  datatype Item = Item(itemId: Uuid, mainColours: seq<string>, size: BouquetSize, comments: Option<string>, createdAt: int) {
    /** The ItemCreate part of an Item (Item extends ItemCreate). */
    function Base(): ItemCreate {
      ItemCreate(mainColours, size, comments)
    }
  }

  /** An Item inherits the field constraints of ItemCreate. */
  predicate ValidItem(item: Item) {
    ValidItemFields(item.mainColours, item.comments)
  }

  /** `Item(item_id=..., main_colours=..., size=..., comments=..., created_at=...)`. */
  function BuildItem(itemId: Uuid, mainColours: seq<string>, size: BouquetSize, comments: Option<string>, createdAt: int)
    : (r: Result<Item, ValidationError>)
    ensures r.Ok? <==> ValidItemFields(mainColours, comments)
    ensures r.Ok? ==> r.value == Item(itemId, mainColours, size, comments, createdAt) && ValidItem(r.value)
    ensures r.Err? ==> r.error.fields != []
    ensures r.Err? ==> ("main_colours" in r.error.fields <==> |mainColours| < MIN_MAIN_COLOURS)
  {
    var bad :=
      (if |mainColours| < MIN_MAIN_COLOURS then ["main_colours"] else [])
      + (if comments.Some? && |comments.value| > MAX_COMMENTS_LENGTH then ["comments"] else []);
    if bad == [] then Ok(Item(itemId, mainColours, size, comments, createdAt)) else Err(ValidationError(bad))
  }

  /** `Item(**item.model_dump())` with a generated id and creation time. */
  function NewItem(item: ItemCreate, itemId: Uuid, createdAt: int): (r: Result<Item, ValidationError>)
    ensures r.Ok? <==> ValidItemCreate(item)
    ensures r.Ok? ==> r.value.Base() == item && r.value.itemId == itemId && r.value.createdAt == createdAt
  {
    BuildItem(itemId, item.mainColours, item.size, item.comments, createdAt)
  }

  const MIN_ITEMS: nat := 1
  const MIN_BUYER_FULL_NAME: nat := 1
  const MAX_BUYER_FULL_NAME: nat := 100
  const MIN_BUYER_EMAIL: nat := 3
  const MAX_BUYER_EMAIL: nat := 254
  const MIN_BUYER_PHONE: nat := 1
  const MAX_BUYER_PHONE: nat := 20
  const MIN_DELIVERY_ADDRESS: nat := 1
  const MAX_DELIVERY_ADDRESS: nat := 300

  /** The body of an order submission. */
  datatype OrderCreate = OrderCreate(
    items: seq<ItemCreate>,
    buyerFullName: string,
    buyerEmail: string,
    buyerPhone: string,
    deliveryAddress: string)

  predicate InRange(text: string, lo: nat, hi: nat) {
    lo <= |text| <= hi
  }

  /** The constraints pydantic checks before a submission reaches the handler. */
  predicate ValidOrderCreate(order: OrderCreate) {
    && |order.items| >= MIN_ITEMS
    && (forall i :: 0 <= i < |order.items| ==> ValidItemCreate(order.items[i]))
    && InRange(order.buyerFullName, MIN_BUYER_FULL_NAME, MAX_BUYER_FULL_NAME)
    && InRange(order.buyerEmail, MIN_BUYER_EMAIL, MAX_BUYER_EMAIL)
    && InRange(order.buyerPhone, MIN_BUYER_PHONE, MAX_BUYER_PHONE)
    && InRange(order.deliveryAddress, MIN_DELIVERY_ADDRESS, MAX_DELIVERY_ADDRESS)
  }

  /** The fields pydantic reports when it refuses a submission, in declaration order. */
  function OrderCreateErrors(order: OrderCreate): (r: seq<string>)
    ensures r == [] <==> ValidOrderCreate(order)
    ensures "buyer_email" in r <==> !InRange(order.buyerEmail, MIN_BUYER_EMAIL, MAX_BUYER_EMAIL)
    ensures "buyer_phone" in r <==> !InRange(order.buyerPhone, MIN_BUYER_PHONE, MAX_BUYER_PHONE)
  {
    var itemsOk := |order.items| >= MIN_ITEMS && forall i :: 0 <= i < |order.items| ==> ValidItemCreate(order.items[i]);
    (if itemsOk then [] else ["items"])
    + (if InRange(order.buyerFullName, MIN_BUYER_FULL_NAME, MAX_BUYER_FULL_NAME) then [] else ["buyer_full_name"])
    + (if InRange(order.buyerEmail, MIN_BUYER_EMAIL, MAX_BUYER_EMAIL) then [] else ["buyer_email"])
    + (if InRange(order.buyerPhone, MIN_BUYER_PHONE, MAX_BUYER_PHONE) then [] else ["buyer_phone"])
    + (if InRange(order.deliveryAddress, MIN_DELIVERY_ADDRESS, MAX_DELIVERY_ADDRESS) then [] else ["delivery_address"])
  }

  /** A complete order record. */
  datatype Order = Order(
    orderId: Uuid,
    items: seq<Item>,
    buyerFullName: string,
    buyerEmail: string,
    buyerPhone: string,
    deliveryAddress: string,
    paymentStatus: PaymentStatus,
    orderStatus: OrderStatus,
    createdAt: int,
    updatedAt: int)

  /** Every Order pydantic can build holds items that passed their own validation. */
  predicate ValidOrder(order: Order) {
    forall i :: 0 <= i < |order.items| ==> ValidItem(order.items[i])
  }

  /**
   * The keyword arguments of an `Order(...)` call: None marks a keyword the
   * call leaves out. The id and the two timestamps are what the default
   * factories (uuid4, utcnow) or the caller supply.
   */
  datatype OrderArgs = OrderArgs(
    orderId: Uuid,
    items: seq<Item>,
    buyerFullName: string,
    buyerEmail: Option<string>,
    buyerPhone: Option<string>,
    deliveryAddress: string,
    paymentStatus: Option<PaymentStatus>,
    orderStatus: Option<OrderStatus>,
    createdAt: int,
    updatedAt: int)

  /**
   * `Order(**args)`: buyer_email and buyer_phone are required fields, the two
   * statuses default to Incomplete and Not Started.
   */
  function BuildOrder(args: OrderArgs): (r: Result<Order, ValidationError>)
    ensures r.Ok? <==> args.buyerEmail.Some? && args.buyerPhone.Some?
    ensures r.Err? ==> ("buyer_email" in r.error.fields <==> args.buyerEmail.None?)
    ensures r.Err? ==> ("buyer_phone" in r.error.fields <==> args.buyerPhone.None?)
    ensures r.Ok? ==> r.value.paymentStatus == (if args.paymentStatus.Some? then args.paymentStatus.value else Incomplete)
    ensures r.Ok? ==> r.value.orderStatus == (if args.orderStatus.Some? then args.orderStatus.value else NotStarted)
    ensures r.Ok? ==> r.value.orderId == args.orderId && r.value.items == args.items
    ensures r.Ok? ==> r.value.buyerFullName == args.buyerFullName && r.value.deliveryAddress == args.deliveryAddress
    ensures r.Ok? ==> r.value.buyerEmail == args.buyerEmail.value && r.value.buyerPhone == args.buyerPhone.value
    ensures r.Ok? ==> r.value.createdAt == args.createdAt && r.value.updatedAt == args.updatedAt
  {
    var missing :=
      (if args.buyerEmail.None? then ["buyer_email"] else [])
      + (if args.buyerPhone.None? then ["buyer_phone"] else []);
    if missing != [] then
      Err(ValidationError(missing))
    else
      Ok(Order(
        args.orderId, args.items, args.buyerFullName, args.buyerEmail.value, args.buyerPhone.value,
        args.deliveryAddress,
        match args.paymentStatus case Some(s) => s case None => Incomplete,
        match args.orderStatus case Some(s) => s case None => NotStarted,
        args.createdAt, args.updatedAt))
  }

  /** Without buyer contact, `Order(...)` reports exactly the two missing fields, email first. */
  lemma BuildOrderWithoutContact(args: OrderArgs)
    requires args.buyerEmail.None? && args.buyerPhone.None?
    ensures BuildOrder(args) == Err(ValidationError(["buyer_email", "buyer_phone"]))
  {
    assert (["buyer_email"] + ["buyer_phone"]) == ["buyer_email", "buyer_phone"];
  }

  /** The admin-facing and client-facing view of an order: the same fields. */
  datatype OrderResponse = OrderResponse(
    orderId: Uuid,
    items: seq<Item>,
    buyerFullName: string,
    buyerEmail: string,
    buyerPhone: string,
    deliveryAddress: string,
    paymentStatus: PaymentStatus,
    orderStatus: OrderStatus,
    createdAt: int,
    updatedAt: int)

  /** `OrderResponse(**order.model_dump())`. */
  function ToResponse(order: Order): OrderResponse {
    OrderResponse(
      order.orderId, order.items, order.buyerFullName, order.buyerEmail, order.buyerPhone,
      order.deliveryAddress, order.paymentStatus, order.orderStatus, order.createdAt, order.updatedAt)
  }

  /** The response carries every field, so distinct orders answer differently. */
  lemma ToResponseInjective(a: Order, b: Order)
    requires ToResponse(a) == ToResponse(b)
    ensures a == b
  {
  }

  const DEFAULT_CURRENCY: string := "usd"

  /** A request to open a payment for an order; the amount is in cents. */
  datatype PaymentIntent = PaymentIntent(orderId: Uuid, amount: int, currency: string)

  /** `PaymentIntent(order_id=..., amount=..., currency=...)`, currency optional. */
  function BuildPaymentIntent(orderId: Uuid, amount: int, currency: Option<string>): (r: Result<PaymentIntent, ValidationError>)
    ensures r.Ok? <==> amount > 0
    ensures r.Ok? ==> r.value.orderId == orderId && r.value.amount == amount
    ensures r.Ok? ==> r.value.currency == (if currency.Some? then currency.value else DEFAULT_CURRENCY)
    ensures r.Err? ==> r.error.fields == ["amount"]
  {
    if amount <= 0 then Err(ValidationError(["amount"]))
    else Ok(PaymentIntent(orderId, amount, match currency case Some(c) => c case None => DEFAULT_CURRENCY))
  }

  /** What the client receives to complete a payment. */
  datatype PaymentIntentResponse = PaymentIntentResponse(clientSecret: string, paymentIntentId: string, amount: int, currency: string)

  /** Distinct members of each enum have distinct wire values. */
  lemma EnumValuesDistinct()
    ensures forall a: BouquetSize, b: BouquetSize :: a.Value() == b.Value() ==> a == b
    ensures forall a: PaymentStatus, b: PaymentStatus :: a.Value() == b.Value() ==> a == b
    ensures forall a: OrderStatus, b: OrderStatus :: a.Value() == b.Value() ==> a == b
  {
    forall a: BouquetSize, b: BouquetSize | a.Value() == b.Value() ensures a == b {
      assert BouquetSizeOf(a.Value()) == Some(a) && BouquetSizeOf(b.Value()) == Some(b);
    }
    forall a: PaymentStatus, b: PaymentStatus | a.Value() == b.Value() ensures a == b {
      assert PaymentStatusOf(a.Value()) == Some(a) && PaymentStatusOf(b.Value()) == Some(b);
    }
    forall a: OrderStatus, b: OrderStatus | a.Value() == b.Value() ensures a == b {
      assert OrderStatusOf(a.Value()) == Some(a) && OrderStatusOf(b.Value()) == Some(b);
    }
  }
}
