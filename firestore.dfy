/**
 * The Firestore backend: the document codec (`_order_to_dict` /
 * `_dict_to_order`) and the adapter whose operations read and write the
 * `orders` collection, each document named by `str(order_id)`.
 */
module Firestore {
  import opened Wrappers
  import opened Uuids
  import opened Schemas
  import Adapter

  /** The values a Firestore document field can hold, as far as this backend uses them. */
  datatype Value = Str(text: string) | Time(at: int) | Null | Arr(elems: seq<Value>) | Obj(fields: map<string, Value>)

  type Doc = map<string, Value>

  /**
   * What an adapter call raises: RuntimeError before `initialize()`, KeyError
   * for a missing document field, ValueError for text that is no UUID or
   * enum value, TypeError or AttributeError for a field of the wrong kind
   * (indexed, iterated or parsed as a UUID), and pydantic's ValidationError
   * (itself a ValueError).
   */
  datatype DbError =
    | NotInitialized
    | MissingKey(key: string)
    | BadValue(key: string)
    | BadType(key: string)
    | Invalid(error: ValidationError)

  /** The errors Python raises as ValueError: a bad UUID or enum value, and pydantic's ValidationError. */
  predicate IsValueError(e: DbError) {
    e.BadValue? || e.Invalid?
  }

  /** `str(order_id)`: the name of the document that holds an order. */
  function DocumentId(orderId: Uuid): (k: string)
    ensures ParseUuid(k) == Some(orderId)
  {
    ParseUuidString(orderId);
    UuidString(orderId)
  }

  // ----- encoding -----

  function StrValues(texts: seq<string>): (r: seq<Value>)
    ensures |r| == |texts|
    ensures forall i :: 0 <= i < |r| ==> r[i] == Str(texts[i])
  {
    seq(|texts|, i requires 0 <= i < |texts| => Str(texts[i]))
  }

  function CommentsValue(comments: Option<string>): Value {
    match comments
    case Some(c) => Str(c)
    case None => Null
  }

  /** One element of the `items` field. */
  function ItemToValue(item: Item): Value {
    Obj(map[
      "item_id" := Str(UuidString(item.itemId)),
      "main_colours" := Arr(StrValues(item.mainColours)),
      "size" := Str(item.size.Value()),
      "comments" := CommentsValue(item.comments),
      "created_at" := Time(item.createdAt)])
  }

  function ItemsToValues(items: seq<Item>): (r: seq<Value>)
    ensures |r| == |items|
    ensures forall i :: 0 <= i < |r| ==> r[i] == ItemToValue(items[i])
  {
    seq(|items|, i requires 0 <= i < |items| => ItemToValue(items[i]))
  }

  /** `_order_to_dict` as written: buyer_email and buyer_phone are not among the fields. */
  function OrderToDictAsWritten(order: Order): (d: Doc)
    ensures "buyer_email" !in d && "buyer_phone" !in d
  {
    map[
      "order_id" := Str(UuidString(order.orderId)),
      "items" := Arr(ItemsToValues(order.items)),
      "buyer_full_name" := Str(order.buyerFullName),
      "delivery_address" := Str(order.deliveryAddress),
      "payment_status" := Str(order.paymentStatus.Value()),
      "order_status" := Str(order.orderStatus.Value()),
      "created_at" := Time(order.createdAt),
      "updated_at" := Time(order.updatedAt)]
  }

  /** `_order_to_dict` carrying every field of the Order, buyer contact included. */
  function OrderToDict(order: Order): (d: Doc)
    ensures "buyer_email" in d && "buyer_phone" in d
  {
    OrderToDictAsWritten(order)["buyer_email" := Str(order.buyerEmail)]["buyer_phone" := Str(order.buyerPhone)]
  }

  // ----- decoding -----

  /** `data[key]`. */
  function Field(d: map<string, Value>, key: string): Result<Value, DbError> {
    if key in d then Ok(d[key]) else Err(MissingKey(key))
  }

  /** `UUID(value)`: ValueError for text that is no UUID, TypeError for None, AttributeError for other values. */
  function UuidValue(v: Value, key: string): Result<Uuid, DbError> {
    match v
    case Str(t) => (match ParseUuid(t) case Some(u) => Ok(u) case None => Err(BadValue(key)))
    case _ => Err(BadType(key))
  }

  function PaymentStatusValue(v: Value): Result<PaymentStatus, DbError> {
    match v
    case Str(t) => (match PaymentStatusOf(t) case Some(s) => Ok(s) case None => Err(BadValue("payment_status")))
    case _ => Err(BadValue("payment_status"))
  }

  function OrderStatusValue(v: Value): Result<OrderStatus, DbError> {
    match v
    case Str(t) => (match OrderStatusOf(t) case Some(s) => Ok(s) case None => Err(BadValue("order_status")))
    case _ => Err(BadValue("order_status"))
  }

  // pydantic's coercion of a field of the kinds this backend writes; None is a type error.
  // Timestamps must be timestamps: pydantic's parsing of ISO-8601 text is not modelled.

  function AsText(v: Value): Option<string> {
    match v
    case Str(t) => Some(t)
    case _ => None
  }

  function AsTime(v: Value): Option<int> {
    match v
    case Time(t) => Some(t)
    case _ => None
  }

  function AsTexts(vs: seq<Value>): (r: Option<seq<string>>)
    ensures r.Some? ==> |r.value| == |vs|
  {
    if vs == [] then Some([])
    else match (AsText(vs[0]), AsTexts(vs[1..]))
      case (Some(t), Some(ts)) => Some([t] + ts)
      case _ => None
  }

  function AsTextList(v: Value): Option<seq<string>> {
    match v
    case Arr(vs) => AsTexts(vs)
    case _ => None
  }

  function AsSize(v: Value): Option<BouquetSize> {
    match v
    case Str(t) => BouquetSizeOf(t)
    case _ => None
  }

  function AsOptionalText(v: Value): Option<Option<string>> {
    match v
    case Null => Some(None)
    case Str(t) => Some(Some(t))
    case _ => None
  }

  /** A field's name when its flag is set: one `loc` of a ValidationError. */
  function Named(name: string, bad: bool): (r: seq<string>)
    ensures r == (if bad then [name] else [])
  {
    if bad then [name] else []
  }

  /** `Item(item_id=..., main_colours=..., size=..., comments=..., created_at=...)` from raw field values. */
  function ItemFromValues(itemId: Uuid, colours: Value, size: Value, comments: Value, createdAt: Value): Result<Item, DbError> {
    match (AsTextList(colours), AsSize(size), AsOptionalText(comments), AsTime(createdAt))
    case (Some(c), Some(s), Some(m), Some(t)) =>
      (match BuildItem(itemId, c, s, m, t) case Ok(item) => Ok(item) case Err(e) => Err(Invalid(e)))
    case (c, s, m, t) =>
      Err(Invalid(ValidationError(
        Named("main_colours", c.None?) + Named("size", s.None?) + Named("comments", m.None?)
        + Named("created_at", t.None?))))
  }

  /** One element of `data["items"]` turned back into an Item. */
  function ItemFromValue(v: Value): Result<Item, DbError> {
    match v
    case Obj(f) =>
      var idText :- Field(f, "item_id");
      var itemId :- UuidValue(idText, "item_id");
      var colours :- Field(f, "main_colours");
      var size :- Field(f, "size");
      var comments := if "comments" in f then f["comments"] else Null;
      var createdAt :- Field(f, "created_at");
      ItemFromValues(itemId, colours, size, comments, createdAt)
    case _ => Err(BadType("items"))
  }

  /** The items comprehension; the first element that fails stops it. */
  function ItemsFromValues(vs: seq<Value>): (r: Result<seq<Item>, DbError>)
    ensures r.Ok? ==> |r.value| == |vs|
  {
    if vs == [] then Ok([])
    else
      var head :- ItemFromValue(vs[0]);
      var tail :- ItemsFromValues(vs[1..]);
      Ok([head] + tail)
  }

  /**
   * `[Item(...) for item in data["items"]]`. Iterating text or a map yields
   * texts (its characters, its keys), and indexing a text by "item_id" is a
   * TypeError; None and a timestamp cannot be iterated at all.
   */
  function ItemsField(d: Doc): (r: Result<seq<Item>, DbError>) {
    var itemsValue :- Field(d, "items");
    match itemsValue
    case Arr(vs) => ItemsFromValues(vs)
    case Str(t) => if t == "" then Ok([]) else Err(BadType("items"))
    case Obj(f) => if f == map[] then Ok([]) else Err(BadType("items"))
    case _ => Err(BadType("items"))
  }

  /** `order_id=UUID(data["order_id"])`. */
  function OrderIdField(d: Doc): Result<Uuid, DbError> {
    var idText :- Field(d, "order_id");
    UuidValue(idText, "order_id")
  }

  /** `PaymentStatus(data["payment_status"])` and `OrderStatus(data["order_status"])`. */
  function StatusFields(d: Doc): Result<(PaymentStatus, OrderStatus), DbError> {
    var paymentText :- Field(d, "payment_status");
    var payment :- PaymentStatusValue(paymentText);
    var orderText :- Field(d, "order_status");
    var processing :- OrderStatusValue(orderText);
    Ok((payment, processing))
  }

  /** The keyword arguments `_dict_to_order` hands to `Order(...)`, before pydantic coerces them. */
  datatype OrderKwargs = OrderKwargs(
    orderId: Uuid,
    items: seq<Item>,
    buyerFullName: Value,
    buyerEmail: Option<Value>,
    buyerPhone: Option<Value>,
    deliveryAddress: Value,
    paymentStatus: PaymentStatus,
    orderStatus: OrderStatus,
    createdAt: Value,
    updatedAt: Value)

  /** `data[key]` for a keyword the call passes; nothing for one it leaves out. */
  function PassedField(d: Doc, key: string, passed: bool): (r: Result<Option<Value>, DbError>)
    ensures r.Err? <==> passed && key !in d
    ensures r.Ok? ==> r.value == if passed then Some(d[key]) else None
  {
    if !passed then Ok(None) else if key in d then Ok(Some(d[key])) else Err(MissingKey(key))
  }

  /**
   * The keywords read from a document in Python's order: the items
   * comprehension first, then each keyword expression from left to right.
   * `withContact` says whether the call also passes buyer_email and
   * buyer_phone, right after buyer_full_name.
   */
  function ReadKwargs(d: Doc, withContact: bool): (r: Result<OrderKwargs, DbError>)
    ensures r.Ok? ==> (r.value.buyerEmail.Some? <==> withContact) && (r.value.buyerPhone.Some? <==> withContact)
  {
    var items :- ItemsField(d);
    var orderId :- OrderIdField(d);
    var name :- Field(d, "buyer_full_name");
    var email :- PassedField(d, "buyer_email", withContact);
    var phone :- PassedField(d, "buyer_phone", withContact);
    var address :- Field(d, "delivery_address");
    var statuses :- StatusFields(d);
    var createdAt :- Field(d, "created_at");
    var updatedAt :- Field(d, "updated_at");
    Ok(OrderKwargs(orderId, items, name, email, phone, address, statuses.0, statuses.1, createdAt, updatedAt))
  }

  /** A keyword pydantic reads as text: absent, or present but not text, gives nothing. */
  function TextOf(v: Option<Value>): Option<string> {
    match v
    case Some(x) => AsText(x)
    case None => None
  }

  /**
   * `Order(**kwargs)` over the raw keywords. When the name, the address and
   * the timestamps coerce, the order is built as `Order(...)` builds it;
   * otherwise one ValidationError names every field that fails, in
   * declaration order.
   */
  function OrderFromKwargs(k: OrderKwargs): (r: Result<Order, DbError>)
    ensures r.Err? ==> r.error.Invalid?
    ensures r.Err? ==> ("buyer_email" in r.error.error.fields <==> TextOf(k.buyerEmail).None?)
    ensures r.Err? ==> ("buyer_phone" in r.error.error.fields <==> TextOf(k.buyerPhone).None?)
    ensures r.Ok? <==> (&& AsText(k.buyerFullName).Some? && TextOf(k.buyerEmail).Some? && TextOf(k.buyerPhone).Some?
                        && AsText(k.deliveryAddress).Some? && AsTime(k.createdAt).Some? && AsTime(k.updatedAt).Some?)
  {
    var email, phone := TextOf(k.buyerEmail), TextOf(k.buyerPhone);
    var n, a, c, u := AsText(k.buyerFullName), AsText(k.deliveryAddress), AsTime(k.createdAt), AsTime(k.updatedAt);
    if n.Some? && a.Some? && c.Some? && u.Some? then
      var built := BuildOrder(OrderArgs(k.orderId, k.items, n.value, email, phone, a.value,
        Some(k.paymentStatus), Some(k.orderStatus), c.value, u.value));
      if built.Ok? then Ok(built.value) else Err(Invalid(built.error))
    else
      ContactNamed(n.None?, email.None?, phone.None?, a.None?, c.None?, u.None?);
      Err(Invalid(ValidationError(CoercionErrors(n.None?, email.None?, phone.None?, a.None?, c.None?, u.None?))))
  }

  /** The fields `Order(...)` reports when coercing the raw keywords fails, in declaration order. */
  function CoercionErrors(name: bool, email: bool, phone: bool, address: bool, created: bool, updated: bool): seq<string> {
    Named("buyer_full_name", name) + Named("buyer_email", email) + Named("buyer_phone", phone)
    + Named("delivery_address", address) + Named("created_at", created) + Named("updated_at", updated)
  }

  /** Each contact field is reported exactly when it fails. */
  lemma ContactNamed(name: bool, email: bool, phone: bool, address: bool, created: bool, updated: bool)
    ensures "buyer_email" in CoercionErrors(name, email, phone, address, created, updated) <==> email
    ensures "buyer_phone" in CoercionErrors(name, email, phone, address, created, updated) <==> phone
  {
    var e, p := "buyer_email", "buyer_phone";
    assert e != "buyer_full_name" && e != p && e != "delivery_address" && e != "created_at" && e != "updated_at" by {
      assert e[6] == 'e' && p[6] == 'p';
      assert |e| != |"buyer_full_name"| && |e| != |"delivery_address"|;
      assert e[0] != "created_at"[0] && e[0] != "updated_at"[0];
    }
    assert p != "buyer_full_name" && p != "delivery_address" && p != "created_at" && p != "updated_at" by {
      assert |p| != |"buyer_full_name"| && |p| != |"delivery_address"|;
      assert p[0] != "created_at"[0] && p[0] != "updated_at"[0];
    }
  }

  /** `_dict_to_order` as written: the call passes no buyer_email and no buyer_phone. */
  function DictToOrderAsWritten(d: Doc): (r: Result<Order, DbError>)
    ensures r.Err?
  {
    var k :- ReadKwargs(d, false);
    OrderFromKwargs(k)
  }

  /** `_dict_to_order` that also passes `buyer_email=data["buyer_email"], buyer_phone=data["buyer_phone"]`. */
  function DictToOrder(d: Doc): (r: Result<Order, DbError>)
    ensures r.Ok? ==> "buyer_email" in d && "buyer_phone" in d
  {
    var k :- ReadKwargs(d, true);
    OrderFromKwargs(k)
  }

  // ----- codec properties -----

  lemma {:induction false} TextsRoundTrip(texts: seq<string>)
    ensures AsTexts(StrValues(texts)) == Some(texts)
  {
    if texts != [] {
      var vs := StrValues(texts);
      assert vs[0] == Str(texts[0]);
      assert vs[1..] == StrValues(texts[1..]);
      TextsRoundTrip(texts[1..]);
      assert AsTexts(vs) == Some([texts[0]] + texts[1..]);
      assert [texts[0]] + texts[1..] == texts;
    }
  }

  lemma UuidValueRoundTrip(u: Uuid, key: string)
    ensures UuidValue(Str(UuidString(u)), key) == Ok(u)
  {
    ParseUuidString(u);
  }

  lemma ItemRoundTrip(item: Item)
    requires ValidItem(item)
    ensures ItemFromValue(ItemToValue(item)) == Ok(item)
  {
    var f := ItemToValue(item).fields;
    assert Field(f, "item_id") == Ok(Str(UuidString(item.itemId)));
    UuidValueRoundTrip(item.itemId, "item_id");
    assert Field(f, "main_colours") == Ok(Arr(StrValues(item.mainColours)));
    assert Field(f, "size") == Ok(Str(item.size.Value()));
    assert f["comments"] == CommentsValue(item.comments);
    assert Field(f, "created_at") == Ok(Time(item.createdAt));
    TextsRoundTrip(item.mainColours);
    assert AsSize(Str(item.size.Value())) == Some(item.size);
    assert AsOptionalText(CommentsValue(item.comments)) == Some(item.comments);
    assert ItemFromValues(item.itemId, Arr(StrValues(item.mainColours)), Str(item.size.Value()),
      CommentsValue(item.comments), Time(item.createdAt)) == Ok(item);
  }

  /** Decoding the encoded item list gives back the same items, same length, same order. */
  lemma {:induction false} ItemsRoundTrip(items: seq<Item>)
    requires forall i :: 0 <= i < |items| ==> ValidItem(items[i])
    ensures ItemsFromValues(ItemsToValues(items)) == Ok(items)
  {
    if items != [] {
      var vs := ItemsToValues(items);
      assert vs[0] == ItemToValue(items[0]);
      assert vs[1..] == ItemsToValues(items[1..]);
      ItemRoundTrip(items[0]);
      ItemsRoundTrip(items[1..]);
      ItemsFromValuesCons(vs, items[0], items[1..]);
      assert [items[0]] + items[1..] == items;
    }
  }

  /** A list whose head and tail decode decodes to the head's item before the tail's items. */
  lemma ItemsFromValuesCons(vs: seq<Value>, head: Item, tail: seq<Item>)
    requires vs != [] && ItemFromValue(vs[0]) == Ok(head) && ItemsFromValues(vs[1..]) == Ok(tail)
    ensures ItemsFromValues(vs) == Ok([head] + tail)
  {
  }

  /** The raw keywords an encoded order yields, with the given contact keywords. */
  function EncodedKwargs(order: Order, email: Option<Value>, phone: Option<Value>): OrderKwargs {
    OrderKwargs(order.orderId, order.items, Str(order.buyerFullName), email, phone, Str(order.deliveryAddress),
      order.paymentStatus, order.orderStatus, Time(order.createdAt), Time(order.updatedAt))
  }

  /**
   * The keywords read back from a written document agree with the order on
   * every field it encodes, and the as-written decoder then reports exactly
   * the two contact fields as missing.
   */
  lemma ArgsRoundTrip(order: Order)
    requires ValidOrder(order)
    ensures ReadKwargs(OrderToDictAsWritten(order), false) == Ok(EncodedKwargs(order, None, None))
    ensures DictToOrderAsWritten(OrderToDictAsWritten(order)) == Err(Invalid(ValidationError(["buyer_email", "buyer_phone"])))
  {
    KwargsOfDoc(order, OrderToDictAsWritten(order), false);
    BuildOrderWithoutContact(OrderArgs(order.orderId, order.items, order.buyerFullName, None, None,
      order.deliveryAddress, Some(order.paymentStatus), Some(order.orderStatus), order.createdAt, order.updatedAt));
  }

  /** The eight fields a document must hold for ReadKwargs to read `order` back. */
  predicate HoldsEncoded(order: Order, d: Doc) {
    forall k | k in OrderToDictAsWritten(order) :: k in d && d[k] == OrderToDictAsWritten(order)[k]
  }

  lemma ItemsFieldOfDoc(order: Order, d: Doc)
    requires ValidOrder(order) && Field(d, "items") == Ok(Arr(ItemsToValues(order.items)))
    ensures ItemsField(d) == Ok(order.items)
  {
    ItemsRoundTrip(order.items);
  }

  lemma OrderIdFieldOfDoc(order: Order, d: Doc)
    requires Field(d, "order_id") == Ok(Str(UuidString(order.orderId)))
    ensures OrderIdField(d) == Ok(order.orderId)
  {
    UuidValueRoundTrip(order.orderId, "order_id");
  }

  lemma StatusFieldsOfDoc(order: Order, d: Doc)
    requires HoldsEncoded(order, d)
    ensures StatusFields(d) == Ok((order.paymentStatus, order.orderStatus))
  {
    var w := OrderToDictAsWritten(order);
    assert "payment_status" in w && "order_status" in w;
    assert PaymentStatusValue(Str(order.paymentStatus.Value())) == Ok(order.paymentStatus);
    assert OrderStatusValue(Str(order.orderStatus.Value())) == Ok(order.orderStatus);
  }

  /** A document holding the encoded fields yields them when read. */
  lemma EncodedFieldsOfDoc(order: Order, d: Doc)
    requires HoldsEncoded(order, d)
    ensures Field(d, "items") == Ok(Arr(ItemsToValues(order.items)))
    ensures Field(d, "order_id") == Ok(Str(UuidString(order.orderId)))
    ensures Field(d, "buyer_full_name") == Ok(Str(order.buyerFullName))
    ensures Field(d, "delivery_address") == Ok(Str(order.deliveryAddress))
    ensures Field(d, "created_at") == Ok(Time(order.createdAt)) && Field(d, "updated_at") == Ok(Time(order.updatedAt))
  {
    var w := OrderToDictAsWritten(order);
    assert "items" in w && "order_id" in w;
    assert "buyer_full_name" in w && "delivery_address" in w && "created_at" in w && "updated_at" in w;
  }

  /** ReadKwargs reads only the encoded fields and the contact fields, so any document holding them reads alike. */
  lemma KwargsOfDoc(order: Order, d: Doc, withContact: bool)
    requires ValidOrder(order) && HoldsEncoded(order, d)
    requires withContact ==> "buyer_email" in d && "buyer_phone" in d
    ensures ReadKwargs(d, withContact) == Ok(EncodedKwargs(order,
      if withContact then Some(d["buyer_email"]) else None, if withContact then Some(d["buyer_phone"]) else None))
  {
    EncodedFieldsOfDoc(order, d);
    ItemsFieldOfDoc(order, d);
    OrderIdFieldOfDoc(order, d);
    StatusFieldsOfDoc(order, d);
  }

  /**
   * As written, `_dict_to_order` fails on every document; once the keywords
   * are read, the failure is the ValidationError naming both contact fields.
   */
  lemma DictToOrderAsWrittenAlwaysFails(d: Doc)
    ensures DictToOrderAsWritten(d).Err?
    ensures ReadKwargs(d, false).Ok? ==>
      && DictToOrderAsWritten(d).error.Invalid?
      && "buyer_email" in DictToOrderAsWritten(d).error.error.fields
      && "buyer_phone" in DictToOrderAsWritten(d).error.error.fields
  {
  }

  /** The corrected codec: decoding an encoded order gives back that order. */
  lemma RoundTrip(order: Order)
    requires ValidOrder(order)
    ensures DictToOrder(OrderToDict(order)) == Ok(order)
  {
    var d := OrderToDict(order);
    assert HoldsEncoded(order, d);
    KwargsOfDoc(order, d, true);
    var k := EncodedKwargs(order, Some(Str(order.buyerEmail)), Some(Str(order.buyerPhone)));
    assert ReadKwargs(d, true) == Ok(k);
    assert BuildOrder(OrderArgs(order.orderId, order.items, order.buyerFullName, Some(order.buyerEmail),
      Some(order.buyerPhone), order.deliveryAddress, Some(order.paymentStatus), Some(order.orderStatus),
      order.createdAt, order.updatedAt)) == Ok(order);
    assert OrderFromKwargs(k) == Ok(order);
  }

  // ----- which exception a damaged document raises -----

  /**
   * Keywords are read before any is converted: a document without
   * buyer_full_name raises KeyError, not a ValueError, even when its
   * order_status is no status at all.
   */
  lemma MissingNameBeforeBadStatus(d: Doc)
    requires ItemsField(d).Ok? && OrderIdField(d).Ok? && "buyer_full_name" !in d
    requires StatusFields(d).Err? && StatusFields(d).error.BadValue?
    ensures DictToOrder(d) == Err(MissingKey("buyer_full_name")) && !IsValueError(DictToOrder(d).error)
    ensures IsValueError(StatusFields(d).error)
  {
    assert ReadKwargs(d, true) == Err(MissingKey("buyer_full_name"));
  }

  /** An `items` field that is neither a list nor empty text or map makes the comprehension raise TypeError. */
  lemma NonListItemsIsTypeError(d: Doc)
    requires "items" in d && !d["items"].Arr? && d["items"] != Str("") && d["items"] != Obj(map[])
    ensures DictToOrder(d) == Err(BadType("items")) && DictToOrderAsWritten(d) == Err(BadType("items"))
    ensures !IsValueError(BadType("items"))
  {
  }

  /** An `order_id` that is not text makes `UUID(...)` raise TypeError or AttributeError, not ValueError. */
  lemma NonTextIdIsTypeError(order: Order, v: Value)
    requires ValidOrder(order) && !v.Str?
    ensures var d := OrderToDict(order)["order_id" := v];
      DictToOrder(d) == Err(BadType("order_id")) && !IsValueError(DictToOrder(d).error)
  {
    var d := OrderToDict(order)["order_id" := v];
    assert Field(d, "items") == Ok(Arr(ItemsToValues(order.items)));
    ItemsFieldOfDoc(order, d);
  }

  // ----- the orders collection -----

  /**
   * `docs` holds exactly the documents of `store`: each order under
   * `str(order_id)`, encoded by the codec, and no other document.
   */
  ghost predicate Consistent(docs: map<string, Doc>, store: Adapter.Store) {
    && (forall u {:trigger store[u]} | u in store ::
          store[u].orderId == u && ValidOrder(store[u])
          && DocumentId(u) in docs && docs[DocumentId(u)] == OrderToDict(store[u]))
    && (forall k {:trigger docs[k]} | k in docs :: ParseUuid(k).Some? && ParseUuid(k).value in store && DocumentId(ParseUuid(k).value) == k)
  }

  lemma ConsistentWellFormed(docs: map<string, Doc>, store: Adapter.Store)
    requires Consistent(docs, store)
    ensures Adapter.WellFormed(store)
  {
  }

  /** The document a key names decodes to the order filed under the id the key spells. */
  lemma StoredDocDecodes(docs: map<string, Doc>, store: Adapter.Store, k: string)
    requires k in docs
    ensures Consistent(docs, store) ==>
      ParseUuid(k).Some? && ParseUuid(k).value in store && DictToOrder(docs[k]) == Ok(store[ParseUuid(k).value])
    ensures Consistent(docs, store) ==>
      DictToOrder(docs[k]).Ok? && Adapter.Stored(store, DictToOrder(docs[k]).value)
      && DocumentId(DictToOrder(docs[k]).value.orderId) == k
  {
    if Consistent(docs, store) {
      RoundTrip(store[ParseUuid(k).value]);
    }
  }

  /** Writing an order's document keeps the collection and the store in step. */
  lemma ConsistentSet(docs: map<string, Doc>, store: Adapter.Store, order: Order)
    requires Consistent(docs, store) && ValidOrder(order)
    ensures Consistent(docs[DocumentId(order.orderId) := OrderToDict(order)], store[order.orderId := order])
  {
    SetKeepsOrders(docs, store, order);
    SetKeepsKeys(docs, store, order);
  }

  lemma DocumentIdInjective(u: Uuid, v: Uuid)
    requires DocumentId(u) == DocumentId(v)
    ensures u == v
  {
    assert Some(u) == ParseUuid(DocumentId(u)) == ParseUuid(DocumentId(v)) == Some(v);
  }

  lemma SetKeepsOrders(docs: map<string, Doc>, store: Adapter.Store, order: Order)
    requires Consistent(docs, store) && ValidOrder(order)
    ensures var docs', store' := docs[DocumentId(order.orderId) := OrderToDict(order)], store[order.orderId := order];
      forall u | u in store' ::
        store'[u].orderId == u && ValidOrder(store'[u])
        && DocumentId(u) in docs' && docs'[DocumentId(u)] == OrderToDict(store'[u])
  {
    var key := DocumentId(order.orderId);
    var docs', store' := docs[key := OrderToDict(order)], store[order.orderId := order];
    forall u | u in store'
      ensures store'[u].orderId == u && ValidOrder(store'[u])
      ensures DocumentId(u) in docs' && docs'[DocumentId(u)] == OrderToDict(store'[u])
    {
      if u != order.orderId {
        SetKeepsOrder(docs, store, order, u);
      }
    }
  }

  /** Another order's document is untouched by `set`, since distinct ids name distinct documents. */
  lemma SetKeepsOrder(docs: map<string, Doc>, store: Adapter.Store, order: Order, u: Uuid)
    requires u in store && u != order.orderId
    requires store[u].orderId == u && ValidOrder(store[u]) && DocumentId(u) in docs && docs[DocumentId(u)] == OrderToDict(store[u])
    ensures var docs', store' := docs[DocumentId(order.orderId) := OrderToDict(order)], store[order.orderId := order];
      && store'[u].orderId == u && ValidOrder(store'[u])
      && DocumentId(u) in docs' && docs'[DocumentId(u)] == OrderToDict(store'[u])
  {
    assert DocumentId(u) != DocumentId(order.orderId) by {
      if DocumentId(u) == DocumentId(order.orderId) {
        DocumentIdInjective(u, order.orderId);
      }
    }
  }

  lemma SetKeepsKeys(docs: map<string, Doc>, store: Adapter.Store, order: Order)
    requires Consistent(docs, store)
    ensures var docs', store' := docs[DocumentId(order.orderId) := OrderToDict(order)], store[order.orderId := order];
      forall k | k in docs' :: ParseUuid(k).Some? && ParseUuid(k).value in store' && DocumentId(ParseUuid(k).value) == k
  {
  }

  /** `document(str(order_id)).get()` and `_dict_to_order`: None when there is no such document. */
  function Fetched(docs: map<string, Doc>, orderId: Uuid): Result<Option<Order>, DbError> {
    var key := DocumentId(orderId);
    if key !in docs then Ok(None)
    else match DictToOrder(docs[key]) case Ok(o) => Ok(Some(o)) case Err(e) => Err(e)
  }

  /** Fetching a document just written decodes exactly that document. */
  lemma FetchedWritten(docs: map<string, Doc>, orderId: Uuid, d: Doc)
    ensures var f := Fetched(docs[DocumentId(orderId) := d], orderId);
      && (f.Err? <==> DictToOrder(d).Err?)
      && (f.Err? ==> f.error == DictToOrder(d).error)
      && (f.Ok? ==> f.value == Some(DictToOrder(d).value))
  {
  }

  /** On a consistent collection a fetch finds exactly what the store finds. */
  lemma FetchedFound(docs: map<string, Doc>, store: Adapter.Store, orderId: Uuid)
    requires Consistent(docs, store)
    ensures Fetched(docs, orderId) == Ok(Adapter.Found(store, orderId))
  {
    var key := DocumentId(orderId);
    if key in docs {
      StoredDocDecodes(docs, store, key);
    }
  }

  /** `doc_ref.update({field: value, "updated_at": now})`: the two fields replaced, the rest kept. */
  function Merged(doc: Doc, field: string, value: Value, now: int): Doc {
    doc[field := value]["updated_at" := Time(now)]
  }

  /** The collection after an update call and what the call returned. */
  datatype DocsUpdate = DocsUpdate(docs: map<string, Doc>, result: Result<Option<Order>, DbError>)

  /** Fetch, merge the two fields into the document when it exists, and fetch again. */
  function DocsUpdated(docs: map<string, Doc>, orderId: Uuid, field: string, value: Value, now: int): DocsUpdate {
    var key := DocumentId(orderId);
    if key !in docs then DocsUpdate(docs, Ok(None))
    else
      var docs' := docs[key := Merged(docs[key], field, value, now)];
      DocsUpdate(docs', Fetched(docs', orderId))
  }

  lemma MergedPaymentStatus(order: Order, status: PaymentStatus, now: int)
    ensures Merged(OrderToDict(order), "payment_status", Str(status.Value()), now)
         == OrderToDict(order.(paymentStatus := status, updatedAt := now))
  {
  }

  lemma MergedOrderStatus(order: Order, status: OrderStatus, now: int)
    ensures Merged(OrderToDict(order), "order_status", Str(status.Value()), now)
         == OrderToDict(order.(orderStatus := status, updatedAt := now))
  {
  }

  /** The collection-level payment update does to the store what the interface promises. */
  /** An order the store does not hold has no document in a consistent collection. */
  lemma AbsentHasNoDocument(docs: map<string, Doc>, store: Adapter.Store, orderId: Uuid)
    requires forall k | k in docs :: ParseUuid(k).Some? && ParseUuid(k).value in store
    requires orderId !in store
    ensures DocumentId(orderId) !in docs
  {
    assert ParseUuid(DocumentId(orderId)) == Some(orderId);
  }

  lemma PaymentStatusRefines(docs: map<string, Doc>, store: Adapter.Store, orderId: Uuid, status: PaymentStatus, now: int)
    requires Consistent(docs, store)
    ensures var r := DocsUpdated(docs, orderId, "payment_status", Str(status.Value()), now);
            var a := Adapter.PaymentStatusUpdated(store, orderId, status, now);
            Consistent(r.docs, a.store) && r.result == Ok(a.result)
  {
    var key := DocumentId(orderId);
    if orderId in store {
      var updated := store[orderId].(paymentStatus := status, updatedAt := now);
      MergedPaymentStatus(store[orderId], status, now);
      ConsistentSet(docs, store, updated);
      FetchedFound(docs[key := OrderToDict(updated)], store[orderId := updated], orderId);
    } else {
      AbsentHasNoDocument(docs, store, orderId);
    }
  }

  /** The same for the processing status. */
  lemma OrderStatusRefines(docs: map<string, Doc>, store: Adapter.Store, orderId: Uuid, status: OrderStatus, now: int)
    requires Consistent(docs, store)
    ensures var r := DocsUpdated(docs, orderId, "order_status", Str(status.Value()), now);
            var a := Adapter.OrderStatusUpdated(store, orderId, status, now);
            Consistent(r.docs, a.store) && r.result == Ok(a.result)
  {
    var key := DocumentId(orderId);
    if orderId in store {
      var updated := store[orderId].(orderStatus := status, updatedAt := now);
      MergedOrderStatus(store[orderId], status, now);
      ConsistentSet(docs, store, updated);
      FetchedFound(docs[key := OrderToDict(updated)], store[orderId := updated], orderId);
    } else {
      AbsentHasNoDocument(docs, store, orderId);
    }
  }

  // ----- `orders.sort(key=created_at, reverse=True)` -----

  /** Places `order` before the first entry that is not newer than it. */
  function InsertNewestFirst(order: Order, sorted: seq<Order>): (r: seq<Order>)
    ensures multiset(r) == multiset(sorted) + multiset{order}
  {
    if sorted == [] || order.createdAt >= sorted[0].createdAt then [order] + sorted
    else
      assert sorted == [sorted[0]] + sorted[1..];
      [sorted[0]] + InsertNewestFirst(order, sorted[1..])
  }

  /** The orders sorted by `created_at`, newest first; equal timestamps keep their order. */
  function SortNewestFirst(orders: seq<Order>): (r: seq<Order>)
    ensures multiset(r) == multiset(orders)
  {
    if orders == [] then []
    else
      assert orders == [orders[0]] + orders[1..];
      InsertNewestFirst(orders[0], SortNewestFirst(orders[1..]))
  }

  lemma {:induction false} InsertKeepsNewestFirst(order: Order, sorted: seq<Order>)
    requires Adapter.NewestFirst(sorted)
    ensures Adapter.NewestFirst(InsertNewestFirst(order, sorted))
    ensures |InsertNewestFirst(order, sorted)| == |sorted| + 1
    ensures InsertNewestFirst(order, sorted)[0] == order || (sorted != [] && InsertNewestFirst(order, sorted)[0] == sorted[0])
  {
    if sorted != [] && order.createdAt < sorted[0].createdAt {
      var tail := sorted[1..];
      assert Adapter.NewestFirst(tail);
      InsertKeepsNewestFirst(order, tail);
      var r := InsertNewestFirst(order, sorted);
      assert r == [sorted[0]] + InsertNewestFirst(order, tail);
      var rest := InsertNewestFirst(order, tail);
      assert rest[0].createdAt <= sorted[0].createdAt by {
        if rest[0] != order {
          assert sorted[1] == tail[0];
        }
      }
      forall i, j | 0 <= i < j < |r| ensures r[i].createdAt >= r[j].createdAt {
        if i == 0 {
          assert r[j] == rest[j - 1];
          assert rest[j - 1].createdAt <= rest[0].createdAt;
        } else {
          assert r[i] == rest[i - 1] && r[j] == rest[j - 1];
        }
      }
    }
  }

  lemma {:induction false} SortIsNewestFirst(orders: seq<Order>)
    ensures Adapter.NewestFirst(SortNewestFirst(orders))
  {
    if orders != [] {
      SortIsNewestFirst(orders[1..]);
      InsertKeepsNewestFirst(orders[0], SortNewestFirst(orders[1..]));
    }
  }

  // ----- what a stream yields -----

  /** What each document of the collection decodes to. */
  ghost function Decodings(docs: map<string, Doc>): (m: map<string, Result<Order, DbError>>)
    ensures m.Keys == docs.Keys
    ensures forall k | k in docs :: m[k] == DictToOrder(docs[k])
  {
    map k | k in docs :: DictToOrder(docs[k])
  }

  /** `keys` names every one of `names` exactly once, in some order. */
  ghost predicate KeyOrder(names: set<string>, keys: seq<string>) {
    && (forall i, j | 0 <= i < j < |keys| :: keys[i] != keys[j])
    && (forall i | 0 <= i < |keys| :: keys[i] in names)
    && (forall k | k in names :: k in keys)
  }

  /** `listed[i]` is what document `keys[i]` decodes to. */
  ghost predicate DecodedAs(decoded: map<string, Result<Order, DbError>>, keys: seq<string>, listed: seq<Order>) {
    && |keys| == |listed|
    && forall i | 0 <= i < |keys| :: keys[i] in decoded && decoded[keys[i]] == Ok(listed[i])
  }

  /** `listed` holds every document of `docs`, decoded, once each, in some order of the document names. */
  ghost predicate ListsDocuments(docs: map<string, Doc>, listed: seq<Order>) {
    exists keys :: KeyOrder(docs.Keys, keys) && DecodedAs(Decodings(docs), keys, listed)
  }

  /** `orders` is a rearrangement of such a listing. */
  ghost predicate ListsDocumentsReordered(docs: map<string, Doc>, orders: seq<Order>) {
    exists listed :: ListsDocuments(docs, listed) && multiset(orders) == multiset(listed)
  }

  /**
   * The loop state of the stream: the documents in `done` have been read,
   * in the order `keys`, and decoded into `listed`.
   */
  ghost predicate Streamed(decoded: map<string, Result<Order, DbError>>, done: set<string>, keys: seq<string>, listed: seq<Order>) {
    && (forall i, j | 0 <= i < j < |keys| :: keys[i] != keys[j])
    && (forall i | 0 <= i < |keys| :: keys[i] in done)
    && (forall k | k in done :: k in keys)
    && DecodedAs(decoded, keys, listed)
  }

  /** Reading one more document, `k` of the `pending` ones, keeps the loop state. */
  lemma StreamStep(decoded: map<string, Result<Order, DbError>>, pending: set<string>, keys: seq<string>, listed: seq<Order>, k: string, o: Order)
    requires Streamed(decoded, decoded.Keys - pending, keys, listed)
    requires k in decoded && k in pending && decoded[k] == Ok(o)
    ensures Streamed(decoded, decoded.Keys - (pending - {k}), keys + [k], listed + [o])
  {
    var done := decoded.Keys - pending;
    var keys', listed' := keys + [k], listed + [o];
    forall i, j | 0 <= i < j < |keys'| ensures keys'[i] != keys'[j] {
      if j == |keys| {
        assert keys[i] in done;
      }
    }
    forall i | 0 <= i < |keys'| ensures keys'[i] in decoded && decoded[keys'[i]] == Ok(listed'[i]) {
      if i < |keys| {
        assert keys'[i] == keys[i] && listed'[i] == listed[i];
      }
    }
    assert decoded.Keys - (pending - {k}) == done + {k};
  }

  /** A stream that has read every document lists the collection, one entry per document. */
  lemma StreamedAll(docs: map<string, Doc>, keys: seq<string>, listed: seq<Order>)
    requires Streamed(Decodings(docs), docs.Keys - {}, keys, listed)
    ensures ListsDocuments(docs, listed) && |listed| == |docs|
  {
    assert docs.Keys - {} == docs.Keys;
    assert KeyOrder(docs.Keys, keys);
    KeyOrderSize(docs.Keys, keys);
  }

  /** Naming each of `names` once takes `|names|` entries. */
  lemma {:induction false} KeyOrderSize(names: set<string>, keys: seq<string>)
    requires KeyOrder(names, keys)
    ensures |keys| == |names|
  {
    if keys == [] {
      assert names == {};
    } else {
      var rest := keys[1..];
      forall i | 0 <= i < |rest| ensures rest[i] in names - {keys[0]} {
        assert rest[i] == keys[i + 1];
      }
      forall k | k in names - {keys[0]} ensures k in rest {
        var i :| 0 <= i < |keys| && keys[i] == k;
        assert rest[i - 1] == k;
      }
      KeyOrderSize(names - {keys[0]}, rest);
    }
  }

  /**
   * A listing of the documents, in any arrangement, holds exactly the
   * decoded documents: each document decodes to one of its entries, and
   * each entry is some document decoded.
   */
  lemma ListedDocuments(docs: map<string, Doc>, orders: seq<Order>)
    requires ListsDocumentsReordered(docs, orders)
    ensures forall k | k in docs :: DictToOrder(docs[k]).Ok? && DictToOrder(docs[k]).value in orders
    ensures forall o | o in orders :: exists k | k in docs :: DictToOrder(docs[k]) == Ok(o)
  {
    var decoded := Decodings(docs);
    var listed :| ListsDocuments(docs, listed) && multiset(orders) == multiset(listed);
    var keys :| KeyOrder(docs.Keys, keys) && DecodedAs(decoded, keys, listed);
    forall k | k in docs ensures DictToOrder(docs[k]).Ok? && DictToOrder(docs[k]).value in orders {
      var i :| 0 <= i < |keys| && keys[i] == k;
      assert listed[i] in multiset(listed);
    }
    forall o | o in orders ensures exists k | k in docs :: DictToOrder(docs[k]) == Ok(o) {
      assert o in multiset(listed);
      var i :| 0 <= i < |listed| && listed[i] == o;
      assert keys[i] in docs && decoded[keys[i]] == Ok(o);
    }
  }

  /** Every document decodes to the stored order filed under its name, and every stored order has its document. */
  ghost predicate DecodesToStore(decoded: map<string, Result<Order, DbError>>, store: Adapter.Store) {
    && (forall k | k in decoded ::
          decoded[k].Ok? && Adapter.Stored(store, decoded[k].value) && DocumentId(decoded[k].value.orderId) == k)
    && (forall u | u in store :: DocumentId(u) in decoded)
  }

  lemma ConsistentDecodes(docs: map<string, Doc>, store: Adapter.Store)
    requires Consistent(docs, store)
    ensures DecodesToStore(Decodings(docs), store)
  {
    forall k | k in docs
      ensures DictToOrder(docs[k]).Ok? && Adapter.Stored(store, DictToOrder(docs[k]).value)
      ensures DocumentId(DictToOrder(docs[k]).value.orderId) == k
    {
      StoredDocDecodes(docs, store, k);
    }
  }

  // ----- the adapter -----

  /**
   * The Firestore `orders` collection: its documents by name and, as ghost
   * state, the orders they spell.
   */
  class Collection {
    var docs: map<string, Doc>
    ghost var orders: Adapter.Store

    ghost predicate Valid()
      reads this
    {
      Consistent(docs, orders)
    }

    constructor()
      ensures Valid() && docs == map[] && orders == map[]
    {
      docs := map[];
      orders := map[];
    }
  }

  /**
   * FirestoreAdapter: `connected` says whether `initialize()` has set
   * `self.db`; every operation on the collection first checks it.
   */
  class FirestoreAdapter {
    const projectId: Option<string>
    const remote: Collection
    var connected: bool

    constructor(projectId: Option<string>, remote: Collection)
      ensures this.projectId == projectId && this.remote == remote && !connected
    {
      this.projectId := projectId;
      this.remote := remote;
      connected := false;
    }

    /** `initialize()`: opens the client, for `projectId` or the default project. */
    method Initialize()
      modifies this
      ensures connected
    {
      connected := true;
    }

    /** `close()`: closes the client but leaves `self.db` set, so `connected` stays as it was. */
    method Close()
    {
    }

    /** `create_order`: `set` replaces the whole document named by the order id. */
    method CreateOrder(order: Order) returns (r: Result<Order, DbError>)
      modifies remote
      ensures !connected ==> r == Err(NotInitialized) && remote.docs == old(remote.docs) && remote.orders == old(remote.orders)
      ensures connected ==> r == Ok(order)
      ensures connected ==> remote.docs == old(remote.docs)[DocumentId(order.orderId) := OrderToDict(order)]
      ensures connected ==> remote.orders == Adapter.Created(old(remote.orders), order)
      ensures old(remote.Valid()) && ValidOrder(order) ==> remote.Valid()
    {
      if !connected {
        return Err(NotInitialized);
      }
      if remote.Valid() && ValidOrder(order) {
        ConsistentSet(remote.docs, remote.orders, order);
      }
      remote.docs := remote.docs[DocumentId(order.orderId) := OrderToDict(order)];
      remote.orders := Adapter.Created(remote.orders, order);
      r := Ok(order);
    }

    /** `get_order`. */
    method GetOrder(orderId: Uuid) returns (r: Result<Option<Order>, DbError>)
      ensures !connected ==> r == Err(NotInitialized)
      ensures connected ==> r == Fetched(remote.docs, orderId)
      ensures connected && remote.Valid() ==> r == Ok(Adapter.Found(remote.orders, orderId))
    {
      if !connected {
        return Err(NotInitialized);
      }
      if remote.Valid() {
        FetchedFound(remote.docs, remote.orders, orderId);
      }
      var key := DocumentId(orderId);
      if key !in remote.docs {
        return Ok(None);
      }
      match DictToOrder(remote.docs[key]) {
        case Ok(o) => r := Ok(Some(o));
        case Err(e) => r := Err(e);
      }
    }

    /** `update_order_payment_status`: only the payment status and `updated_at` change. */
    method UpdateOrderPaymentStatus(orderId: Uuid, status: PaymentStatus, now: int) returns (r: Result<Option<Order>, DbError>)
      modifies remote
      ensures !connected ==> r == Err(NotInitialized) && remote.docs == old(remote.docs) && remote.orders == old(remote.orders)
      ensures connected ==>
        var u := DocsUpdated(old(remote.docs), orderId, "payment_status", Str(status.Value()), now);
        remote.docs == u.docs && r == u.result
      ensures connected ==> remote.orders == Adapter.PaymentStatusUpdated(old(remote.orders), orderId, status, now).store
      ensures connected && old(remote.Valid()) ==>
        remote.Valid() && r == Ok(Adapter.PaymentStatusUpdated(old(remote.orders), orderId, status, now).result)
    {
      if !connected {
        return Err(NotInitialized);
      }
      if remote.Valid() {
        PaymentStatusRefines(remote.docs, remote.orders, orderId, status, now);
      }
      r := UpdateFields(orderId, "payment_status", Str(status.Value()), now);
      remote.orders := Adapter.PaymentStatusUpdated(remote.orders, orderId, status, now).store;
    }

    /** `update_order_status`: only the processing status and `updated_at` change. */
    method UpdateOrderStatus(orderId: Uuid, status: OrderStatus, now: int) returns (r: Result<Option<Order>, DbError>)
      modifies remote
      ensures !connected ==> r == Err(NotInitialized) && remote.docs == old(remote.docs) && remote.orders == old(remote.orders)
      ensures connected ==>
        var u := DocsUpdated(old(remote.docs), orderId, "order_status", Str(status.Value()), now);
        remote.docs == u.docs && r == u.result
      ensures connected ==> remote.orders == Adapter.OrderStatusUpdated(old(remote.orders), orderId, status, now).store
      ensures connected && old(remote.Valid()) ==>
        remote.Valid() && r == Ok(Adapter.OrderStatusUpdated(old(remote.orders), orderId, status, now).result)
    {
      if !connected {
        return Err(NotInitialized);
      }
      if remote.Valid() {
        OrderStatusRefines(remote.docs, remote.orders, orderId, status, now);
      }
      r := UpdateFields(orderId, "order_status", Str(status.Value()), now);
      remote.orders := Adapter.OrderStatusUpdated(remote.orders, orderId, status, now).store;
    }

    /** Fetch the document, `update` two of its fields when it exists, and fetch it again. */
    method UpdateFields(orderId: Uuid, field: string, value: Value, now: int) returns (r: Result<Option<Order>, DbError>)
      requires connected
      modifies remote
      ensures var u := DocsUpdated(old(remote.docs), orderId, field, value, now); remote.docs == u.docs && r == u.result
      ensures remote.orders == old(remote.orders)
    {
      var key := DocumentId(orderId);
      if key !in remote.docs {
        return Ok(None);
      }
      remote.docs := remote.docs[key := Merged(remote.docs[key], field, value, now)];
      r := GetOrder(orderId);
    }

    /** `get_all_orders`: every document of the stream decoded, then sorted newest first. */
    method GetAllOrders() returns (r: Result<seq<Order>, DbError>)
      ensures !connected ==> r == Err(NotInitialized)
      ensures connected && r.Ok? ==> |r.value| == |remote.docs| && Adapter.NewestFirst(r.value)
      ensures connected && r.Ok? ==> ListsDocumentsReordered(remote.docs, r.value)
      ensures connected && r.Err? ==> exists k | k in remote.docs :: DictToOrder(remote.docs[k]) == Err(r.error)
      ensures connected && remote.Valid() ==> r.Ok? && Adapter.IsListing(remote.orders, r.value)
    {
      if !connected {
        return Err(NotInitialized);
      }
      var streamed := StreamOrders();
      match streamed {
        case Err(e) =>
          r := Err(e);
        case Ok(listed) =>
          if remote.Valid() {
            AllListed(remote.orders, listed);
          }
          SortIsNewestFirst(listed);
          var sorted := SortNewestFirst(listed);
          assert |sorted| == |multiset(sorted)| == |listed|;
          r := Ok(sorted);
      }
    }

    /** The `async for` over the collection's stream: each document decoded, in the stream's order. */
    method StreamOrders() returns (r: Result<seq<Order>, DbError>)
      ensures r.Ok? ==> |r.value| == |remote.docs| && ListsDocuments(remote.docs, r.value)
      ensures r.Err? ==> exists k | k in remote.docs :: DictToOrder(remote.docs[k]) == Err(r.error)
      ensures remote.Valid() ==> r.Ok? && Adapter.Enumerates(remote.orders, r.value)
    {
      var docs := remote.docs;
      ghost var store := remote.orders;
      ghost var valid := Consistent(docs, store);
      ghost var decodings := Decodings(docs);
      if valid {
        ConsistentDecodes(docs, store);
      }
      var pending := docs.Keys;
      var listed: seq<Order> := [];
      ghost var keys: seq<string> := [];
      while pending != {}
        invariant pending <= docs.Keys
        invariant Streamed(decodings, docs.Keys - pending, keys, listed)
        decreases pending
      {
        var k :| k in pending;
        var decoded := DictToOrder(docs[k]);
        assert decoded == decodings[k];
        if decoded.Err? {
          return Err(decoded.error);
        }
        StreamStep(decodings, pending, keys, listed, k, decoded.value);
        listed := listed + [decoded.value];
        keys := keys + [k];
        pending := pending - {k};
      }
      StreamedAll(docs, keys, listed);
      if valid {
        StreamedStore(decodings, store, keys, listed);
      }
      r := Ok(listed);
    }
  }

  /** Once every stored order is listed once, the sorted list enumerates the store, newest first. */
  lemma AllListed(store: Adapter.Store, listed: seq<Order>)
    requires Adapter.Enumerates(store, listed)
    ensures Adapter.IsListing(store, SortNewestFirst(listed))
  {
    var sorted := SortNewestFirst(listed);
    SortIsNewestFirst(listed);
    forall o ensures o in sorted <==> o in listed {
      assert multiset(sorted)[o] == multiset(listed)[o];
    }
  }

  /**
   * Over a consistent collection a complete stream lists each stored order
   * once and nothing else: document names are distinct, each names the order
   * filed under it, and each stored order has its document.
   */
  lemma StreamedStore(decoded: map<string, Result<Order, DbError>>, store: Adapter.Store, keys: seq<string>, listed: seq<Order>)
    requires DecodesToStore(decoded, store) && KeyOrder(decoded.Keys, keys) && DecodedAs(decoded, keys, listed)
    ensures Adapter.Enumerates(store, listed)
  {
    StreamedDistinct(decoded, store, keys, listed);
    forall o | Adapter.Stored(store, o) ensures o in listed {
      StreamedHas(decoded, store, keys, listed, o);
    }
    DistinctOnce(listed);
  }

  /** Two entries come from two document names, so from two different stored orders. */
  lemma StreamedDistinct(decoded: map<string, Result<Order, DbError>>, store: Adapter.Store, keys: seq<string>, listed: seq<Order>)
    requires DecodesToStore(decoded, store) && KeyOrder(decoded.Keys, keys) && DecodedAs(decoded, keys, listed)
    ensures forall i, j | 0 <= i < j < |listed| :: listed[i] != listed[j]
  {
    forall i, j | 0 <= i < j < |listed| ensures listed[i] != listed[j] {
      assert DocumentId(listed[i].orderId) == keys[i] && DocumentId(listed[j].orderId) == keys[j];
    }
  }

  /** A stored order is listed: the entry for its document is the order filed under that document's id. */
  lemma StreamedHas(decoded: map<string, Result<Order, DbError>>, store: Adapter.Store, keys: seq<string>, listed: seq<Order>, o: Order)
    requires DecodesToStore(decoded, store) && KeyOrder(decoded.Keys, keys) && DecodedAs(decoded, keys, listed)
    requires Adapter.Stored(store, o)
    ensures o in listed
  {
    var k := DocumentId(o.orderId);
    assert k in decoded;
    var i :| 0 <= i < |keys| && keys[i] == k;
    assert decoded[k] == Ok(listed[i]);
    DocumentIdInjective(listed[i].orderId, o.orderId);
  }

  /** An entry of a sequence without repeats occurs in it once. */
  lemma {:induction false} DistinctOnce<T>(s: seq<T>)
    requires forall i, j | 0 <= i < j < |s| :: s[i] != s[j]
    ensures forall x :: multiset(s)[x] <= 1
  {
    if s != [] {
      DistinctOnce(s[1..]);
      assert s == [s[0]] + s[1..];
      assert s[0] !in s[1..];
    }
  }
}
