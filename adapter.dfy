/**
 * The storage interface every database backend implements (the abstract
 * DatabaseAdapter): a store of orders keyed by order id and the documented
 * outcome of each of its operations. Any backend is proved against these.
 */
module Adapter {
  import opened Wrappers
  import opened Uuids
  import opened Schemas

  /** The orders a backend holds, by order id. */
  type Store = map<Uuid, Order>

  /** Every order is filed under its own id and is one pydantic could have built. */
  ghost predicate WellFormed(store: Store) {
    Keyed(store) && forall u | u in store :: ValidOrder(store[u])
  }

  /** `create_order(order)`: the store now files `order` under its id; the call returns `order`. */
  function Created(store: Store, order: Order): (r: Store)
    ensures r.Keys == store.Keys + {order.orderId}
    ensures r[order.orderId] == order
    ensures forall u | u in store && u != order.orderId :: r[u] == store[u]
  {
    store[order.orderId := order]
  }

  /** `get_order(order_id)`: the order if found, None otherwise. */
  function Found(store: Store, orderId: Uuid): (r: Option<Order>)
    ensures r.Some? <==> orderId in store
    ensures r.Some? ==> r.value == store[orderId]
  {
    if orderId in store then Some(store[orderId]) else None
  }

  /** The store after an update call and what the call returned. */
  datatype Update = Update(store: Store, result: Option<Order>)

  /**
   * `update_order_payment_status(order_id, status)`: None and no change when
   * the id is absent; otherwise the order with only its payment status and
   * update time replaced, and nothing else in the store touched.
   */
  function PaymentStatusUpdated(store: Store, orderId: Uuid, status: PaymentStatus, now: int): (r: Update)
    ensures r.result.Some? <==> orderId in store
    ensures orderId !in store ==> r.store == store
    ensures orderId in store ==> r.result.value == store[orderId].(paymentStatus := status, updatedAt := now)
    ensures orderId in store ==> r.store == store[orderId := r.result.value]
  {
    if orderId in store then
      var updated := store[orderId].(paymentStatus := status, updatedAt := now);
      Update(store[orderId := updated], Some(updated))
    else
      Update(store, None)
  }

  /** `update_order_status(order_id, status)`: the same, for the processing status. */
  function OrderStatusUpdated(store: Store, orderId: Uuid, status: OrderStatus, now: int): (r: Update)
    ensures r.result.Some? <==> orderId in store
    ensures orderId !in store ==> r.store == store
    ensures orderId in store ==> r.result.value == store[orderId].(orderStatus := status, updatedAt := now)
    ensures orderId in store ==> r.store == store[orderId := r.result.value]
  {
    if orderId in store then
      var updated := store[orderId].(orderStatus := status, updatedAt := now);
      Update(store[orderId := updated], Some(updated))
    else
      Update(store, None)
  }

  /** `order` is the order the store files under its id. */
  ghost predicate Stored(store: Store, order: Order) {
    order.orderId in store && store[order.orderId] == order
  }

  /** `listing` holds each stored order exactly once and nothing else. */
  ghost predicate Enumerates(store: Store, listing: seq<Order>) {
    && (forall o :: o in listing <==> Stored(store, o))
    && (forall o :: multiset(listing)[o] <= 1)
  }

  ghost predicate NewestFirst(listing: seq<Order>) {
    forall i, j :: 0 <= i < j < |listing| ==> listing[i].createdAt >= listing[j].createdAt
  }

  /** `get_all_orders()`: all stored orders, newest `created_at` first. */
  ghost predicate IsListing(store: Store, listing: seq<Order>) {
    Enumerates(store, listing) && NewestFirst(listing)
  }

  /** Every order is filed under its own id. */
  ghost predicate Keyed(store: Store) {
    forall u | u in store :: store[u].orderId == u
  }

  /** A listing has exactly one entry per stored order. */
  lemma {:induction false} ListingSize(store: Store, listing: seq<Order>)
    requires Keyed(store)
    requires Enumerates(store, listing)
    ensures |listing| == |store|
    decreases |listing|
  {
    if listing == [] {
      assert forall u | u in store :: Stored(store, store[u]);
      assert store == map[];
    } else {
      var last := listing[|listing| - 1];
      var front := listing[..|listing| - 1];
      assert listing == front + [last];
      assert multiset(listing) == multiset(front) + multiset{last};
      var rest := store - {last.orderId};
      assert last in listing;
      forall o ensures o in front <==> Stored(rest, o) {
        assert multiset(listing)[o] == multiset(front)[o] + (if o == last then 1 else 0);
        if o != last && Stored(store, o) {
          assert o.orderId != last.orderId;
        }
      }
      forall o ensures multiset(front)[o] <= 1 {
        assert multiset(front)[o] <= multiset(listing)[o];
      }
      ListingSize(rest, front);
      assert |rest| == |store| - 1;
    }
  }
}
