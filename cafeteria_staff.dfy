/** The cafeteria staff's order board (`CafeteriaStaffViewModel`): two
    listeners on the `orders` collection keep the placed orders and the
    orders being prepared, oldest first, and staff move an order to a new
    status.

    The `orders` collection is a map from document id to order; each
    listener's snapshot arrives as a parameter. */
module CafeteriaStaff {
  import opened Kotlin
  import opened Data
  import opened Firestore

  const Placed: string := "PLACED"
  const Preparing: string := "PREPARING"
  const ReadyForPickup: string := "READY_FOR_PICKUP"

  /** The filter `whereEqualTo("status", status)`. */
  function StatusIs(status: string): Order -> bool {
    (o: Order) => o.status == status
  }

  /** The key of `orderBy("timestamp", ASCENDING)`. */
  function OrderTime(o: Order): int {
    TimeKey(o.timestamp)
  }

  /** The result of one listener's query: the orders with the status,
      oldest first. */
  function WithStatus(docs: seq<Order>, status: string): (r: seq<Order>)
    ensures |r| <= |docs|
  {
    OrderAscending(Filter(docs, StatusIs(status)), OrderTime)
  }

  /** A list is a permutation of the orders with its status. */
  lemma WithStatusMembers(docs: seq<Order>, status: string)
    ensures forall o :: multiset(WithStatus(docs, status))[o] == (if o.status == status then multiset(docs)[o] else 0)
    ensures forall o :: o in WithStatus(docs, status) <==> o in docs && o.status == status
  {
    var f := Filter(docs, StatusIs(status));
    var r := WithStatus(docs, status);
    assert multiset(r) == multiset(f);
    FilterCounts(docs, StatusIs(status));
    FilterMembers(docs, StatusIs(status));
    SameElements(r, f);
  }

  /** A list is ordered oldest first. */
  lemma WithStatusOrder(docs: seq<Order>, status: string)
    ensures AscendingBy(WithStatus(docs, status), OrderTime)
  {
  }

  /** The new-order list never holds a preparing order and the other way
      round; an order ready for pickup is in neither. */
  lemma BoardsSeparate(docs: seq<Order>, o: Order)
    ensures !(o in WithStatus(docs, Placed) && o in WithStatus(docs, Preparing))
    ensures o.status == ReadyForPickup ==> o !in WithStatus(docs, Placed) && o !in WithStatus(docs, Preparing)
  {
    WithStatusMembers(docs, Placed);
    WithStatusMembers(docs, Preparing);
  }

  /** Moving a stored order from PLACED to PREPARING moves it from the new
      orders to the orders being prepared in the next snapshot. */
  lemma StartPreparingMovesOrder(front: seq<Order>, o: Order, back: seq<Order>)
    requires o.status == Placed
    ensures o in WithStatus(front + [o] + back, Placed)
    ensures var p := o.(status := Preparing);
      p in WithStatus(front + [p] + back, Preparing) && p !in WithStatus(front + [p] + back, Placed)
  {
    var p := o.(status := Preparing);
    WithStatusMembers(front + [o] + back, Placed);
    WithStatusMembers(front + [p] + back, Preparing);
    WithStatusMembers(front + [p] + back, Placed);
  }

  class CafeteriaStaffViewModel {
    var newOrders: seq<Order>
    var preparingOrders: seq<Order>
    var isLoading: bool
    var isUploading: bool
    /** The `orders` collection. */
    var orders: map<string, Order>

    /** A fresh `StaffState()`; `init` starts both listeners. */
    constructor (orders: map<string, Order>)
      ensures newOrders == [] && preparingOrders == [] && isLoading && !isUploading
      ensures this.orders == orders
    {
      newOrders := [];
      preparingOrders := [];
      isLoading := true;
      isUploading := false;
      this.orders := orders;
    }

    /** The listener of `listenForNewOrders`, given the collection's
        documents: an error keeps the list, a missing snapshot empties it. */
    method OnNewOrdersEvent(event: ListenerEvent<Order>)
      modifies this`newOrders, this`isLoading
      ensures !isLoading
      ensures event.ListenError? ==> newOrders == old(newOrders)
      ensures event.NoSnapshot? ==> newOrders == []
      ensures event.Snapshot? ==> newOrders == WithStatus(event.docs, Placed)
    {
      if event.ListenError? {
        isLoading := false;
        return;
      }
      newOrders := if event.Snapshot? then WithStatus(event.docs, Placed) else [];
      isLoading := false;
    }

    /** The listener of `listenForPreparingOrders`, in the same way. */
    method OnPreparingOrdersEvent(event: ListenerEvent<Order>)
      modifies this`preparingOrders, this`isLoading
      ensures !isLoading
      ensures event.ListenError? ==> preparingOrders == old(preparingOrders)
      ensures event.NoSnapshot? ==> preparingOrders == []
      ensures event.Snapshot? ==> preparingOrders == WithStatus(event.docs, Preparing)
    {
      if event.ListenError? {
        isLoading := false;
        return;
      }
      preparingOrders := if event.Snapshot? then WithStatus(event.docs, Preparing) else [];
      isLoading := false;
    }

    /** `updateOrderStatus(orderId, newStatus)`: a blank id writes nothing,
        and an order that is not stored is not updated. */
    method UpdateOrderStatus(orderId: string, newStatus: string)
      modifies this`orders
      ensures IsBlank(orderId) || orderId !in old(orders) ==> orders == old(orders)
      ensures !IsBlank(orderId) && orderId in old(orders) ==>
        orders == old(orders)[orderId := old(orders)[orderId].(status := newStatus)]
    {
      if !IsBlank(orderId) && orderId in orders {
        orders := orders[orderId := orders[orderId].(status := newStatus)];
      }
    }
  }
}
