/**
 * Order totals and the two order listings of the dashboard: active orders
 * (an inner join with the live items) and closed orders (a left join).
 */
module OrderListing {
  import opened Wrappers
  import opened OrderItemModel
  import opened OrderModel
  import opened StatusCascade

  /** What one item contributes to its order's bill. */
  function LineTotal(it: OrderItem): int {
    it.price * it.amount
  }

  /** An item of the order that has not been cancelled. */
  predicate IsLive(it: OrderItem, orderId: nat) {
    it.orderId == orderId && it.status != ItemStatus.Cancelled
  }

  predicate HasLiveItem(items: seq<OrderItem>, orderId: nat) {
    exists k :: 0 <= k < |items| && IsLive(items[k], orderId)
  }

  /** SUM(price * amount) over the order's items that are not cancelled. */
  function OrderTotal(items: seq<OrderItem>, orderId: nat): int {
    if items == [] then 0
    else (if IsLive(items[0], orderId) then LineTotal(items[0]) else 0) + OrderTotal(items[1..], orderId)
  }

  /** The total adds up over any split of the table. */
  lemma {:induction false} TotalAppend(a: seq<OrderItem>, b: seq<OrderItem>, orderId: nat)
    ensures OrderTotal(a + b, orderId) == OrderTotal(a, orderId) + OrderTotal(b, orderId)
  {
    if a != [] {
      assert (a + b)[1..] == a[1..] + b;
      TotalAppend(a[1..], b, orderId);
    } else {
      assert a + b == b;
    }
  }

  /** Items of other orders and cancelled items never count. */
  lemma {:induction false} TotalWithoutLiveItems(items: seq<OrderItem>, orderId: nat)
    requires !HasLiveItem(items, orderId)
    ensures OrderTotal(items, orderId) == 0
  {
    if items != [] {
      assert !HasLiveItem(items[1..], orderId) by {
        forall k | 0 <= k < |items[1..]| ensures !IsLive(items[1..][k], orderId) {
          assert items[1..][k] == items[k + 1];
        }
      }
      TotalWithoutLiveItems(items[1..], orderId);
    }
  }

  /**
   * How a transition's cascade changes totals: cancelling an order drops its
   * total to zero; every other transition, and every transition of another
   * order, keeps the total.
   */
  lemma {:induction false} TotalUnderCascade(items: seq<OrderItem>, orderId: nat, target: OrderStatus, o: nat)
    ensures OrderTotal(Cascade(items, orderId, target), o) ==
      if target == OrderStatus.Cancelled && o == orderId then 0 else OrderTotal(items, o)
  {
    if items != [] {
      var r := Cascade(items, orderId, target);
      assert r[1..] == Cascade(items[1..], orderId, target);
      TotalUnderCascade(items[1..], orderId, target, o);
      ItemCascadeStable(target, items[0].status);
    }
  }

  /** Cancelling an order leaves it without live items. */
  lemma CancelLeavesNoLiveItem(items: seq<OrderItem>, orderId: nat)
    ensures !HasLiveItem(Cascade(items, orderId, OrderStatus.Cancelled), orderId)
  {
  }

  /** Statuses shown in the active listing. */
  predicate IsActive(s: OrderStatus) {
    s == OrderStatus.Pending || s == OrderStatus.Preparing || s == OrderStatus.Served
  }

  /** Statuses shown in the closed listing. */
  predicate IsClosed(s: OrderStatus) {
    s == OrderStatus.Cancelled || s == OrderStatus.Paid
  }

  /** Every status belongs to exactly one of the two listings. */
  lemma StatusesPartition(s: OrderStatus)
    ensures IsActive(s) <==> !IsClosed(s)
  {
  }

  datatype Listing = ActiveListing | ClosedListing

  /**
   * Whether an order is a row of a listing of a restaurant. The active listing
   * joins with the live items, so an order without any is not shown; the closed
   * listing's left join keeps such an order.
   */
  predicate Shows(listing: Listing, o: Order, items: seq<OrderItem>, restaurantId: nat) {
    o.restaurantId == restaurantId &&
    match listing
    case ActiveListing => IsActive(o.status) && HasLiveItem(items, o.id)
    case ClosedListing => IsClosed(o.status)
  }

  /** A listed order with its total; a sum over no rows is NULL. */
  datatype ListedOrder = ListedOrder(order: Order, total: Option<int>)

  function RowTotal(items: seq<OrderItem>, orderId: nat): Option<int> {
    if HasLiveItem(items, orderId) then Some(OrderTotal(items, orderId)) else None
  }

  /** getOrders and getClosedOrders, without their sort order. */
  function ListOrders(orders: seq<Order>, items: seq<OrderItem>, restaurantId: nat, listing: Listing)
    : (rows: seq<ListedOrder>)
    ensures |rows| <= |orders|
    ensures forall row :: row in rows ==>
      row.order in orders && Shows(listing, row.order, items, restaurantId)
      && row.total == RowTotal(items, row.order.id)
    ensures forall o :: o in orders && Shows(listing, o, items, restaurantId) ==>
      ListedOrder(o, RowTotal(items, o.id)) in rows
  {
    if orders == [] then []
    else
      var rest := ListOrders(orders[1..], items, restaurantId, listing);
      if Shows(listing, orders[0], items, restaurantId)
      then [ListedOrder(orders[0], RowTotal(items, orders[0].id))] + rest
      else rest
  }

  /** An active-listing row always carries the sum of its live items. */
  lemma ActiveRowsHaveTotals(orders: seq<Order>, items: seq<OrderItem>, restaurantId: nat)
    ensures forall row :: row in ListOrders(orders, items, restaurantId, ActiveListing) ==>
      row.total == Some(OrderTotal(items, row.order.id))
  {
  }

  /**
   * The closed listing shows every cancelled or paid order of the restaurant,
   * with the sum of its live items when it has any.
   */
  lemma ClosedListingKeepsEveryClosedOrder(orders: seq<Order>, items: seq<OrderItem>, restaurantId: nat, o: Order)
    requires o in orders && o.restaurantId == restaurantId && IsClosed(o.status)
    ensures ListedOrder(o, RowTotal(items, o.id)) in ListOrders(orders, items, restaurantId, ClosedListing)
    ensures HasLiveItem(items, o.id) ==> RowTotal(items, o.id) == Some(OrderTotal(items, o.id))
  {
  }

  /** No order is shown both as active and as closed. */
  lemma ListingsDisjoint(orders: seq<Order>, items: seq<OrderItem>, restaurantId: nat)
    requires UniqueOrderIds(orders)
    ensures forall a, b ::
      (a in ListOrders(orders, items, restaurantId, ActiveListing) &&
       b in ListOrders(orders, items, restaurantId, ClosedListing)) ==> a.order.id != b.order.id
  {
    var active := ListOrders(orders, items, restaurantId, ActiveListing);
    var closed := ListOrders(orders, items, restaurantId, ClosedListing);
    forall a, b | a in active && b in closed
      ensures a.order.id != b.order.id
    {
      var i :| 0 <= i < |orders| && orders[i] == a.order;
      var j :| 0 <= j < |orders| && orders[j] == b.order;
      assert i != j;
    }
  }

  /**
   * An order still open whose items are all cancelled, or that has no item
   * yet, appears in neither listing.
   */
  lemma OpenOrderWithoutLiveItemsHidden(orders: seq<Order>, items: seq<OrderItem>, restaurantId: nat, o: Order)
    requires UniqueOrderIds(orders)
    requires o in orders && IsActive(o.status) && !HasLiveItem(items, o.id)
    ensures forall row :: row in ListOrders(orders, items, restaurantId, ActiveListing) ==> row.order.id != o.id
    ensures forall row :: row in ListOrders(orders, items, restaurantId, ClosedListing) ==> row.order.id != o.id
  {
    forall row | row in ListOrders(orders, items, restaurantId, ClosedListing)
      ensures row.order.id != o.id
    {
      var i :| 0 <= i < |orders| && orders[i] == row.order;
      var j :| 0 <= j < |orders| && orders[j] == o;
      assert i != j;
    }
  }
}
