/**
 * The order entity as the controller uses it, and the explicit correspondence
 * between order statuses and order item statuses.
 */
module OrderModel {
  import opened Wrappers
  import opened OrderItemModel

  /** Order statuses; unlike an item, an order can be Paid. */
  datatype OrderStatus = Pending | Preparing | Served | Paid | Cancelled

  /** A row of the orders table; `updatedAt` is a timestamp in seconds. */
  datatype Order = Order(
    id: nat,
    restaurantId: nat,
    tableNumber: int,
    comment: string,
    status: OrderStatus,
    updatedAt: int)

  /** The item status an order status stands for; Paid has none. */
  function ItemCounterpart(s: OrderStatus): (r: Option<ItemStatus>)
    ensures r.None? <==> s == OrderStatus.Paid
  {
    match s
    case Pending => Some(ItemStatus.Pending)
    case Preparing => Some(ItemStatus.Preparing)
    case Served => Some(ItemStatus.Served)
    case Paid => None
    case Cancelled => Some(ItemStatus.Cancelled)
  }

  /** The order status an item status stands for. */
  function OrderCounterpart(s: ItemStatus): (r: OrderStatus)
    ensures r != OrderStatus.Paid
  {
    match s
    case Pending => OrderStatus.Pending
    case Preparing => OrderStatus.Preparing
    case Served => OrderStatus.Served
    case Cancelled => OrderStatus.Cancelled
  }

  /** The correspondence is a bijection between item statuses and the order statuses other than Paid. */
  lemma CounterpartRoundTrip(s: ItemStatus, t: OrderStatus)
    ensures ItemCounterpart(OrderCounterpart(s)) == Some(s)
    ensures t != OrderStatus.Paid ==> OrderCounterpart(ItemCounterpart(t).value) == t
  {
  }

  /** Order ids are the table's primary key. */
  ghost predicate UniqueOrderIds(orders: seq<Order>) {
    forall j, k :: 0 <= j < k < |orders| ==> orders[j].id != orders[k].id
  }

  /**
   * Assigning a status and saving: the status is overwritten whatever it was,
   * and the save stamps updated_at with the clock `now` only when the status
   * actually changed (a save of an unchanged record writes nothing).
   */
  function Saved(o: Order, status: OrderStatus, now: int): (r: Order)
    ensures r.status == status
    ensures r.id == o.id && r.restaurantId == o.restaurantId
    ensures r.tableNumber == o.tableNumber && r.comment == o.comment
    ensures r.updatedAt == if o.status == status then o.updatedAt else now
  {
    if o.status == status then o else o.(status := status, updatedAt := now)
  }

  /** Finds the order with the given id (findOrFail), if there is one. */
  function IndexOf(orders: seq<Order>, id: nat): (r: Option<nat>)
    ensures r.Some? ==> r.value < |orders| && orders[r.value].id == id
    ensures r.None? ==> forall k :: 0 <= k < |orders| ==> orders[k].id != id
  {
    if orders == [] then None
    else if orders[|orders| - 1].id == id then Some(|orders| - 1)
    else IndexOf(orders[..|orders| - 1], id)
  }
}
