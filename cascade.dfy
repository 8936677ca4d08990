/**
 * How a change of an order's status carries over to the statuses of that
 * order's items: the switch in updateOrderItemStatus, applied as one bulk
 * update of the order_items rows.
 */
module StatusCascade {
  import opened Wrappers
  import opened OrderItemModel
  import opened OrderModel

  function Min(a: int, b: int): int {
    if a <= b then a else b
  }

  /**
   * The item status a target order status pushes live items to, translated
   * explicitly: an order's own counterpart, and Served for Paid, which items lack.
   */
  function RaisedTo(target: OrderStatus): ItemStatus {
    match ItemCounterpart(target)
    case Some(s) => s
    case None => ItemStatus.Served
  }

  /**
   * The per-item rule of the switch. Because the codes descend along an item's
   * life (Pending 5, Preparing 4, Served 3, Cancelled 0), the rule amounts to
   * "take whichever of the item's status and the raised-to status is further
   * along": lower code wins, so nothing moves backwards and Cancelled absorbs.
   */
  function ItemCascade(target: OrderStatus, s: ItemStatus): (r: ItemStatus)
    ensures Code(r) == Min(Code(s), Code(RaisedTo(target)))
  {
    match target
    case Preparing =>
      if s == ItemStatus.Pending then ItemStatus.Preparing else s
    case Served | Paid =>
      if s == ItemStatus.Pending || s == ItemStatus.Preparing then ItemStatus.Served else s
    case Cancelled =>
      if s != ItemStatus.Cancelled then ItemStatus.Cancelled else s
    case Pending =>
      s
  }

  /** A cancelled item stays cancelled, and the rule is idempotent. */
  lemma ItemCascadeStable(target: OrderStatus, s: ItemStatus)
    ensures s == ItemStatus.Cancelled ==> ItemCascade(target, s) == ItemStatus.Cancelled
    ensures ItemCascade(target, ItemCascade(target, s)) == ItemCascade(target, s)
  {
    CodeInjective(ItemCascade(target, ItemCascade(target, s)), ItemCascade(target, s));
  }

  /** One row of the bulk update: only rows of the order are rewritten, and only their status. */
  function CascadeItem(it: OrderItem, orderId: nat, target: OrderStatus): OrderItem {
    if it.orderId == orderId then it.(status := ItemCascade(target, it.status)) else it
  }

  /** The bulk update of the order_items table for one order. */
  function Cascade(items: seq<OrderItem>, orderId: nat, target: OrderStatus): (r: seq<OrderItem>)
    ensures |r| == |items|
    ensures forall k :: 0 <= k < |items| ==> r[k] == CascadeItem(items[k], orderId, target)
  {
    if items == [] then []
    else [CascadeItem(items[0], orderId, target)] + Cascade(items[1..], orderId, target)
  }

  /** Prepare turns exactly the order's Pending items into Preparing. */
  lemma PrepareCascade(items: seq<OrderItem>, orderId: nat)
    ensures forall k :: 0 <= k < |items| ==>
      Cascade(items, orderId, OrderStatus.Preparing)[k] ==
        if items[k].orderId == orderId && items[k].status == ItemStatus.Pending
        then items[k].(status := ItemStatus.Preparing)
        else items[k]
  {
  }

  /** Serve and pay both turn exactly the order's Pending and Preparing items into Served. */
  lemma ServeAndPayCascade(items: seq<OrderItem>, orderId: nat, target: OrderStatus)
    requires target == OrderStatus.Served || target == OrderStatus.Paid
    ensures forall k :: 0 <= k < |items| ==>
      Cascade(items, orderId, target)[k] ==
        if items[k].orderId == orderId
           && (items[k].status == ItemStatus.Pending || items[k].status == ItemStatus.Preparing)
        then items[k].(status := ItemStatus.Served)
        else items[k]
  {
  }

  /** Cancel leaves every item of the order Cancelled and touches no other row. */
  lemma CancelCascade(items: seq<OrderItem>, orderId: nat)
    ensures forall k :: 0 <= k < |items| ==>
      Cascade(items, orderId, OrderStatus.Cancelled)[k] ==
        if items[k].orderId == orderId then items[k].(status := ItemStatus.Cancelled) else items[k]
  {
  }

  /** A target status that no case of the switch names leaves every item alone. */
  lemma PendingTargetCascadesNothing(items: seq<OrderItem>, orderId: nat)
    ensures Cascade(items, orderId, OrderStatus.Pending) == items
  {
  }

  /**
   * Frame of the bulk update: rows of other orders and cancelled rows are
   * untouched, and no row changes anything but its status.
   */
  lemma CascadeFrame(items: seq<OrderItem>, orderId: nat, target: OrderStatus)
    ensures forall k :: 0 <= k < |items| && items[k].orderId != orderId ==>
      Cascade(items, orderId, target)[k] == items[k]
    ensures forall k :: 0 <= k < |items| && items[k].status == ItemStatus.Cancelled ==>
      Cascade(items, orderId, target)[k] == items[k]
    ensures forall k :: 0 <= k < |items| ==>
      Cascade(items, orderId, target)[k] == items[k].(status := Cascade(items, orderId, target)[k].status)
  {
  }

  /**
   * After the cascade every item of the order is at least as far along as the
   * target, and no item has moved backwards.
   */
  lemma CascadeReachesTarget(items: seq<OrderItem>, orderId: nat, target: OrderStatus)
    ensures forall k :: 0 <= k < |items| && items[k].orderId == orderId ==>
      Code(Cascade(items, orderId, target)[k].status) <= Code(RaisedTo(target))
    ensures forall k :: 0 <= k < |items| ==>
      Code(Cascade(items, orderId, target)[k].status) <= Code(items[k].status)
  {
  }

  /** Applying the same transition twice gives the state of applying it once. */
  lemma {:induction false} CascadeIdempotent(items: seq<OrderItem>, orderId: nat, target: OrderStatus)
    ensures Cascade(Cascade(items, orderId, target), orderId, target) == Cascade(items, orderId, target)
  {
    var once := Cascade(items, orderId, target);
    var twice := Cascade(once, orderId, target);
    forall k | 0 <= k < |items|
      ensures twice[k] == once[k]
    {
      ItemCascadeStable(target, items[k].status);
    }
  }
}
