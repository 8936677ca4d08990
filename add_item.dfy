/**
 * Building the order item that addItem saves: validation of the request,
 * lookup of the menu item, and the snapshot of its price.
 */
module NewOrderItem {
  import opened Wrappers
  import opened OrderItemModel
  import opened OrderListing

  /** The request fields; a field the client did not send is None. */
  datatype AddItemRequest = AddItemRequest(itemId: Option<int>, quantity: Option<int>, comment: Option<string>)

  /** A menu item as far as ordering it is concerned: its current price. */
  datatype MenuItem = MenuItem(price: int)

  datatype AddItemError = ValidationFailed | MenuItemNotFound

  /** item_id is required and at least 1; quantity, when sent, is at least 1. */
  predicate ValidRequest(req: AddItemRequest) {
    req.itemId.Some? && req.itemId.value >= 1 &&
    (req.quantity.Some? ==> req.quantity.value >= 1)
  }

  /**
   * The new row, or why there is none. `id` is the row id the table assigns and
   * `menu` the menu items by id. The order id is taken as given; the order
   * itself is not looked up.
   */
  function MakeOrderItem(id: nat, orderId: nat, req: AddItemRequest, menu: map<nat, MenuItem>)
    : (r: Result<OrderItem, AddItemError>)
    ensures r == Failure(ValidationFailed) <==> !ValidRequest(req)
    ensures r == Failure(MenuItemNotFound) <==> ValidRequest(req) && req.itemId.value !in menu
    ensures r.Success? ==>
      var it := r.value;
      var menuId := req.itemId.value;
      && menuId in menu
      && it.id == id && it.orderId == orderId && it.itemId == menuId
      && it.status == ItemStatus.Pending
      && it.price == menu[menuId].price
      && it.amount == (if req.quantity.Some? then req.quantity.value else 1)
      && it.amount >= 1
      && it.comment == (if req.comment.Some? then req.comment.value else "")
  {
    if !ValidRequest(req) then Failure(ValidationFailed)
    else
      var menuId: nat := req.itemId.value;
      if menuId !in menu then Failure(MenuItemNotFound)
      else
        Success(OrderItem(
          id := id,
          orderId := orderId,
          itemId := menuId,
          price := menu[menuId].price,
          amount := req.quantity.GetOr(1),
          status := ItemStatus.Pending,
          comment := req.comment.GetOr("")))
  }

  /**
   * Adding the item raises the order's total by the snapshot price times the
   * quantity, and leaves every other order's total as it was.
   */
  lemma AddedItemTotal(items: seq<OrderItem>, id: nat, orderId: nat, req: AddItemRequest, menu: map<nat, MenuItem>, o: nat)
    requires MakeOrderItem(id, orderId, req, menu).Success?
    ensures var it := MakeOrderItem(id, orderId, req, menu).value;
      OrderTotal(items + [it], o) ==
        OrderTotal(items, o) + (if o == orderId then menu[it.itemId].price * it.amount else 0)
  {
    var it := MakeOrderItem(id, orderId, req, menu).value;
    TotalAppend(items, [it], o);
  }
}
