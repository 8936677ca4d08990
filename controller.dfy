/**
 * The order controller's handlers that change or render the tables, on an
 * object that holds the orders and order_items tables.
 */
module OrderController {
  import opened Wrappers
  import opened OrderItemModel
  import opened OrderModel
  import opened StatusCascade
  import opened OrderListing
  import opened InvoiceQuery
  import opened NewOrderItem
  import opened OrderTransition

  /** Item ids are the table's primary key. */
  ghost predicate UniqueItemIds(items: seq<OrderItem>) {
    forall j, k :: 0 <= j < k < |items| ==> items[j].id != items[k].id
  }

  /** What the invoice handler ends in. */
  datatype InvoiceOutcome = Rendered(view: InvoiceView) | InvoiceNotFound | InvoiceForbidden

  class OrderStore {
    var orders: seq<Order>
    var items: seq<OrderItem>
    /** The id the next saved order item receives. */
    var nextItemId: nat

    ghost predicate Valid()
      reads this
    {
      && UniqueOrderIds(orders)
      && UniqueItemIds(items)
      && (forall k :: 0 <= k < |items| ==> items[k].id < nextItemId)
    }

    constructor (orders0: seq<Order>, items0: seq<OrderItem>, next: nat)
      requires UniqueOrderIds(orders0) && UniqueItemIds(items0)
      requires forall k :: 0 <= k < |items0| ==> items0[k].id < next
      ensures Valid()
      ensures orders == orders0 && items == items0 && nextItemId == next
    {
      orders, items, nextItemId := orders0, items0, next;
    }

    /**
     * updateOrderItemStatus: guard, look up, authorize, overwrite the order's
     * status and save it, then rewrite its items' statuses in bulk.
     */
    method UpdateOrderItemStatus(id: nat, status: OrderStatus, ajax: bool, authorized: bool, now: int,
                                 trans: string -> string) returns (out: Outcome)
      requires Valid()
      modifies this
      ensures Valid() && nextItemId == old(nextItemId)
      ensures Step(Tables(orders, items), out) ==
        Transitioned(Tables(old(orders), old(items)), id, status, ajax, authorized, now, trans)
    {
      if !ajax {
        out := BadRequest(trans);
        return;
      }
      var found := IndexOf(orders, id);
      if found.None? {
        out := NotFound;
        return;
      }
      if !authorized {
        out := Forbidden;
        return;
      }
      var i := found.value;
      var order := orders[i];
      order := Saved(order, status, now);
      orders := orders[i := order];
      CascadeFrame(items, order.id, status);
      items := Cascade(items, order.id, status);
      out := Updated(trans);
    }

    /** The prepare, serve, pay and cancel actions. */
    method Act(t: Transition, id: nat, ajax: bool, authorized: bool, now: int, trans: string -> string)
      returns (out: Outcome)
      requires Valid()
      modifies this
      ensures Valid() && nextItemId == old(nextItemId)
      ensures Step(Tables(orders, items), out) ==
        Transitioned(Tables(old(orders), old(items)), id, Target(t), ajax, authorized, now, trans)
    {
      out := UpdateOrderItemStatus(id, Target(t), ajax, authorized, now, trans);
    }

    /**
     * addItem: validate, look up the menu item, build the row and save it;
     * `saved` is whether the save succeeds.
     */
    method AddItem(orderId: nat, req: AddItemRequest, menu: map<nat, MenuItem>, saved: bool)
      returns (out: Outcome)
      requires Valid()
      modifies this
      ensures Valid() && orders == old(orders)
      ensures match MakeOrderItem(old(nextItemId), orderId, req, menu)
        case Failure(ValidationFailed) =>
          out == ValidationError && items == old(items) && nextItemId == old(nextItemId)
        case Failure(MenuItemNotFound) =>
          out == NotFound && items == old(items) && nextItemId == old(nextItemId)
        case Success(it) =>
          if saved
          then out == RedirectToItems(orderId) && items == old(items) + [it] && nextItemId == old(nextItemId) + 1
          else out == Conflict && items == old(items) && nextItemId == old(nextItemId)
    {
      var made := MakeOrderItem(nextItemId, orderId, req, menu);
      match made
      case Failure(ValidationFailed) =>
        out := ValidationError;
      case Failure(MenuItemNotFound) =>
        out := NotFound;
      case Success(it) =>
        if !saved {
          out := Conflict;
          return;
        }
        items := items + [it];
        nextItemId := nextItemId + 1;
        out := RedirectToItems(orderId);
    }

    /**
     * invoice: find the order and its total, check the policy on it, collect
     * the lines, then pass every money value through the price formatter `fix`.
     * `names` holds the item names in the current locale.
     */
    method Invoice(id: nat, authorized: bool, names: map<nat, string>, fix: int -> string)
      returns (out: InvoiceOutcome)
      ensures InvoiceOrder(orders, items, id).None? ==> out == InvoiceNotFound
      ensures InvoiceOrder(orders, items, id).Some? && !authorized ==> out == InvoiceForbidden
      ensures InvoiceOrder(orders, items, id).Some? && authorized ==>
        var lines := InvoiceLines(items, id, names);
        && out.Rendered?
        && out.view.order == InvoiceOrder(orders, items, id).value
        && out.view.total == Shown(fix(OrderTotal(items, id)))
        && |out.view.lines| == |lines|
        && forall k :: 0 <= k < |lines| ==> out.view.lines[k] == PrintLine(lines[k], fix)
    {
      var found := InvoiceOrder(orders, items, id);
      if found.None? {
        return InvoiceNotFound;
      }
      if !authorized {
        return InvoiceForbidden;
      }
      var lines := InvoiceLines(items, id, names);
      var rows := new InvoiceLine[|lines|](k requires 0 <= k < |lines| => lines[k]);
      var i := 0;
      while i < rows.Length
        invariant 0 <= i <= rows.Length
        invariant forall k :: 0 <= k < i ==> rows[k] == PrintLine(lines[k], fix)
        invariant forall k :: i <= k < rows.Length ==> rows[k] == lines[k]
      {
        rows[i] := PrintLine(rows[i], fix);
        i := i + 1;
      }
      out := Rendered(InvoiceView(found.value, Shown(fix(OrderTotal(items, id))), rows[..]));
    }
  }
}
