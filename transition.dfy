/**
 * updateOrderItemStatus as a step on the two tables: the ajax guard, the
 * lookup of the order, the authorization outcome, the overwrite of the
 * order's status and the cascade to its items.
 */
module OrderTransition {
  import opened Wrappers
  import opened OrderItemModel
  import opened OrderModel
  import opened StatusCascade

  /** The four controller actions and the order status each one requests. */
  datatype Transition = Prepare | Serve | Pay | Cancel

  function Target(t: Transition): (s: OrderStatus)
    ensures s != OrderStatus.Pending
    ensures t == Cancel <==> s == OrderStatus.Cancelled
  {
    match t
    case Prepare => OrderStatus.Preparing
    case Serve => OrderStatus.Served
    case Pay => OrderStatus.Paid
    case Cancel => OrderStatus.Cancelled
  }

  /** Each action requests its own status. */
  lemma TargetInjective(t: Transition, u: Transition)
    ensures Target(t) == Target(u) ==> t == u
  {
  }

  datatype Body = SuccessMessage(text: string) | ErrorMessage(text: string)

  /**
   * What a request to the controller ends in: a JSON reply with its HTTP
   * status, a redirect to the order's items page, or one of the errors the
   * framework turns into a response.
   */
  datatype Outcome =
    | Json(code: int, body: Body)
    | RedirectToItems(orderId: nat)
    | NotFound
    | Forbidden
    | ValidationError
    | Conflict

  /** The orders and order_items tables. */
  datatype Tables = Tables(orders: seq<Order>, items: seq<OrderItem>)

  datatype Step = Step(tables: Tables, outcome: Outcome)

  function BadRequest(trans: string -> string): Outcome {
    Json(400, ErrorMessage(trans("messages.badRequest")))
  }

  function Updated(trans: string -> string): Outcome {
    Json(200, SuccessMessage(trans("messages.successfullyUpdated")))
  }

  /**
   * The effect of one request: `ajax` is whether it came from an asynchronous
   * call, `authorized` the verdict of the update policy on the order, `now`
   * the clock and `trans` the translation service.
   */
  function Transitioned(t: Tables, id: nat, status: OrderStatus, ajax: bool, authorized: bool, now: int,
                        trans: string -> string): Step
  {
    if !ajax then Step(t, BadRequest(trans))
    else match IndexOf(t.orders, id)
      case None => Step(t, NotFound)
      case Some(i) =>
        if !authorized then Step(t, Forbidden)
        else
          var order := Saved(t.orders[i], status, now);
          Step(Tables(t.orders[i := order], Cascade(t.items, order.id, status)), Updated(trans))
  }

  /** A request that is not an ajax call changes nothing and is answered with a 400 error. */
  lemma NonAjaxChangesNothing(t: Tables, id: nat, status: OrderStatus, authorized: bool, now: int,
                              trans: string -> string)
    ensures Transitioned(t, id, status, false, authorized, now, trans) == Step(t, BadRequest(trans))
  {
  }

  /** A missing order or a refused authorization changes nothing either. */
  lemma RefusedRequestChangesNothing(t: Tables, id: nat, status: OrderStatus, authorized: bool, now: int,
                                     trans: string -> string)
    requires IndexOf(t.orders, id).None? || !authorized
    ensures Transitioned(t, id, status, true, authorized, now, trans).tables == t
    ensures Transitioned(t, id, status, true, authorized, now, trans).outcome in {NotFound, Forbidden}
  {
  }

  /**
   * An accepted request overwrites the order's status with the requested one,
   * whatever it was before, leaves every other order as it was, and cascades
   * to exactly the order's items.
   */
  lemma AcceptedRequest(t: Tables, id: nat, status: OrderStatus, now: int, trans: string -> string, k: nat)
    requires UniqueOrderIds(t.orders)
    requires k < |t.orders| && t.orders[k].id == id
    ensures var s := Transitioned(t, id, status, true, true, now, trans);
      && s.outcome == Updated(trans)
      && |s.tables.orders| == |t.orders|
      && s.tables.orders[k].status == status
      && s.tables.orders[k].id == id
      && (forall j :: 0 <= j < |t.orders| && j != k ==> s.tables.orders[j] == t.orders[j])
      && s.tables.items == Cascade(t.items, id, status)
  {
    var i := IndexOf(t.orders, id).value;
    assert i == k;
  }

  /**
   * Repeating an accepted request, later or not, gives the state the first one
   * left; in particular cancelling twice is cancelling once.
   */
  lemma TransitionIdempotent(t: Tables, id: nat, status: OrderStatus, now: int, later: int, trans: string -> string)
    requires UniqueOrderIds(t.orders)
    ensures var once := Transitioned(t, id, status, true, true, now, trans).tables;
      Transitioned(once, id, status, true, true, later, trans).tables == once
  {
    var once := Transitioned(t, id, status, true, true, now, trans).tables;
    match IndexOf(t.orders, id)
    case None =>
    case Some(i) =>
      var order := Saved(t.orders[i], status, now);
      assert IndexOf(once.orders, id) == Some(i) by {
        assert once.orders[i].id == id;
        var j := IndexOf(once.orders, id).value;
        assert t.orders[j].id == id;
      }
      CascadeIdempotent(t.items, order.id, status);
      assert Saved(order, status, later) == order;
      assert once.orders[i := order] == once.orders;
  }
}
