/**
 * latestUpdate: whether any order of a restaurant changed after a timestamp
 * the dashboard last saw, and whether such an order is pending or preparing.
 */
module Polling {
  import opened Wrappers
  import opened OrderModel

  /** An order of the restaurant saved after `latest`. */
  predicate UpdatedSince(o: Order, restaurantId: nat, latest: int) {
    o.restaurantId == restaurantId && o.updatedAt > latest
  }

  /** The exists() query, optionally narrowed to one status. */
  predicate AnyUpdated(orders: seq<Order>, restaurantId: nat, latest: int, status: Option<OrderStatus>)
    ensures AnyUpdated(orders, restaurantId, latest, status) <==>
      exists o :: o in orders && UpdatedSince(o, restaurantId, latest) && (status.Some? ==> o.status == status.value)
  {
    if orders == [] then false
    else
      (UpdatedSince(orders[0], restaurantId, latest) && (status.Some? ==> orders[0].status == status.value))
      || AnyUpdated(orders[1..], restaurantId, latest, status)
  }

  /** The JSON reply; `pendingOrdersAmount` is null when nothing changed. */
  datatype UpdateReport = UpdateReport(
    time: int,
    orderUpdatesExist: bool,
    pendingOrdersAmount: Option<nat>,
    newPendingOrder: bool,
    newPreparingOrder: bool)

  /**
   * The reply for the clock reading `now` and the last-seen timestamp `latest`;
   * `pendingCount` is what the pending-orders count of the restaurant returns.
   */
  function LatestUpdate(orders: seq<Order>, restaurantId: nat, latest: int, now: int, pendingCount: nat)
    : (r: UpdateReport)
    ensures r.time == now
    ensures r.orderUpdatesExist <==> exists o :: o in orders && UpdatedSince(o, restaurantId, latest)
    ensures !r.orderUpdatesExist ==>
      r.pendingOrdersAmount == None && !r.newPendingOrder && !r.newPreparingOrder
    ensures r.orderUpdatesExist ==> r.pendingOrdersAmount == Some(pendingCount)
    ensures r.newPendingOrder <==>
      exists o :: o in orders && UpdatedSince(o, restaurantId, latest) && o.status == OrderStatus.Pending
    ensures r.newPreparingOrder <==>
      exists o :: o in orders && UpdatedSince(o, restaurantId, latest) && o.status == OrderStatus.Preparing
    ensures r.newPendingOrder || r.newPreparingOrder ==> r.orderUpdatesExist
  {
    var orderExists := AnyUpdated(orders, restaurantId, latest, None);
    if orderExists then
      UpdateReport(
        now, true, Some(pendingCount),
        AnyUpdated(orders, restaurantId, latest, Some(OrderStatus.Pending)),
        AnyUpdated(orders, restaurantId, latest, Some(OrderStatus.Preparing)))
    else
      UpdateReport(now, false, None, false, false)
  }

  /**
   * A transition that changes an order's status at a time after `latest` is
   * reported to the dashboard, and flagged when it made the order pending or
   * preparing.
   */
  lemma TransitionIsReported(orders: seq<Order>, i: nat, status: OrderStatus, now: int, latest: int, pendingCount: nat)
    requires i < |orders| && orders[i].status != status && now > latest
    ensures var r := LatestUpdate(orders[i := Saved(orders[i], status, now)], orders[i].restaurantId, latest, now, pendingCount);
      && r.orderUpdatesExist
      && r.pendingOrdersAmount == Some(pendingCount)
      && (status == OrderStatus.Pending ==> r.newPendingOrder)
      && (status == OrderStatus.Preparing ==> r.newPreparingOrder)
  {
    var after := orders[i := Saved(orders[i], status, now)];
    assert after[i] in after;
  }
}
