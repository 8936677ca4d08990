# Restaurant dashboard orders: a Dafny model

This project models the order workflow of a restaurant administration
dashboard written in PHP (Laravel). Staff advance an order through its
states (prepare, serve, pay, cancel), and each change of the order's status
cascades to the statuses of the order's items. The model also covers:

- adding an item to an order, with the menu price copied onto it;
- the active and closed order listings and their totals;
- the invoice;
- the polling endpoint that tells the dashboard whether anything changed.

Modules:

- `OrderItemModel` (`order_item.dfy`): the item status enum and its stored codes
  (Cancelled 0, Served 3, Preparing 4, Pending 5), `getStatusKey`, `getStatusText`,
  and the order item row.
- `OrderModel` (`order.dfy`): the order row and its own status enum, which adds
  Paid. It also holds the explicit correspondence between the two enums, the
  save of a new status, and the lookup by id.
- `StatusCascade` (`cascade.dfy`): the per-item rule of the status switch and
  the bulk update of the order's item rows.
- `OrderListing` (`listing.dfy`): the order total, the active and closed
  status sets, and the two listings.
- `InvoiceQuery` (`invoice.dfy`): the invoice's order row, its lines, and the
  formatting of money values.
- `NewOrderItem` (`add_item.dfy`): validation and construction of the row that
  `addItem` saves.
- `Polling` (`polling.dfy`): `latestUpdate`.
- `OrderTransition` (`transition.dfy`): `updateOrderItemStatus` as a step on
  the two tables, plus the four actions that call it.
- `OrderController` (`controller.dfy`): the class `OrderStore`, which holds the
  tables as fields. Its methods change them in place (the status transition,
  `addItem`) or render from them (the invoice, with its formatting loop over an
  array of lines).

Key points of the model:

- The per-item cascade rule is specified independently of the switch that
  implements it. The stored codes descend along an item's life, so the new
  status is whichever of "the item's status" and "the status the order's
  target raises items to" has the lower code. Paid raises items to Served.
  So no item ever moves backwards, and Cancelled absorbs everything.
- Paying an order does cascade. The `case` for Served falls through into
  Paid (`OrderController.php:327-331`), so the order's Pending and Preparing
  items become Served, exactly as when it is served.
- No transition checks the order's current status. The model keeps this
  permissiveness.
- The numeric value of the order status Paid is not known. `Order.php` is not
  part of this model. Order statuses therefore carry no codes; they relate to
  item statuses only through `ItemCounterpart` and `OrderCounterpart`.
- External collaborators are parameters:
  - `trans`: translation;
  - `fix`: the price formatter;
  - `authorized`: the policy verdict;
  - `ajax`: the request flag;
  - `now`: the clock;
  - `pendingCount`: the pending-orders count;
  - `saved`: whether the save succeeds;
  - `names`: the item names in the current locale.
- Saving an order stamps `updated_at` with `now` only when its status actually
  changed. This is the framework's save behaviour, and the polling endpoint
  depends on it.
- The joins are modelled:
  - The active listing and the invoice use an inner join with the live
    (non-cancelled) items. So an open order with no live item is not listed,
    and has no invoice.
  - The closed listing uses a left join. It shows such an order with a NULL
    total.

## Model

| member | source | states |
|---|---|---|
| `OrderItemModel.Code` | OrderItem.php:11-15 | helper without a contract of its own: the stored code of each status (Cancelled 0, Served 3, Preparing 4, Pending 5); its properties are FromCode, CodeInjective, FromCodeRoundTrip and CodesDescend |
| `OrderItemModel.FromCode` | OrderItem.php:11-15 | a stored code has a status exactly when it is 0, 3, 4 or 5, and that status is stored as that code |
| `OrderItemModel.CodeInjective` | OrderItem.php:11-15 | the four status constants are pairwise distinct |
| `OrderItemModel.FromCodeRoundTrip` | OrderItem.php:11-15 | decoding the stored code of a status gives that status back |
| `OrderItemModel.CodesDescend` | OrderItem.php:11-15 | Pending > Preparing > Served > Cancelled numerically, the order the descending status sort relies on |
| `OrderItemModel.GetStatusKey` | OrderItem.php:28-37 | a known code maps to its name (0 Cancelled, 3 Served, 4 Preparing, 5 Pending); any other code is returned unchanged |
| `OrderItemModel.GetStatusKeyInjective` | OrderItem.php:30-36 | two codes with the same key are the same code |
| `OrderItemModel.StatusTexts` | OrderItem.php:17-26 | helper without a contract of its own: getStatusTexts, the map from the four codes to their translated labels; used by GetStatusText |
| `OrderItemModel.GetStatusText` | OrderItem.php:49-51 | a known status gives its translated label (key as in getStatusTexts), any other value gives the raw value |
| `OrderModel.ItemCounterpart` | OrderItem.php:10-15 | every order status but Paid has an item counterpart; Paid has none |
| `OrderModel.OrderCounterpart` | OrderItem.php:10-15 | no item status corresponds to Paid |
| `OrderModel.CounterpartRoundTrip` | OrderItem.php:10-15 | the correspondence is a bijection between item statuses and the order statuses other than Paid |
| `OrderModel.Saved` | OrderController.php:318-319 | the saved order has the requested status whatever it had, keeps its other fields, and gets a new updated_at only if the status changed |
| `OrderModel.IndexOf` | OrderController.php:314 | the lookup finds an order with the id, or there is none |
| `StatusCascade.ItemCascade` | OrderController.php:321-338 | the new status's code is the minimum of the item's code and the code of the status the target raises items to (Paid raises to Served) |
| `StatusCascade.ItemCascadeStable` | OrderController.php:321-338 | a Cancelled item stays Cancelled under every target, and applying the rule twice equals applying it once |
| `StatusCascade.Cascade` | OrderController.php:321-338 | the bulk update keeps the table's length and rewrites each row of the order by the per-item rule, leaving other rows alone |
| `StatusCascade.PrepareCascade` | OrderController.php:322-326 | prepare turns exactly the order's Pending items into Preparing; every other row is unchanged |
| `StatusCascade.ServeAndPayCascade` | OrderController.php:327-332 | serve and pay both turn exactly the order's Pending and Preparing items into Served; every other row is unchanged |
| `StatusCascade.CancelCascade` | OrderController.php:333-337 | cancel makes every item of the order Cancelled and changes no other row |
| `StatusCascade.PendingTargetCascadesNothing` | OrderController.php:321-338 | a target no case of the switch names leaves the table unchanged |
| `StatusCascade.CascadeFrame` | OrderController.php:323-335 | rows of other orders and Cancelled rows are untouched; no row changes anything but its status |
| `StatusCascade.CascadeReachesTarget` | OrderController.php:321-338 | afterwards every item of the order is at least as far along as the target, and no item moved backwards |
| `StatusCascade.CascadeIdempotent` | OrderController.php:321-338 | cascading the same target twice gives the table cascading once gives |
| `OrderListing.OrderTotal` | OrderController.php:43-52 | helper without a contract of its own: the SUM of price times amount over the order's non-cancelled items, the same aggregate as at OrderController.php:141-150 and 188-197; its properties are TotalAppend, TotalWithoutLiveItems, TotalUnderCascade, AddedItemTotal and InvoiceAddsUp |
| `OrderListing.TotalAppend` | OrderController.php:52 | the SUM of price times amount over live items adds up over any split of the items table |
| `OrderListing.TotalWithoutLiveItems` | OrderController.php:41-52 | items of other orders and cancelled items contribute nothing to a total |
| `OrderListing.TotalUnderCascade` | OrderController.php:321-338 | cancelling an order drops its total to 0; every other transition, and any transition of another order, keeps the total |
| `OrderListing.CancelLeavesNoLiveItem` | OrderController.php:333-336 | after cancel the order has no live item left |
| `OrderListing.IsActive` | OrderController.php:54 | helper without a contract of its own: the active statuses {Pending, Preparing, Served} |
| `OrderListing.IsClosed` | OrderController.php:152 | helper without a contract of its own: the closed statuses {Cancelled, Paid} |
| `OrderListing.StatusesPartition` | OrderController.php:54 | every order status is in exactly one of the active set {Pending, Preparing, Served} and the closed set {Cancelled, Paid} |
| `OrderListing.Shows` | OrderController.php:41-54 | helper without a contract of its own: the restaurant filter, the status filter and, for the active listing, the inner join with live items (the closed listing's filter is at OrderController.php:138-152) |
| `OrderListing.RowTotal` | OrderController.php:139-150 | helper without a contract of its own: the listed total, NULL when the order has no live item |
| `OrderListing.ListOrders` | OrderController.php:41-57 | a listing holds exactly the restaurant's orders with a listed status (for the active listing: with a live item), each with the sum of its live items or NULL |
| `OrderListing.ActiveRowsHaveTotals` | OrderController.php:41-53 | every active-listing row carries the sum of price times amount over its live items |
| `OrderListing.ClosedListingKeepsEveryClosedOrder` | OrderController.php:138-155 | every cancelled or paid order of the restaurant is listed as closed, with the sum of its live items when it has any |
| `OrderListing.ListingsDisjoint` | OrderController.php:152 | no order is in both the active and the closed listing |
| `OrderListing.OpenOrderWithoutLiveItemsHidden` | OrderController.php:42-43 | an open order with no live item appears in neither listing |
| `InvoiceQuery.InvoiceOrder` | OrderController.php:184-199 | an invoice exists for an order with the id, a status other than Cancelled and at least one live item, and otherwise not |
| `InvoiceQuery.InvoiceLines` | OrderController.php:202-217 | every line holds raw amounts, with the sub-total equal to cost times quantity |
| `InvoiceQuery.InvoiceLinesMatchItems` | OrderController.php:202-214 | the lines are exactly those of the order's live items that have a name in the current locale |
| `InvoiceQuery.InvoiceAddsUp` | OrderController.php:197-211 | when every live item has a name, the lines' sub-totals add up to the order total |
| `NewOrderItem.ValidRequest` | OrderController.php:353-357 | helper without a contract of its own: item_id present and at least 1, quantity at least 1 when sent |
| `NewOrderItem.MakeOrderItem` | OrderController.php:353-371 | a missing or nonpositive item id or a nonpositive quantity fails validation, an unknown menu item is not found; otherwise the row is Pending, has the menu price, the quantity or 1, and the comment or "" |
| `NewOrderItem.AddedItemTotal` | OrderController.php:360-371 | adding the item raises its order's total by the snapshot price times the quantity and leaves other orders' totals unchanged |
| `Polling.AnyUpdated` | OrderController.php:237-239 | the existence query holds exactly when some order of the restaurant (with the status, if one is given) was updated after the timestamp |
| `Polling.LatestUpdate` | OrderController.php:237-260 | with no update: false, null, false, false; otherwise the pending count; each flag holds exactly when an updated order has that status; a flag implies orderUpdatesExist |
| `Polling.TransitionIsReported` | OrderController.php:243-251 | a status change saved after the timestamp is reported, and flagged when it made the order Pending or Preparing |
| `OrderTransition.Target` | OrderController.php:270-309 | no action requests Pending; only cancel requests Cancelled |
| `OrderTransition.TargetInjective` | OrderController.php:270-309 | the four actions request four different statuses |
| `OrderTransition.Transitioned` | OrderController.php:311-348 | helper without a contract of its own: the handler as a step on the two tables (guard, lookup, policy, status overwrite, cascade, reply); its properties are NonAjaxChangesNothing, RefusedRequestChangesNothing, AcceptedRequest and TransitionIdempotent |
| `OrderTransition.NonAjaxChangesNothing` | OrderController.php:343-346 | a non-ajax request leaves both tables unchanged and is answered with 400 and the bad-request message |
| `OrderTransition.RefusedRequestChangesNothing` | OrderController.php:314-316 | an unknown order or a refused policy check leaves both tables unchanged |
| `OrderTransition.AcceptedRequest` | OrderController.php:318-342 | an accepted request sets the order's status to the requested one whatever it was, keeps every other order, cascades to its items, and answers 200 |
| `OrderTransition.TransitionIdempotent` | OrderController.php:318-337 | repeating an accepted request leaves the tables as the first one did, so cancelling twice is cancelling once |
| `OrderController.OrderStore.UpdateOrderItemStatus` | OrderController.php:311-348 | the tables and reply after the handler are those of the transition step, and the key invariants hold |
| `OrderController.OrderStore.Act` | OrderController.php:270-309 | prepare, serve, pay and cancel are the transition with their requested status |
| `OrderController.OrderStore.AddItem` | OrderController.php:350-380 | on success with a working save the new row is appended and the reply is the redirect; validation failure, unknown menu item and failed save change nothing |
| `InvoiceQuery.PrintLine` | OrderController.php:221-224 | helper without a contract of its own: the loop body, which passes cost and sub-total through the price formatter |
| `OrderController.OrderStore.Invoice` | OrderController.php:182-227 | missing order gives not-found, refused policy gives forbidden, otherwise the order, its formatted total and every line with cost and sub-total formatted |

## Left out

- `CurrencyController.php`: plain create, edit and delete of a reference entity, with validation done by the framework; it is outside the order workflow.
- Price formatting (`PriceHelper::fixPrice`): an external, locale-dependent helper; it is the parameter `fix`, and totals are integers.
- Authorization (`authorize`, `can`) is a boolean parameter. The listings' restaurant lookup and access check are not modelled.
- OrderController.OrderStore.Invoice: does not model the restaurant lookup before formatting (OrderController.php:219). Its failure paths are a 404 when the restaurant row is missing, and an error when the order has no restaurant. The model renders the invoice whenever the order and the policy check pass, because the formatter that needs the restaurant is already a parameter.
- Translation and locale are parameters: `trans`, and the map of item names in the current locale.
- HTML rendering of the listing rows (row classes, action buttons), the data-table adapter, views, the session flash message and redirects beyond their target.
- Sort orders are not modelled: by status descending and then time in the listings, by status descending and update time in the invoice (OrderController.php:215-216). Listing rows and invoice lines come in table order, not the source's sort.
- `date(...)` formatting: timestamps are integers.
- `Order::getPendingOrdersCount` is not shown; its result is the parameter `pendingCount`.
- The order's own `getStatusText`, used by the listings: `Order.php` is not part of this model.
- Concurrency: the order save and the item bulk update are separate statements in the source and are modelled as one step.
- Item `updated_at` timestamps are not modelled (they are only used for sorting).
- A failed save of an order is not modelled, because its result is not checked.
