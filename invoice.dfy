/**
 * The invoice of one order: the order row with its total, and one line per
 * live item carrying the item's name in the current locale.
 */
module InvoiceQuery {
  import opened Wrappers
  import opened OrderItemModel
  import opened OrderModel
  import opened OrderListing

  /** A money value before and after it went through the price formatter. */
  datatype Money = Amount(value: int) | Shown(text: string)

  datatype InvoiceLine = InvoiceLine(
    id: nat,
    mealTitle: string,
    cost: Money,
    quantity: int,
    subTotal: Money,
    status: ItemStatus,
    comment: string)

  /** Statuses an order may have to be invoiced: all but Cancelled. */
  predicate Invoiceable(s: OrderStatus) {
    s == OrderStatus.Pending || s == OrderStatus.Preparing || s == OrderStatus.Served || s == OrderStatus.Paid
  }

  /**
   * The order an invoice is for (firstOrFail): it must have the id, an
   * invoiceable status and, through the inner join, at least one live item.
   */
  function InvoiceOrder(orders: seq<Order>, items: seq<OrderItem>, id: nat): (r: Option<Order>)
    ensures r.Some? ==>
      r.value in orders && r.value.id == id && Invoiceable(r.value.status) && HasLiveItem(items, id)
    ensures r.None? ==>
      forall o :: o in orders && o.id == id && Invoiceable(o.status) ==> !HasLiveItem(items, id)
  {
    if orders == [] then None
    else if orders[0].id == id && Invoiceable(orders[0].status) && HasLiveItem(items, id) then Some(orders[0])
    else InvoiceOrder(orders[1..], items, id)
  }

  /** The invoice line of a live item whose name in the current locale is `title`. */
  function LineOf(it: OrderItem, title: string): InvoiceLine {
    InvoiceLine(it.id, title, Amount(it.price), it.amount, Amount(LineTotal(it)), it.status, it.comment)
  }

  /**
   * The invoice lines: the order's live items joined with `names`, the item
   * names in the current locale (an item without one is dropped by the join).
   * Every line still carries raw amounts, its sub-total being cost times quantity.
   */
  function InvoiceLines(items: seq<OrderItem>, orderId: nat, names: map<nat, string>): (lines: seq<InvoiceLine>)
    ensures |lines| <= |items|
    ensures forall k :: 0 <= k < |lines| ==>
      lines[k].cost.Amount? && lines[k].subTotal.Amount?
      && lines[k].subTotal.value == lines[k].cost.value * lines[k].quantity
  {
    if items == [] then []
    else
      var rest := InvoiceLines(items[1..], orderId, names);
      if IsLive(items[0], orderId) && items[0].itemId in names
      then [LineOf(items[0], names[items[0].itemId])] + rest
      else rest
  }

  /**
   * The lines are exactly those of the order's live items that have a name in
   * the current locale: no line for a cancelled item or another order's item.
   */
  lemma {:induction false} InvoiceLinesMatchItems(items: seq<OrderItem>, orderId: nat, names: map<nat, string>)
    ensures forall line :: line in InvoiceLines(items, orderId, names) ==>
      exists it :: it in items && IsLive(it, orderId) && it.itemId in names && line == LineOf(it, names[it.itemId])
    ensures forall it :: it in items && IsLive(it, orderId) && it.itemId in names ==>
      LineOf(it, names[it.itemId]) in InvoiceLines(items, orderId, names)
  {
    if items != [] {
      InvoiceLinesMatchItems(items[1..], orderId, names);
      var rest := InvoiceLines(items[1..], orderId, names);
      forall line | line in InvoiceLines(items, orderId, names)
        ensures exists it :: it in items && IsLive(it, orderId) && it.itemId in names && line == LineOf(it, names[it.itemId])
      {
        if line in rest {
          var it :| it in items[1..] && IsLive(it, orderId) && it.itemId in names && line == LineOf(it, names[it.itemId]);
          assert it in items;
        } else {
          assert items[0] in items;
        }
      }
      forall it | it in items && IsLive(it, orderId) && it.itemId in names
        ensures LineOf(it, names[it.itemId]) in InvoiceLines(items, orderId, names)
      {
        if it != items[0] {
          assert it in items[1..];
        }
      }
    }
  }

  /** The sum of the lines' sub-totals, before they are formatted. */
  function SubTotalSum(lines: seq<InvoiceLine>): int
    requires forall k :: 0 <= k < |lines| ==> lines[k].subTotal.Amount?
  {
    if lines == [] then 0 else lines[0].subTotal.value + SubTotalSum(lines[1..])
  }

  lemma {:induction false} SubTotalSumAppend(a: seq<InvoiceLine>, b: seq<InvoiceLine>)
    requires forall k :: 0 <= k < |a| ==> a[k].subTotal.Amount?
    requires forall k :: 0 <= k < |b| ==> b[k].subTotal.Amount?
    ensures SubTotalSum(a + b) == SubTotalSum(a) + SubTotalSum(b)
  {
    if a != [] {
      assert (a + b)[1..] == a[1..] + b;
      SubTotalSumAppend(a[1..], b);
    } else {
      assert a + b == b;
    }
  }

  /**
   * When every live item of the order has a name in the current locale, the
   * invoice lines add up to the order total shown at the top of the invoice.
   */
  lemma {:induction false} InvoiceAddsUp(items: seq<OrderItem>, orderId: nat, names: map<nat, string>)
    requires forall it :: it in items && IsLive(it, orderId) ==> it.itemId in names
    ensures SubTotalSum(InvoiceLines(items, orderId, names)) == OrderTotal(items, orderId)
  {
    if items != [] {
      var rest := InvoiceLines(items[1..], orderId, names);
      InvoiceAddsUp(items[1..], orderId, names);
      if IsLive(items[0], orderId) {
        var line := LineOf(items[0], names[items[0].itemId]);
        SubTotalSumAppend([line], rest);
      }
    }
  }

  /** A line after its cost and sub-total went through the price formatter `fix`. */
  function PrintLine(line: InvoiceLine, fix: int -> string): InvoiceLine
    requires line.cost.Amount? && line.subTotal.Amount?
  {
    line.(cost := Shown(fix(line.cost.value)), subTotal := Shown(fix(line.subTotal.value)))
  }

  datatype InvoiceView = InvoiceView(order: Order, total: Money, lines: seq<InvoiceLine>)
}
