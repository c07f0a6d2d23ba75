/** The admin order-history page: the order total shown on each card, the
    status filter tabs, the status labels and the badge colours. */
module AdminOrders {
  import opened Common
  import opened Store

  /** The order status vocabulary, in the order of the filter tabs. */
  const Statuses: seq<string> := ["pending", "preparing", "ready", "served", "completed", "cancelled"]

  /** The filter tabs: `all` followed by one tab per status. */
  const FilterValues: seq<string> := ["all"] + Statuses

  /** `orderTotal`: the sum of `price * quantity` over the order's lines. */
  function OrderTotal(o: Order): (r: int)
    ensures o.items == [] ==> r == 0
    ensures NonNegativeLines(o.items) ==> r >= 0
  {
    if NonNegativeLines(o.items) then
      ItemsTotalNonNegative(o.items);
      ItemsTotal(o.items)
    else
      ItemsTotal(o.items)
  }

  /** An order whose lines are `a` followed by `b` is worth the value of
      `a` plus the value of `b`; a single line is worth its price times its
      quantity. */
  lemma {:induction false} OrderTotalSplits(o: Order, a: seq<OrderItem>, b: seq<OrderItem>)
    requires o.items == a + b
    ensures OrderTotal(o) == ItemsTotal(a) + ItemsTotal(b)
    ensures |a| == 1 ==> ItemsTotal(a) == a[0].price * a[0].quantity
  {
    ItemsTotalAppend(a, b);
  }

  /** `filteredOrders`: every order under `all`, otherwise the orders whose
      status equals the selected tab. */
  function FilteredOrders(orders: seq<Order>, filter: string): (r: seq<Order>)
    ensures filter == "all" ==> r == orders
    ensures filter != "all" ==> forall i :: 0 <= i < |r| ==> r[i] in orders && r[i].status == filter
    ensures filter != "all" ==> forall i :: 0 <= i < |orders| && orders[i].status == filter ==> orders[i] in r
  {
    FilterComplete(orders, (o: Order) => o.status == filter);
    if filter == "all" then orders else Filter(orders, (o: Order) => o.status == filter)
  }

  /** The filter keeps the original order: filtering a list made of two
      parts filters each part and keeps the parts in place. */
  lemma {:induction false} FilteredOrdersKeepOrder(a: seq<Order>, b: seq<Order>, filter: string)
    ensures FilteredOrders(a + b, filter) == FilteredOrders(a, filter) + FilteredOrders(b, filter)
  {
    if filter != "all" {
      FilterAppend(a, b, (o: Order) => o.status == filter);
    }
  }

  /** A status tab shows nothing more than the `all` tab, and the six status
      tabs together show each order of a known status exactly once. */
  lemma {:induction false} StatusTabsPartition(orders: seq<Order>)
    ensures forall f :: |FilteredOrders(orders, f)| <= |FilteredOrders(orders, "all")|
    ensures |FilteredOrders(orders, "pending")| + |FilteredOrders(orders, "preparing")|
          + |FilteredOrders(orders, "ready")| + |FilteredOrders(orders, "served")|
          + |FilteredOrders(orders, "completed")| + |FilteredOrders(orders, "cancelled")|
         == |Filter(orders, (o: Order) => o.status in Statuses)|
  {
    StatusCountsAdd(orders);
  }

  lemma {:induction false} StatusCountsAdd(orders: seq<Order>)
    ensures |Filter(orders, (o: Order) => o.status == "pending")| + |Filter(orders, (o: Order) => o.status == "preparing")|
          + |Filter(orders, (o: Order) => o.status == "ready")| + |Filter(orders, (o: Order) => o.status == "served")|
          + |Filter(orders, (o: Order) => o.status == "completed")| + |Filter(orders, (o: Order) => o.status == "cancelled")|
         == |Filter(orders, (o: Order) => o.status in Statuses)|
    decreases |orders|
  {
    if |orders| > 0 {
      StatusCountsAdd(orders[1..]);
    }
  }

  /** The translated texts of the six statuses (from the admin translation
      table, which is not part of this model). */
  datatype StatusTexts = StatusTexts(
    pending: string, preparing: string, ready: string, served: string, completed: string, cancelled: string)

  /** The label table of `statusLabel`: defined for the six statuses only. */
  function LabelOf(t: StatusTexts, s: string): Option<string>
  {
    if s == "pending" then Some(t.pending)
    else if s == "preparing" then Some(t.preparing)
    else if s == "ready" then Some(t.ready)
    else if s == "served" then Some(t.served)
    else if s == "completed" then Some(t.completed)
    else if s == "cancelled" then Some(t.cancelled)
    else None
  }

  /** `statusLabel`: the translated label, or the raw status when the status
      is unknown (or its translation is empty). */
  function StatusLabel(t: StatusTexts, s: string): (r: string)
    ensures s !in Statuses ==> r == s
    ensures s in Statuses && LabelOf(t, s).value != "" ==> r == LabelOf(t, s).value
    ensures r == s || LabelOf(t, s) == Some(r)
  {
    var l := LabelOf(t, s);
    if l.Some? && l.value != "" then l.value else s
  }

  /** `statusColors`: the badge colour table. */
  function ColourOf(s: string): Option<string>
  {
    if s == "pending" then Some("bg-yellow-500")
    else if s == "preparing" then Some("bg-blue-500")
    else if s == "ready" then Some("bg-green-500")
    else if s == "served" then Some("bg-gray-500")
    else if s == "completed" then Some("bg-emerald-600")
    else if s == "cancelled" then Some("bg-red-500")
    else None
  }

  const DefaultBadge: string := "bg-gray-500"

  /** `statusColors[order.status] || 'bg-gray-500'`. */
  function BadgeColour(s: string): (r: string)
    ensures s !in Statuses ==> r == DefaultBadge
    ensures s in Statuses ==> Some(r) == ColourOf(s)
  {
    match ColourOf(s)
    case Some(c) => c
    case None => DefaultBadge
  }

  /** The filter tabs, the label table and the colour table all use the
      same six statuses. */
  lemma {:induction false} OneStatusVocabulary(t: StatusTexts)
    ensures forall s :: s in Statuses <==> LabelOf(t, s).Some?
    ensures forall s :: s in Statuses <==> ColourOf(s).Some?
    ensures forall s :: s in FilterValues <==> s == "all" || s in Statuses
    ensures |Statuses| == 6
    ensures forall i, j :: 0 <= i < j < |Statuses| ==> Statuses[i] != Statuses[j]
  {
  }
}
