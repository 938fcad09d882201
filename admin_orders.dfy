/** The order management page (src/pages/AdminOrdersPage.tsx): all orders, the
  * status filter over them, status updates through the orders provider, the
  * status buttons and the badge and item-count texts. */
module AdminOrders {
  import opened Common
  import opened Types
  import opened OrderRows
  import Cart
  import Orders

  /** `applyStatusFilter(orders, filter)`: every order for "all", otherwise the
    * orders with exactly that status, in order. */
  function FilterByStatus(orders: seq<Order>, filter: string): (r: seq<Order>)
    ensures filter == "all" ==> r == orders
    ensures filter != "all" ==> forall o :: o in r <==> o in orders && o.status == filter
    ensures |r| <= |orders|
  {
    if filter == "all" then orders else WithStatusName(orders, filter)
  }

  /** `orders.filter(order => order.status === status)` */
  function WithStatusName(orders: seq<Order>, status: string): (r: seq<Order>)
    ensures forall o :: o in r <==> o in orders && o.status == status
    ensures |r| <= |orders|
  {
    if orders == [] then []
    else (if orders[0].status == status then [orders[0]] else []) + WithStatusName(orders[1..], status)
  }

  /** The status filter keeps the orders in order: filtering a concatenation
    * is concatenating the filtered parts. */
  lemma FilterByStatusAppend(a: seq<Order>, b: seq<Order>, filter: string)
    ensures FilterByStatus(a + b, filter) == FilterByStatus(a, filter) + FilterByStatus(b, filter)
  {
    if filter != "all" {
      WithStatusNameAppend(a, b, filter);
    }
  }

  lemma {:induction false} WithStatusNameAppend(a: seq<Order>, b: seq<Order>, status: string)
    ensures WithStatusName(a + b, status) == WithStatusName(a, status) + WithStatusName(b, status)
  {
    if a == [] {
      assert a + b == b;
    } else {
      assert (a + b)[1..] == a[1..] + b;
      WithStatusNameAppend(a[1..], b, status);
    }
  }

  /** The statuses an order offers buttons for: every status but its own, in
    * declaration order. */
  function StatusButtons(status: string): (r: seq<OrderStatus>)
    ensures forall st :: st in r <==> st.Name() != status
  {
    Without(AllStatuses, status)
  }

  function Without(statuses: seq<OrderStatus>, status: string): (r: seq<OrderStatus>)
    ensures forall st :: st in r <==> st in statuses && st.Name() != status
  {
    if statuses == [] then []
    else (if statuses[0].Name() != status then [statuses[0]] else []) + Without(statuses[1..], status)
  }

  /** An order whose status is one of the six gets exactly five buttons; an
    * order holding any other string gets all six. */
  lemma ButtonCount(status: string)
    ensures StatusNamed(status).Some? ==> |StatusButtons(status)| == 5
    ensures StatusNamed(status).None? ==> StatusButtons(status) == AllStatuses
  {
    var all := AllStatuses;
    assert forall i, j :: 0 <= i < j < |all| ==> all[i].Name() != all[j].Name();
    match StatusNamed(status)
    case None =>
      WithoutNone(all, status);
    case Some(st) =>
      var k := match st
        case Pending => 0 case Confirmed => 1 case Preparing => 2
        case Ready => 3 case Delivered => 4 case Cancelled => 5;
      WithoutOne(all, status, k);
  }

  /** Leaving out a name no status has keeps the list. */
  lemma {:induction false} WithoutNone(statuses: seq<OrderStatus>, status: string)
    requires forall i :: 0 <= i < |statuses| ==> statuses[i].Name() != status
    ensures Without(statuses, status) == statuses
  {
    if statuses != [] {
      WithoutNone(statuses[1..], status);
      assert [statuses[0]] + statuses[1..] == statuses;
    }
  }

  /** Leaving out a name exactly one status has removes that one. */
  lemma {:induction false} WithoutOne(statuses: seq<OrderStatus>, status: string, k: int)
    requires 0 <= k < |statuses| && statuses[k].Name() == status
    requires forall i :: 0 <= i < |statuses| && i != k ==> statuses[i].Name() != status
    ensures |Without(statuses, status)| == |statuses| - 1
  {
    if k == 0 {
      WithoutNone(statuses[1..], status);
    } else {
      WithoutOne(statuses[1..], status, k - 1);
    }
  }

  /** `status.charAt(0).toUpperCase() + status.slice(1)` */
  function BadgeLabel(status: string): (r: string)
    ensures |r| == |status|
    ensures status != "" ==> r[0] == UpperChar(status[0]) && r[1..] == status[1..]
  {
    if status == "" then "" else [UpperChar(status[0])] + status[1..]
  }

  /** `order.items.reduce((sum, item) => sum + item.quantity, 0)` */
  function ItemCount(items: seq<CartItem>): int
  {
    if items == [] then 0 else items[0].quantity + ItemCount(items[1..])
  }

  /** The item count of an order is the cart's total quantity of its lines. */
  lemma {:induction false} ItemCountIsTotalQuantity(items: seq<CartItem>)
    ensures ItemCount(items) == Cart.TotalQuantity(items)
  {
    if items != [] {
      ItemCountIsTotalQuantity(items[1..]);
      TotalQuantityCons(items[0], items[1..]);
      assert [items[0]] + items[1..] == items;
    }
  }

  lemma {:induction false} TotalQuantityCons(x: CartItem, s: seq<CartItem>)
    ensures Cart.TotalQuantity([x] + s) == x.quantity + Cart.TotalQuantity(s)
  {
    if s != [] {
      var init := s[..|s| - 1];
      TotalQuantityCons(x, init);
      assert ([x] + s)[..|[x] + s| - 1] == [x] + init;
    }
  }

  /** After a status update, the updated order is listed under its new status. */
  lemma UpdatedOrderListedUnderNewStatus(orders: seq<Order>, id: string, st: OrderStatus, nowIso: string, i: int)
    requires 0 <= i < |orders| && orders[i].id == id
    ensures var r := Orders.WithStatus(orders, id, st, nowIso);
      r[i] in FilterByStatus(r, st.Name())
  {
    var r := Orders.WithStatus(orders, id, st, nowIso);
    assert r[i] in r;
    assert st.Name() != "all" by {
      match st {
        case Pending =>
        case Confirmed =>
        case Preparing =>
        case Ready =>
        case Delivered =>
        case Cancelled =>
      }
    }
  }

  class AdminOrdersPage {
    var allOrders: seq<Order>
    var filteredOrders: seq<Order>
    var statusFilter: string
    var adminLoading: bool

    /** The list shown is the full list under the chosen filter. */
    predicate Valid()
      reads this
    {
      filteredOrders == FilterByStatus(allOrders, statusFilter)
    }

    constructor()
      ensures Valid() && allOrders == [] && statusFilter == "all" && adminLoading
    {
      allOrders := [];
      filteredOrders := [];
      statusFilter := "all";
      adminLoading := true;
    }

    /** `fetchAllOrders()`, given the query's answer (its transform is the
      * orders provider's). A failure only shows a message. The filter applied
      * is the one chosen now; see `FetchedViewAsWritten`. */
    method FetchAllOrders(answer: Outcome<Option<seq<OrderRow>>>)
      requires Valid()
      modifies this
      ensures Valid() && !adminLoading && statusFilter == old(statusFilter)
      ensures answer.Ok? ==> allOrders == Transform(answer.value)
      ensures answer.Err? ==> allOrders == old(allOrders)
    {
      adminLoading := true;
      if answer.Ok? {
        allOrders := Transform(answer.value);
        filteredOrders := FilterByStatus(allOrders, statusFilter);
      }
      adminLoading := false;
    }

    /** `handleStatusFilterChange(value)` */
    method HandleStatusFilterChange(value: string)
      modifies this
      ensures Valid() && statusFilter == value && allOrders == old(allOrders) && adminLoading == old(adminLoading)
    {
      statusFilter := value;
      filteredOrders := FilterByStatus(allOrders, value);
    }

    /** `handleStatusUpdate(orderId, newStatus)`, through the orders provider
      * with the backend's answer: on success the order's status changes in
      * the full list and the filter is applied again; on failure nothing
      * changes here. */
    method HandleStatusUpdate(store: Orders.OrderStore, orderId: string, newStatus: OrderStatus, nowIso: string, answer: Outcome<()>)
      requires Valid()
      modifies this, store
      ensures Valid() && statusFilter == old(statusFilter) && adminLoading == old(adminLoading)
      ensures answer.Ok? ==> allOrders == Orders.WithStatus(old(allOrders), orderId, newStatus, nowIso)
      ensures answer.Err? ==> allOrders == old(allOrders) && filteredOrders == old(filteredOrders)
      ensures store.orders == Orders.WithStatus(old(store.orders), orderId, newStatus, nowIso)
    {
      var ok, _ := store.UpdateOrderStatus(orderId, newStatus, nowIso, answer);
      if ok {
        allOrders := Orders.WithStatus(allOrders, orderId, newStatus, nowIso);
        filteredOrders := FilterByStatus(allOrders, statusFilter);
      }
    }
  }

  // ---------------------------------------------------------------- the stale filter

  /** What `fetchAllOrders` shows as written: it is created once, when the page
    * mounts, so the filter it applies is the one of that moment, "all", even
    * after another filter was chosen. */
  function FetchedViewAsWritten(answer: Outcome<Option<seq<OrderRow>>>, chosenFilter: string, shown: seq<Order>): seq<Order>
  {
    if answer.Ok? then FilterByStatus(Transform(answer.value), "all") else shown
  }

  /** With "pending" chosen, a refetch that returns one delivered order shows
    * it, though the filter excludes it. */
  lemma StaleFilterShowsExcludedOrder(row: OrderRow)
    requires row.status == "delivered"
    ensures var view := FetchedViewAsWritten(Ok(Some([row])), "pending", []);
      OrderOf(row) in view && OrderOf(row) !in FilterByStatus(Transform(Some([row])), "pending")
  {
    var view := FetchedViewAsWritten(Ok(Some([row])), "pending", []);
    assert view == [OrderOf(row)];
  }
}
