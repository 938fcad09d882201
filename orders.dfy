/** The orders provider (src/context/OrderContext.tsx): the list of the user's
  * orders and the order being viewed, kept up to date by realtime changes, by
  * refetching, and by optimistic creation and status updates. */
module Orders {
  import opened Common
  import opened Types
  import opened OrderRows

  // ---------------------------------------------------------------- list updates

  /** `orders.map(order => order.id === id ? o : order)` */
  function ReplaceId(orders: seq<Order>, id: string, o: Order): (r: seq<Order>)
    ensures |r| == |orders|
    ensures forall i :: 0 <= i < |orders| && orders[i].id == id ==> r[i] == o
    ensures forall i :: 0 <= i < |orders| && orders[i].id != id ==> r[i] == orders[i]
  {
    seq(|orders|, i requires 0 <= i < |orders| => if orders[i].id == id then o else orders[i])
  }

  /** `orders.filter(order => order.id !== id)` */
  function DropId(orders: seq<Order>, id: string): (r: seq<Order>)
    ensures forall x :: x in r <==> x in orders && x.id != id
    ensures |r| <= |orders|
  {
    if orders == [] then []
    else if orders[0].id == id then DropId(orders[1..], id)
    else [orders[0]] + DropId(orders[1..], id)
  }

  /** The filter keeps the order of the other orders: filtering a
    * concatenation is concatenating the filtered parts. */
  lemma {:induction false} DropIdAppend(a: seq<Order>, b: seq<Order>, id: string)
    ensures DropId(a + b, id) == DropId(a, id) + DropId(b, id)
  {
    if a == [] {
      assert a + b == b;
    } else {
      assert (a + b)[1..] == a[1..] + b;
      DropIdAppend(a[1..], b, id);
    }
  }

  predicate NoOrderWithId(orders: seq<Order>, id: string)
  {
    forall i :: 0 <= i < |orders| ==> orders[i].id != id
  }

  /** Dropping an id no order has changes nothing. */
  lemma {:induction false} DropAbsent(orders: seq<Order>, id: string)
    requires NoOrderWithId(orders, id)
    ensures DropId(orders, id) == orders
  {
    if orders != [] {
      assert NoOrderWithId(orders[1..], id) by {
        forall i | 0 <= i < |orders[1..]| ensures orders[1..][i].id != id {
          assert orders[1..][i] == orders[i + 1];
        }
      }
      DropAbsent(orders[1..], id);
      assert DropId(orders, id) == [orders[0]] + DropId(orders[1..], id);
      assert [orders[0]] + orders[1..] == orders;
    }
  }

  /** Replacing an id no order has changes nothing. */
  lemma ReplaceAbsent(orders: seq<Order>, id: string, o: Order)
    requires NoOrderWithId(orders, id)
    ensures ReplaceId(orders, id, o) == orders
  {
  }

  /** An order prepended under a fresh id and then replaced by id ends up
    * alone at the front, the other orders untouched; prepended and then
    * dropped by id, it leaves the list as it was. */
  lemma PrependedThenSettled(orders: seq<Order>, opt: Order, t: Order)
    requires NoOrderWithId(orders, opt.id)
    ensures ReplaceId([opt] + orders, opt.id, t) == [t] + orders
    ensures DropId([opt] + orders, opt.id) == orders
  {
    var r := ReplaceId([opt] + orders, opt.id, t);
    assert r[0] == t;
    assert r[1..] == orders by {
      forall i | 0 <= i < |orders| ensures r[1..][i] == orders[i] {
        assert ([opt] + orders)[i + 1] == orders[i];
      }
    }
    assert r == [r[0]] + r[1..];
    assert ([opt] + orders)[1..] == orders;
    DropAbsent(orders, opt.id);
  }

  /** A realtime change on the `orders` table for this user. */
  datatype Change =
    | Insert(newRow: OrderRow)
    | Update(oldStatus: string, newRow: OrderRow)
    | Delete(oldId: string)

  // ---------------------------------------------------------------- optimistic orders

  /** The placeholder items of an optimistic order: each caller item, read as
    * the transform reads a row, under its temporary id. */
  function OptimisticItems(items: seq<ItemFields>, itemIds: seq<string>): (r: seq<CartItem>)
    requires |itemIds| == |items|
    ensures |r| == |items|
    ensures forall i :: 0 <= i < |items| ==> r[i] == ItemOf(ItemRow(itemIds[i], items[i]))
  {
    seq(|items|, i requires 0 <= i < |items| => ItemOf(ItemRow(itemIds[i], items[i])))
  }

  /** The id of the optimistic order created at `nowMs`. */
  function TempId(nowMs: int): (id: string)
    ensures |id| > 5 && id[..5] == "temp-"
  {
    "temp-" + IntToString(nowMs)
  }

  /** The order shown while `createOrder` waits for the backend. */
  function Optimistic(user: TelegramUser, d: OrderDraft, items: seq<ItemFields>, nowMs: int, itemIds: seq<string>, nowIso: string): (o: Order)
    requires |itemIds| == |items|
    ensures o.id == TempId(nowMs) && o.status == "pending"
    ensures o.userId == Some(IntToString(user.id))
    ensures o.subtotal == NumberOf(d.subtotal) && o.tax == NumberOf(d.tax)
    ensures o.deliveryFee == NumberOf(d.deliveryFee) && o.total == NumberOf(d.total)
    ensures o.customerName == Some(OrElse(d.customerName, OrElse(Some(user.firstName), "Customer")))
    ensures o.items == OptimisticItems(items, itemIds)
  {
    Order(TempId(nowMs), Some(IntToString(user.id)), OptimisticItems(items, itemIds), "pending",
          NumberOf(d.subtotal), NumberOf(d.tax), NumberOf(d.deliveryFee), NumberOf(d.total),
          OrNull(d.deliveryAddress), Some(OrElse(d.deliveryInstructions, "")), None, None,
          Some(OrElse(d.customerName, OrElse(Some(user.firstName), "Customer"))), None, nowIso, nowIso)
  }

  /** The payload `createOrder` inserts: the shared one, with the customer
    * name falling back to the user's first name. */
  function ContextPayload(user: TelegramUser, d: OrderDraft): (p: OrderPayload)
    ensures p == PayloadOf(IntToString(user.id), d).(customerName := Some(OrElse(d.customerName, user.firstName)))
    ensures p.userId == IntToString(user.id) && p.totalAmount == d.total
  {
    PayloadOf(IntToString(user.id), d).(customerName := Some(OrElse(d.customerName, user.firstName)))
  }

  /** `{ ...order, status, updatedAt }` on the orders with the id. */
  function WithStatus(orders: seq<Order>, id: string, status: OrderStatus, nowIso: string): (r: seq<Order>)
    ensures |r| == |orders|
    ensures forall i :: 0 <= i < |orders| && orders[i].id == id ==>
      r[i] == orders[i].(status := status.Name(), updatedAt := nowIso)
    ensures forall i :: 0 <= i < |orders| && orders[i].id != id ==> r[i] == orders[i]
  {
    seq(|orders|, i requires 0 <= i < |orders| =>
      if orders[i].id == id then orders[i].(status := status.Name(), updatedAt := nowIso) else orders[i])
  }

  /** `!user?.id`: no user, or the id 0. */
  predicate NoUserId(user: Option<TelegramUser>)
  {
    user.None? || user.value.id == 0
  }

  // ---------------------------------------------------------------- the provider

  class OrderStore {
    var orders: seq<Order>
    var currentOrder: Option<Order>
    var isLoading: bool
    var error: Option<string>

    constructor()
      ensures orders == [] && currentOrder.None? && !isLoading && error.None?
    {
      orders := [];
      currentOrder := None;
      isLoading := false;
      error := None;
    }

    /** The list update a realtime change makes (the refetch it then starts
      * is a separate call of `GetUserOrders`). */
    method ApplyChange(change: Change)
      modifies this
      ensures isLoading == old(isLoading) && error == old(error)
      ensures change.Insert? ==>
        orders == [OrderOf(change.newRow)] + old(orders) && currentOrder == old(currentOrder)
      ensures change.Update? ==>
        var o := OrderOf(change.newRow);
        orders == ReplaceId(old(orders), o.id, o)
        && currentOrder == (if old(currentOrder).Some? && old(currentOrder).value.id == o.id then Some(o) else old(currentOrder))
      ensures change.Delete? ==>
        orders == DropId(old(orders), change.oldId) && currentOrder == old(currentOrder)
    {
      match change {
        case Insert(row) =>
          orders := [OrderOf(row)] + orders;
        case Update(_, row) =>
          var updated := OrderOf(row);
          orders := ReplaceId(orders, updated.id, updated);
          if currentOrder.Some? && currentOrder.value.id == updated.id {
            currentOrder := Some(updated);
          }
        case Delete(id) =>
          orders := DropId(orders, id);
      }
    }

    /** `getUserOrders()`, given the signed-in user and the query's answer. */
    method GetUserOrders(user: Option<TelegramUser>, answer: Outcome<Option<seq<OrderRow>>>) returns (result: seq<Order>)
      modifies this
      ensures NoUserId(user) ==>
        result == [] && orders == old(orders) && currentOrder == old(currentOrder)
        && isLoading == old(isLoading) && error == old(error)
      ensures !NoUserId(user) ==> !isLoading && currentOrder == old(currentOrder)
      ensures !NoUserId(user) && answer.Ok? ==>
        result == Transform(answer.value) && orders == result && error.None?
      ensures !NoUserId(user) && answer.Err? ==>
        result == [] && orders == old(orders) && error == Some("Failed to load orders: " + answer.msg)
    {
      if NoUserId(user) {
        return [];
      }
      isLoading := true;
      error := None;
      match answer {
        case Ok(rows) =>
          result := Transform(rows);
          orders := result;
        case Err(_, msg) =>
          error := Some("Failed to load orders: " + msg);
          result := [];
      }
      isLoading := false;
    }

    /** `getOrderById(orderId)`, given the query's answer. */
    method GetOrderById(answer: Outcome<Option<OrderRow>>) returns (result: Option<Order>)
      modifies this
      ensures !isLoading && orders == old(orders)
      ensures answer.Ok? && answer.value.Some? ==>
        result == Some(OrderOf(answer.value.value)) && currentOrder == result && error.None?
      ensures answer == Ok(None) ==> result.None? && currentOrder == old(currentOrder) && error.None?
      ensures answer.Err? ==>
        result.None? && currentOrder == old(currentOrder) && error == Some("Failed to load order: " + answer.msg)
    {
      isLoading := true;
      error := None;
      result := None;
      match answer {
        case Ok(row) =>
          if row.Some? {
            result := Some(OrderOf(row.value));
            currentOrder := result;
          }
        case Err(_, msg) =>
          error := Some("Failed to load order: " + msg);
      }
      isLoading := false;
    }

    /** `createOrder(orderData, orderItems)`: show an optimistic order at the
      * front, insert the order and then its items, and settle the optimistic
      * order with what the backend returns. `nowMs`/`nowIso` are the clock and
      * `itemIds` the random placeholder item ids. Also returns the payloads
      * sent. */
    method CreateOrder(user: Option<TelegramUser>, d: OrderDraft, items: seq<ItemFields>,
                       nowMs: int, nowIso: string, itemIds: seq<string>,
                       insert: Outcome<Option<string>>, itemsInsert: Outcome<()>, final: Outcome<Option<OrderRow>>)
      returns (created: Option<Order>, sent: Option<OrderPayload>, itemsSent: Option<seq<(string, ItemFields)>>)
      requires |itemIds| == |items|
      modifies this
      ensures NoUserId(user) ==>
        created.None? && sent.None? && itemsSent.None? && error == Some("User not authenticated")
        && orders == old(orders) && currentOrder == old(currentOrder) && isLoading == old(isLoading)
      ensures !NoUserId(user) ==>
        var opt := Optimistic(user.value, d, items, nowMs, itemIds, nowIso);
        var outcome := CreateChain(insert, itemsInsert, final);
        !isLoading && sent == Some(ContextPayload(user.value, d)) && itemsSent == ItemsSent(insert, items)
        && (outcome.Ok? ==>
              created == Some(outcome.value) && currentOrder == created && error.None?
              && orders == ReplaceId([opt] + old(orders), opt.id, outcome.value))
        && (outcome.Err? ==>
              created.None? && currentOrder.None? && error == Some("Failed to create order: " + outcome.msg)
              && orders == DropId([opt] + old(orders), opt.id))
    {
      created, sent, itemsSent := None, None, None;
      if NoUserId(user) {
        error := Some("User not authenticated");
        return;
      }
      var u := user.value;
      isLoading := true;
      error := None;
      var opt := Optimistic(u, d, items, nowMs, itemIds, nowIso);
      orders := [opt] + orders;
      currentOrder := Some(opt);
      sent := Some(ContextPayload(u, d));
      var failure: Option<string> := None;
      match insert {
        case Err(_, msg) =>
          failure := Some(msg);
        case Ok(orderId) =>
          if orderId.None? {
            failure := Some("Failed to create order");
          } else {
            itemsSent := Some(seq(|items|, i requires 0 <= i < |items| => (orderId.value, items[i])));
            match itemsInsert {
              case Err(_, msg) =>
                failure := Some(msg);
              case Ok(_) =>
                match final {
                  case Err(_, msg) =>
                    failure := Some(msg);
                  case Ok(row) =>
                    if row.None? {
                      failure := Some(NullRowMessage);
                    } else {
                      var t := OrderOf(row.value);
                      orders := ReplaceId(orders, opt.id, t);
                      currentOrder := Some(t);
                      created := Some(t);
                    }
                }
            }
          }
      }
      if failure.Some? {
        error := Some("Failed to create order: " + failure.value);
        orders := DropId(orders, opt.id);
        currentOrder := None;
      }
      isLoading := false;
    }

    /** `updateOrderStatus(orderId, status)`: the status is set optimistically
      * and kept whatever the backend answers; a failure reports an error and
      * asks for a refetch (`refetch`), which restores the stored statuses. */
    method UpdateOrderStatus(orderId: string, status: OrderStatus, nowIso: string, answer: Outcome<()>)
      returns (ok: bool, refetch: bool)
      modifies this
      ensures ok <==> answer.Ok?
      ensures refetch <==> !ok
      ensures !isLoading && orders == WithStatus(old(orders), orderId, status, nowIso)
      ensures currentOrder ==
        if old(currentOrder).Some? && old(currentOrder).value.id == orderId
        then Some(old(currentOrder).value.(status := status.Name(), updatedAt := nowIso))
        else old(currentOrder)
      ensures ok ==> error.None?
      ensures !ok ==> error == Some("Failed to update order status: " + answer.msg)
    {
      isLoading := true;
      error := None;
      orders := WithStatus(orders, orderId, status, nowIso);
      if currentOrder.Some? && currentOrder.value.id == orderId {
        currentOrder := Some(currentOrder.value.(status := status.Name(), updatedAt := nowIso));
      }
      match answer {
        case Ok(_) =>
          ok, refetch := true, false;
        case Err(_, msg) =>
          error := Some("Failed to update order status: " + msg);
          ok, refetch := false, true;
      }
      isLoading := false;
    }
  }

  /** A created order settles in the optimistic order's place at the front; a
    * failed one leaves the list as it was before the call. The temporary id
    * is fresh when no listed order has it. */
  lemma CreateOrderSettles(orders: seq<Order>, opt: Order, outcome: Outcome<Order>)
    requires NoOrderWithId(orders, opt.id)
    ensures outcome.Ok? ==> ReplaceId([opt] + orders, opt.id, outcome.value) == [outcome.value] + orders
    ensures DropId([opt] + orders, opt.id) == orders
  {
    if outcome.Ok? {
      PrependedThenSettled(orders, opt, outcome.value);
    } else {
      DropAbsent(orders, opt.id);
      assert ([opt] + orders)[1..] == orders;
    }
  }

  /** A status update touches only the orders with that id, and on them only
    * the status and the update time. */
  lemma StatusUpdateIsLocal(orders: seq<Order>, id: string, status: OrderStatus, nowIso: string, i: int)
    requires 0 <= i < |orders|
    ensures var r := WithStatus(orders, id, status, nowIso);
      r[i].id == orders[i].id && r[i].items == orders[i].items && r[i].total == orders[i].total
      && (orders[i].id == id ==> r[i].status == status.Name() && StatusNamed(r[i].status) == Some(status))
      && (orders[i].id != id ==> r[i] == orders[i])
  {
    var r := WithStatus(orders, id, status, nowIso);
    if orders[i].id == id {
      match status {
        case Pending =>
        case Confirmed =>
        case Preparing =>
        case Ready =>
        case Delivered =>
        case Cancelled =>
      }
    }
  }
}
