/** Orders as the backend stores them: the `orders` and `order_items` rows, the
  * row-to-`Order` transform that src/context/OrderContext.tsx and
  * src/api/orderProxy.ts each define (the two are the same function), the insert
  * payload both build, and the chain of three backend calls that creates an order.
  * Amounts are in cents, as in the cart. */
module OrderRows {
  import opened Common
  import opened Types

  // ---------------------------------------------------------------- rows

  /** The columns of an `order_items` row other than its own id and its order's
    * id; also the object the application sends to insert one. */
  datatype ItemFields = ItemFields(
    productId: string,
    name: string,
    quantity: int,
    unitPrice: int,
    itemTotalPrice: Option<int>,
    imageUrl: Option<string>,
    selectedAddons: Option<Selections>)

  datatype ItemRow = ItemRow(id: string, fields: ItemFields)

  /** An `orders` row with its joined `order_items`. Numeric columns that are
    * `null` are `None`. */
  datatype OrderRow = OrderRow(
    id: string,
    userId: Option<string>,
    status: string,
    subtotal: Option<real>,
    tax: Option<real>,
    deliveryFee: Option<real>,
    total: Option<real>,
    totalAmount: Option<real>,
    deliveryAddress: Option<string>,
    deliveryInstructions: Option<string>,
    paymentIntentId: Option<string>,
    paymentStatus: Option<string>,
    customerName: Option<string>,
    customerPhone: Option<string>,
    createdAt: string,
    updatedAt: string,
    orderItems: Option<seq<ItemRow>>)

  /** `Number(x)` of a numeric column: `null` reads as 0. */
  function NumberOf(x: Option<real>): (r: real)
    ensures x.Some? ==> r == x.value
    ensures x.None? ==> r == 0.0
  {
    if x.Some? then x.value else 0.0
  }

  /** `Number(a || b)`: `b` when `a` is `null` or 0. */
  function NumberOr(a: Option<real>, b: Option<real>): (r: real)
    ensures a.Some? && a.value != 0.0 ==> r == a.value
    ensures a.None? || a.value == 0.0 ==> r == NumberOf(b)
  {
    if a.Some? && a.value != 0.0 then a.value else NumberOf(b)
  }

  // ---------------------------------------------------------------- the transform

  /** `item.item_total_price || (item.quantity * item.unit_price)` */
  function ItemTotal(f: ItemFields): (r: int)
    ensures f.itemTotalPrice.Some? && f.itemTotalPrice.value != 0 ==> r == f.itemTotalPrice.value
    ensures f.itemTotalPrice.None? || f.itemTotalPrice.value == 0 ==> r == f.quantity * f.unitPrice
  {
    if f.itemTotalPrice.Some? && f.itemTotalPrice.value != 0 then f.itemTotalPrice.value
    else f.quantity * f.unitPrice
  }

  /** One element of the `order_items` mapping in `transformSupabaseOrder`. */
  function ItemOf(row: ItemRow): (item: CartItem)
    ensures item.id == row.id && item.productId == row.fields.productId && item.name == row.fields.name
    ensures item.quantity == row.fields.quantity && item.unitPrice == row.fields.unitPrice
    ensures item.totalPrice == ItemTotal(row.fields) && item.imageUrl == row.fields.imageUrl
    ensures item.selectedAddons == (if row.fields.selectedAddons.Some? then row.fields.selectedAddons.value else [])
  {
    var f := row.fields;
    CartItem(row.id, f.productId, f.name, f.quantity, f.unitPrice, ItemTotal(f), f.imageUrl,
             if f.selectedAddons.Some? then f.selectedAddons.value else [])
  }

  function ItemsOf(rows: seq<ItemRow>): (items: seq<CartItem>)
    ensures |items| == |rows|
    ensures forall i :: 0 <= i < |rows| ==> items[i] == ItemOf(rows[i])
  {
    seq(|rows|, i requires 0 <= i < |rows| => ItemOf(rows[i]))
  }

  /** `transformSupabaseOrder(row)` */
  function OrderOf(row: OrderRow): (o: Order)
    ensures o.id == row.id && o.userId == row.userId && o.status == row.status
    ensures o.items == ItemsOf(if row.orderItems.Some? then row.orderItems.value else [])
    ensures o.subtotal == NumberOf(row.subtotal) && o.tax == NumberOf(row.tax)
    ensures o.deliveryFee == NumberOf(row.deliveryFee)
    ensures o.total == NumberOr(row.total, row.totalAmount)
    ensures o.customerName == row.customerName && o.paymentStatus == row.paymentStatus
    ensures o.createdAt == row.createdAt && o.updatedAt == row.updatedAt
  {
    Order(row.id, row.userId, ItemsOf(if row.orderItems.Some? then row.orderItems.value else []), row.status,
          NumberOf(row.subtotal), NumberOf(row.tax), NumberOf(row.deliveryFee), NumberOr(row.total, row.totalAmount),
          row.deliveryAddress, row.deliveryInstructions, row.paymentIntentId, row.paymentStatus,
          row.customerName, row.customerPhone, row.createdAt, row.updatedAt)
  }

  /** `(rows || []).map(transformSupabaseOrder)` */
  function Transform(rows: Option<seq<OrderRow>>): (orders: seq<Order>)
    ensures rows.None? ==> orders == []
    ensures rows.Some? ==>
      |orders| == |rows.value| && forall i :: 0 <= i < |rows.value| ==> orders[i] == OrderOf(rows.value[i])
  {
    var rs := if rows.Some? then rows.value else [];
    seq(|rs|, i requires 0 <= i < |rs| => OrderOf(rs[i]))
  }

  // ---------------------------------------------------------------- creating an order

  /** The `Partial<Order>` a caller passes to create an order. */
  datatype OrderDraft = OrderDraft(
    status: Option<string>,
    subtotal: Option<real>,
    tax: Option<real>,
    deliveryFee: Option<real>,
    total: Option<real>,
    deliveryAddress: Option<string>,
    deliveryInstructions: Option<string>,
    paymentIntentId: Option<string>,
    paymentStatus: Option<string>,
    customerName: Option<string>,
    customerPhone: Option<string>)

  /** The object inserted into `orders`. */
  datatype OrderPayload = OrderPayload(
    userId: string,
    status: string,
    subtotal: Option<real>,
    tax: Option<real>,
    deliveryFee: Option<real>,
    totalAmount: Option<real>,
    deliveryAddress: Option<string>,
    deliveryInstructions: Option<string>,
    paymentIntentId: Option<string>,
    paymentStatus: string,
    customerName: Option<string>,
    customerPhone: Option<string>)

  /** The snake-case payload for a draft: a falsy status or payment status
    * becomes "pending", the draft's total goes to `total_amount`, and every
    * other field is passed on as it is. */
  function PayloadOf(userId: string, d: OrderDraft): (p: OrderPayload)
    ensures p.userId == userId
    ensures p.status == OrElse(d.status, "pending") && p.paymentStatus == OrElse(d.paymentStatus, "pending")
    ensures p.totalAmount == d.total && p.deliveryFee == d.deliveryFee
    ensures p.subtotal == d.subtotal && p.tax == d.tax && p.customerName == d.customerName
  {
    OrderPayload(userId, OrElse(d.status, "pending"), d.subtotal, d.tax, d.deliveryFee, d.total,
                 d.deliveryAddress, d.deliveryInstructions, d.paymentIntentId, OrElse(d.paymentStatus, "pending"),
                 d.customerName, d.customerPhone)
  }

  /** The message of the `TypeError` that reading a `null` row's `order_items` throws. */
  const NullRowMessage: string := "Cannot read properties of null (reading 'order_items')"

  /** The items inserted once the order row exists: each caller item with the
    * new order's id beside it, or nothing when the order insert failed or
    * returned no row. */
  function ItemsSent(insert: Outcome<Option<string>>, items: seq<ItemFields>): (r: Option<seq<(string, ItemFields)>>)
    ensures r.Some? <==> insert.Ok? && insert.value.Some?
    ensures r.Some? ==>
      |r.value| == |items| && forall i :: 0 <= i < |items| ==> r.value[i] == (insert.value.value, items[i])
  {
    if insert.Ok? && insert.value.Some? then
      Some(seq(|items|, i requires 0 <= i < |items| => (insert.value.value, items[i])))
    else None
  }

  /** What the insert, the item insert and the final read amount to: the
    * created order, or the message of the first failure. */
  function CreateChain(insert: Outcome<Option<string>>, itemsInsert: Outcome<()>, final: Outcome<Option<OrderRow>>): (r: Outcome<Order>)
    ensures insert.Err? ==> r == Err(insert.code, insert.msg)
    ensures insert == Ok(None) ==> r == Err("", "Failed to create order")
    ensures insert.Ok? && insert.value.Some? && itemsInsert.Err? ==> r == Err(itemsInsert.code, itemsInsert.msg)
    ensures r.Ok? <==> insert.Ok? && insert.value.Some? && itemsInsert.Ok? && final.Ok? && final.value.Some?
    ensures r.Ok? ==> r.value == OrderOf(final.value.value)
  {
    match insert
    case Err(code, msg) => Err(code, msg)
    case Ok(created) =>
      if created.None? then Err("", "Failed to create order")
      else match itemsInsert
        case Err(code, msg) => Err(code, msg)
        case Ok(_) =>
          match final
          case Err(code, msg) => Err(code, msg)
          case Ok(row) => if row.Some? then Ok(OrderOf(row.value)) else Err("", NullRowMessage)
  }

  // ---------------------------------------------------------------- reading back what was sent

  /** A stored `orders` row whose columns hold what a payload sent (the
    * `total` column left `null`), with the given id, items and timestamps. */
  function StoredRow(id: string, p: OrderPayload, items: seq<ItemRow>, createdAt: string, updatedAt: string): OrderRow
  {
    OrderRow(id, Some(p.userId), p.status, p.subtotal, p.tax, p.deliveryFee, None, p.totalAmount,
             p.deliveryAddress, p.deliveryInstructions, p.paymentIntentId, Some(p.paymentStatus),
             p.customerName, p.customerPhone, createdAt, updatedAt, Some(items))
  }

  /** An order read back from what a draft sent carries the draft's status
    * (or "pending"), its amounts and its total: sending the total as
    * `total_amount` is undone by the transform's fallback from `total`. */
  lemma DraftReadsBack(id: string, userId: string, d: OrderDraft, items: seq<ItemRow>, createdAt: string, updatedAt: string)
    ensures var o := OrderOf(StoredRow(id, PayloadOf(userId, d), items, createdAt, updatedAt));
      o.id == id && o.userId == Some(userId) && o.status == OrElse(d.status, "pending")
      && o.subtotal == NumberOf(d.subtotal) && o.tax == NumberOf(d.tax)
      && o.deliveryFee == NumberOf(d.deliveryFee) && o.total == NumberOf(d.total)
      && o.customerName == d.customerName && o.items == ItemsOf(items)
  {
  }
}
