/** The order proxy functions (src/api/orderProxy.ts): the same queries as the
  * orders provider, answering `{data, error}` objects instead of setting state. */
module OrderProxy {
  import opened Common
  import opened Types
  import opened OrderRows

  /** A `{data, error}` answer; the error is held as its message. */
  datatype Reply<T> = Reply(data: Option<T>, error: Option<string>)

  /** Exactly one of `data` and `error` is set. */
  predicate ExactlyOne<T>(r: Reply<T>)
  {
    r.data.Some? != r.error.Some?
  }

  /** The answer for an outcome: its value as data, or its message as error. */
  function ReplyOf<T>(o: Outcome<T>): (r: Reply<T>)
    ensures ExactlyOne(r)
    ensures o.Ok? <==> r.data.Some?
    ensures o.Ok? ==> r.data.value == o.value
    ensures o.Err? ==> r.error == Some(o.msg)
  {
    match o
    case Ok(v) => Reply(Some(v), None)
    case Err(_, msg) => Reply(None, Some(msg))
  }

  /** `getUserOrdersProxy(userId)`, given the query's answer. */
  function GetUserOrdersProxy(answer: Outcome<Option<seq<OrderRow>>>): (r: Reply<seq<Order>>)
    ensures ExactlyOne(r)
    ensures answer.Ok? ==> r.data == Some(Transform(answer.value))
    ensures answer.Err? ==> r.error == Some(answer.msg)
  {
    match answer
    case Ok(rows) => Reply(Some(Transform(rows)), None)
    case Err(_, msg) => Reply(None, Some(msg))
  }

  /** `getOrderByIdProxy(orderId)`, given the query's answer. */
  function GetOrderByIdProxy(answer: Outcome<Option<OrderRow>>): (r: Reply<Order>)
    ensures ExactlyOne(r)
    ensures answer == Ok(None) ==> r.error == Some("Order not found")
    ensures answer.Ok? && answer.value.Some? ==> r.data == Some(OrderOf(answer.value.value))
    ensures answer.Err? ==> r.error == Some(answer.msg)
  {
    match answer
    case Err(_, msg) => Reply(None, Some(msg))
    case Ok(row) => if row.None? then Reply(None, Some("Order not found")) else Reply(Some(OrderOf(row.value)), None)
  }

  /** `createOrderProxy(userId, orderData, orderItems)`, given the answers of
    * the order insert (the new row's id), the item insert and the final read.
    * Also returns the order payload and the item payloads it sends. */
  function CreateOrderProxy(userId: string, d: OrderDraft, items: seq<ItemFields>,
                            insert: Outcome<Option<string>>, itemsInsert: Outcome<()>, final: Outcome<Option<OrderRow>>)
    : (r: (Reply<Order>, OrderPayload, Option<seq<(string, ItemFields)>>))
    ensures ExactlyOne(r.0)
    ensures r.1 == PayloadOf(userId, d)
    ensures r.2 == ItemsSent(insert, items)
    ensures r.0.data.Some? <==> insert.Ok? && insert.value.Some? && itemsInsert.Ok? && final.Ok? && final.value.Some?
    ensures r.0.data.Some? ==> r.0.data.value == OrderOf(final.value.value)
    ensures insert == Ok(None) ==> r.0.error == Some("Failed to create order")
  {
    (ReplyOf(CreateChain(insert, itemsInsert, final)), PayloadOf(userId, d), ItemsSent(insert, items))
  }
}
