/** The checkout page (src/pages/CheckoutPage.tsx): turning the cart into an
  * order draft and its items, placing the order through the proxy, and what
  * success and failure do to the page and the cart. */
module Checkout {
  import opened Common
  import opened Types
  import opened OrderRows
  import Cart
  import OrderProxy

  /** `` `${first_name} ${last_name || ''}`.trim() `` */
  function CustomerName(user: TelegramUser): string
  {
    Trim(user.firstName + " " + OrElse(user.lastName, ""))
  }

  /** A name with no white space at either end. */
  predicate Tidy(s: string)
  {
    s != [] && !IsSpace(s[0]) && !IsSpace(s[|s| - 1])
  }

  /** With tidy names, the customer name is the first name alone when there is
    * no last name, and "first last" otherwise. */
  lemma CustomerNameOfTidyNames(user: TelegramUser)
    requires Tidy(user.firstName)
    requires Truthy(user.lastName) ==> Tidy(user.lastName.value)
    ensures !Truthy(user.lastName) ==> CustomerName(user) == user.firstName
    ensures Truthy(user.lastName) ==> CustomerName(user) == user.firstName + " " + user.lastName.value
  {
    var f := user.firstName;
    if !Truthy(user.lastName) {
      var s := f + " " + "";
      assert s == f + " ";
      assert TrimStart(s) == s;
      assert s[..|s| - 1] == f;
      assert TrimEnd(s) == TrimEnd(f);
    } else {
      var s := f + " " + user.lastName.value;
      assert TrimStart(s) == s;
      assert TrimEnd(s) == s;
    }
  }

  /** The order item sent for one cart line. */
  function OrderItemOf(item: CartItem): (f: ItemFields)
    ensures f.productId == item.productId && f.quantity == item.quantity && f.unitPrice == item.unitPrice
    ensures f.itemTotalPrice == Some(item.totalPrice) && f.selectedAddons == Some(item.selectedAddons)
  {
    ItemFields(item.productId, item.name, item.quantity, item.unitPrice, Some(item.totalPrice),
               item.imageUrl, Some(item.selectedAddons))
  }

  /** `cart.map(...)`: one order item per cart line, in cart order. */
  function OrderItems(cart: seq<CartItem>): (r: seq<ItemFields>)
    ensures |r| == |cart|
    ensures forall i :: 0 <= i < |cart| ==> r[i] == OrderItemOf(cart[i])
  {
    seq(|cart|, i requires 0 <= i < |cart| => OrderItemOf(cart[i]))
  }

  /** The order data: status "pending", the cart's totals, the customer name. */
  function Draft(user: TelegramUser, cart: seq<CartItem>): (d: OrderDraft)
    ensures d.status == Some("pending") && d.customerName == Some(CustomerName(user))
    ensures d.subtotal == Some(Cart.Subtotal(cart) as real) && d.tax == Some(Cart.Tax(cart))
    ensures d.deliveryFee == Some(Cart.DeliveryFee(cart) as real) && d.total == Some(Cart.Total(cart))
  {
    OrderDraft(Some("pending"), Some(Cart.Subtotal(cart) as real), Some(Cart.Tax(cart)),
               Some(Cart.DeliveryFee(cart) as real), Some(Cart.Total(cart)),
               None, None, None, None, Some(CustomerName(user)), None)
  }

  /** Every line's total is its quantity times its unit price, as the cart keeps it. */
  predicate PricedLines(cart: seq<CartItem>)
  {
    forall i :: 0 <= i < |cart| ==> cart[i].totalPrice == cart[i].quantity * cart[i].unitPrice
  }

  /** A cart line sent as an order item and read back is the same line under
    * the stored item's id. */
  lemma LineReadsBack(item: CartItem, id: string)
    requires item.totalPrice == item.quantity * item.unitPrice
    ensures ItemOf(ItemRow(id, OrderItemOf(item))) == item.(id := id)
  {
  }

  /** When the backend stores what checkout sends, the order the proxy returns
    * is the cart: "pending", the cart's subtotal, tax, fee and total, and its
    * lines in order under their stored ids. */
  lemma PlacedOrderIsTheCart(user: TelegramUser, cart: seq<CartItem>, orderId: string, itemIds: seq<string>,
                             createdAt: string, updatedAt: string)
    requires PricedLines(cart) && |itemIds| == |cart|
    ensures var items := OrderItems(cart);
      var rows := seq(|cart|, i requires 0 <= i < |cart| => ItemRow(itemIds[i], items[i]));
      var payload := PayloadOf(IntToString(user.id), Draft(user, cart));
      var final := Ok(Some(StoredRow(orderId, payload, rows, createdAt, updatedAt)));
      var reply := OrderProxy.CreateOrderProxy(IntToString(user.id), Draft(user, cart), items,
                                                Ok(Some(orderId)), Ok(()), final).0;
      reply.data.Some? && reply.error.None?
      && reply.data.value.status == "pending"
      && reply.data.value.subtotal == Cart.Subtotal(cart) as real && reply.data.value.tax == Cart.Tax(cart)
      && reply.data.value.deliveryFee == Cart.DeliveryFee(cart) as real && reply.data.value.total == Cart.Total(cart)
      && |reply.data.value.items| == |cart|
      && forall i :: 0 <= i < |cart| ==> reply.data.value.items[i] == cart[i].(id := itemIds[i])
  {
    var items := OrderItems(cart);
    var rows := seq(|cart|, i requires 0 <= i < |cart| => ItemRow(itemIds[i], items[i]));
    var d := Draft(user, cart);
    DraftReadsBack(orderId, IntToString(user.id), d, rows, createdAt, updatedAt);
    forall i | 0 <= i < |cart| ensures ItemsOf(rows)[i] == cart[i].(id := itemIds[i]) {
      LineReadsBack(cart[i], itemIds[i]);
    }
  }

  /** `disabled={isLoading || cart.length === 0}` */
  function PlaceOrderDisabled(isLoading: bool, cart: seq<CartItem>): (r: bool)
    ensures r <==> isLoading || |cart| == 0
  {
    isLoading || cart == []
  }

  class CheckoutPage {
    var isLoading: bool
    var error: Option<string>
    /** Where the page navigated after a successful order. */
    var navigatedTo: Option<string>

    constructor()
      ensures !isLoading && error.None? && navigatedTo.None?
    {
      isLoading := false;
      error := None;
      navigatedTo := None;
    }

    /** `handlePlaceOrder()`, given the user, the cart, and the backend's
      * answers to the proxy's three calls; returns the proxy's reply, or
      * `None` when a guard stopped the call. */
    method HandlePlaceOrder(user: Option<TelegramUser>, cart: Cart.CartStore,
                            insert: Outcome<Option<string>>, itemsInsert: Outcome<()>, final: Outcome<Option<OrderRow>>)
      returns (reply: Option<OrderProxy.Reply<Order>>)
      modifies this, cart
      ensures (user.None? || user.value.id == 0) ==>
        reply.None? && error == Some("User not authenticated. Please login.")
        && cart.items == old(cart.items) && isLoading == old(isLoading) && navigatedTo == old(navigatedTo)
      ensures user.Some? && user.value.id != 0 && old(cart.items) == [] ==>
        reply.None? && error == Some("Your cart is empty.")
        && cart.items == old(cart.items) && isLoading == old(isLoading) && navigatedTo == old(navigatedTo)
      ensures user.Some? && user.value.id != 0 && old(cart.items) != [] ==>
        reply == Some(OrderProxy.CreateOrderProxy(IntToString(user.value.id), Draft(user.value, old(cart.items)),
                                                 OrderItems(old(cart.items)), insert, itemsInsert, final).0)
        && !isLoading
      ensures reply.Some? && reply.value.data.Some? ==>
        cart.items == [] && error.None? && navigatedTo == Some("/order-confirmation/" + reply.value.data.value.id)
      ensures reply.Some? && reply.value.error.Some? ==>
        cart.items == old(cart.items) && navigatedTo == old(navigatedTo)
        && error == Some("Order placement failed: " + reply.value.error.value)
    {
      reply := None;
      if user.None? || user.value.id == 0 {
        error := Some("User not authenticated. Please login.");
        return;
      }
      if |cart.items| == 0 {
        error := Some("Your cart is empty.");
        return;
      }
      isLoading := true;
      error := None;
      var u := user.value;
      var answer := OrderProxy.CreateOrderProxy(IntToString(u.id), Draft(u, cart.items), OrderItems(cart.items),
                                                insert, itemsInsert, final).0;
      reply := Some(answer);
      if answer.data.Some? {
        cart.ClearCart();
        navigatedTo := Some("/order-confirmation/" + answer.data.value.id);
      } else {
        error := Some("Order placement failed: " + answer.error.value);
      }
      isLoading := false;
    }
  }
}
