/** The admin panel (src/pages/AdminPage.tsx): editing the product list through
  * a modal form and setting order statuses, both on local state. */
module AdminPage {
  import opened Common
  import opened Types

  /** One change event of the product form: the name and description inputs
    * give their text, the price input (`type="number"`) its parsed value, the
    * availability checkbox its checked flag. */
  datatype FormChange =
    | NameInput(text: string)
    | PriceInput(price: int)
    | DescriptionInput(text: string)
    | AvailableInput(checked: bool)

  /** `{ ...editingProduct, [name]: val }` for one form change: the named
    * field changes and nothing else. */
  function Applied(p: Product, e: FormChange): (r: Product)
    ensures e.NameInput? ==> r == p.(name := e.text)
    ensures e.PriceInput? ==> r == p.(price := e.price)
    ensures e.DescriptionInput? ==> r == p.(description := Some(e.text))
    ensures e.AvailableInput? ==> r == p.(isAvailable := e.checked)
    ensures r.id == p.id && r.category == p.category && r.addons == p.addons
  {
    match e
    case NameInput(text) => p.(name := text)
    case PriceInput(price) => p.(price := price)
    case DescriptionInput(text) => p.(description := Some(text))
    case AvailableInput(checked) => p.(isAvailable := checked)
  }

  /** The blank product `handleAddNewProduct` opens: no id or name, price 0,
    * the first category (or none), available, no add-ons. */
  function NewProductTemplate(categories: seq<Category>): (p: Product)
    ensures p.id == "" && p.name == "" && p.price == 0 && p.isAvailable && p.addons == Some([])
    ensures p.category == (if categories == [] then "" else categories[0].id)
  {
    Product("", None, "", 0, if categories == [] then "" else categories[0].id, None, None, true, Some([]))
  }

  /** `products.map(p => p.id === product.id ? product : p)` */
  function ReplaceProduct(products: seq<Product>, product: Product): (r: seq<Product>)
    ensures |r| == |products|
    ensures forall i :: 0 <= i < |products| ==> r[i] == (if products[i].id == product.id then product else products[i])
  {
    seq(|products|, i requires 0 <= i < |products| => if products[i].id == product.id then product else products[i])
  }

  /** The id a new product gets: `prod-` and the clock in milliseconds. */
  function NewProductId(nowMs: int): (id: string)
    ensures |id| > 5 && id[..5] == "prod-"
  {
    "prod-" + IntToString(nowMs)
  }

  /** `orders.map(o => o.id === orderId ? { ...o, status } : o)`: only the
    * status changes, and only on the orders with that id. */
  function SetStatus(orders: seq<Order>, orderId: string, status: OrderStatus): (r: seq<Order>)
    ensures |r| == |orders|
    ensures forall i :: 0 <= i < |orders| ==>
      r[i] == (if orders[i].id == orderId then orders[i].(status := status.Name()) else orders[i])
  {
    seq(|orders|, i requires 0 <= i < |orders| =>
      if orders[i].id == orderId then orders[i].(status := status.Name()) else orders[i])
  }

  /** Saving a product that is listed under its id makes the lookup by that
    * id return the saved product. */
  lemma SavedProductIsFound(products: seq<Product>, product: Product)
    requires exists i :: 0 <= i < |products| && products[i].id == product.id
    ensures FindProduct(ReplaceProduct(products, product), product.id) == Some(product)
  {
    var r := ReplaceProduct(products, product);
    var k :| 0 <= k < |products| && products[k].id == product.id;
    assert r[k] == product;
    FoundIsFirst(r, product.id, product);
  }

  /** When every product listed under an id is the same product, the lookup
    * by that id returns it. */
  lemma {:induction false} FoundIsFirst(products: seq<Product>, id: string, product: Product)
    requires forall i :: 0 <= i < |products| && products[i].id == id ==> products[i] == product
    requires exists i :: 0 <= i < |products| && products[i].id == id
    ensures FindProduct(products, id) == Some(product)
  {
    if products[0].id != id {
      var k :| 0 <= k < |products| && products[k].id == id;
      assert products[1..][k - 1] == products[k];
      FoundIsFirst(products[1..], id, product);
    }
  }

  /** A product added under a fresh id is found by it. */
  lemma AddedProductIsFound(products: seq<Product>, product: Product, nowMs: int)
    requires forall i :: 0 <= i < |products| ==> products[i].id != NewProductId(nowMs)
    ensures var added := product.(id := NewProductId(nowMs));
      FindProduct(products + [added], added.id) == Some(added)
  {
    var added := product.(id := NewProductId(nowMs));
    var r := products + [added];
    assert r[|products|] == added;
    FoundIsFirst(r, added.id, added);
  }

  class AdminPanel {
    var products: seq<Product>
    var orders: seq<Order>
    var categories: seq<Category>
    var editingProduct: Option<Product>
    var isProductModalOpen: bool

    /** The panel over its initial products, orders and categories. */
    constructor(products0: seq<Product>, orders0: seq<Order>, categories0: seq<Category>)
      ensures products == products0 && orders == orders0 && categories == categories0
      ensures editingProduct.None? && !isProductModalOpen
    {
      products := products0;
      orders := orders0;
      categories := categories0;
      editingProduct := None;
      isProductModalOpen := false;
    }

    /** `handleEditProduct(product)` */
    method HandleEditProduct(product: Product)
      modifies this
      ensures editingProduct == Some(product) && isProductModalOpen
      ensures products == old(products) && orders == old(orders) && categories == old(categories)
    {
      editingProduct := Some(product);
      isProductModalOpen := true;
    }

    /** `handleAddNewProduct()` */
    method HandleAddNewProduct()
      modifies this
      ensures editingProduct == Some(NewProductTemplate(categories)) && isProductModalOpen
      ensures products == old(products) && orders == old(orders) && categories == old(categories)
    {
      editingProduct := Some(NewProductTemplate(categories));
      isProductModalOpen := true;
    }

    /** `handleProductFormChange(e)`: a no-op without a product being edited. */
    method HandleProductFormChange(e: FormChange)
      modifies this
      ensures editingProduct == (if old(editingProduct).Some? then Some(Applied(old(editingProduct).value, e)) else None)
      ensures products == old(products) && orders == old(orders) && categories == old(categories)
      ensures isProductModalOpen == old(isProductModalOpen)
    {
      if editingProduct.Some? {
        editingProduct := Some(Applied(editingProduct.value, e));
      }
    }

    /** `handleProductCategoryChange(categoryId)` */
    method HandleProductCategoryChange(categoryId: string)
      modifies this
      ensures editingProduct == (if old(editingProduct).Some? then Some(old(editingProduct).value.(category := categoryId)) else None)
      ensures products == old(products) && orders == old(orders) && categories == old(categories)
      ensures isProductModalOpen == old(isProductModalOpen)
    {
      if editingProduct.Some? {
        editingProduct := Some(editingProduct.value.(category := categoryId));
      }
    }

    /** `handleSaveProduct()`: a product with an id replaces the products with
      * that id; one without gets `NewProductId(nowMs)` and is appended. The
      * modal then closes. A no-op without a product being edited. */
    method HandleSaveProduct(nowMs: int)
      modifies this
      ensures old(editingProduct).None? ==>
        products == old(products) && editingProduct.None? && isProductModalOpen == old(isProductModalOpen)
      ensures old(editingProduct).Some? && old(editingProduct).value.id != "" ==>
        products == ReplaceProduct(old(products), old(editingProduct).value)
      ensures old(editingProduct).Some? && old(editingProduct).value.id == "" ==>
        products == old(products) + [old(editingProduct).value.(id := NewProductId(nowMs))]
      ensures old(editingProduct).Some? ==> editingProduct.None? && !isProductModalOpen
      ensures orders == old(orders) && categories == old(categories)
    {
      if editingProduct.None? {
        return;
      }
      var p := editingProduct.value;
      if p.id != "" {
        products := ReplaceProduct(products, p);
      } else {
        products := products + [p.(id := NewProductId(nowMs))];
      }
      isProductModalOpen := false;
      editingProduct := None;
    }

    /** `handleUpdateOrderStatus(orderId, newStatus)` */
    method HandleUpdateOrderStatus(orderId: string, newStatus: OrderStatus)
      modifies this
      ensures orders == SetStatus(old(orders), orderId, newStatus)
      ensures products == old(products) && editingProduct == old(editingProduct) && categories == old(categories)
      ensures isProductModalOpen == old(isProductModalOpen)
    {
      orders := SetStatus(orders, orderId, newStatus);
    }
  }
}
