/** The menu page (src/pages/ProductListPage.tsx): the defaults used for a quick
  * add, the category filter, the quick add itself, the shortened description
  * and the "+addons" hint. */
module ProductList {
  import opened Common
  import opened Types
  import Cart
  import ProductDetail
  import ProductContext

  /** The default a quick add uses for one add-on type: only required
    * single-select types get one, their default option or else their first. */
  function QuickDefault(t: AddonType): (r: Option<Choice>)
    ensures r.Some? ==> t.isRequired && !t.multipleSelection && |t.options| > 0 && r.value.One?
    ensures t.isRequired && !t.multipleSelection && |t.options| > 0 ==> r.Some?
    ensures r == (if t.multipleSelection then None else ProductDetail.TypeDefault(t))
  {
    if t.isRequired && !t.multipleSelection then
      match FindDefault(t.options)
      case Some(o) => Some(One(o.id))
      case None => if |t.options| > 0 then Some(One(t.options[0].id)) else None
    else None
  }

  /** `getDefaultAddons(product)`, as its loop over the add-on types. */
  method GetDefaultAddons(product: Product) returns (defaults: Selections)
    ensures defaults == (if product.addons.Some? then PutEach(product.addons.value, QuickDefault) else [])
  {
    defaults := [];
    if product.addons.Some? {
      var types := product.addons.value;
      var i := 0;
      while i < |types|
        invariant 0 <= i <= |types|
        invariant defaults == PutEach(types[..i], QuickDefault)
      {
        assert types[..i + 1][..i] == types[..i];
        var t := types[i];
        if t.isRequired && !t.multipleSelection {
          var defaultOption := FindDefault(t.options);
          if defaultOption.Some? {
            defaults := Put(defaults, t.id, One(defaultOption.value.id));
          } else if |t.options| > 0 {
            defaults := Put(defaults, t.id, One(t.options[0].id));
          }
        }
        i := i + 1;
      }
      assert types[..i] == types;
    }
  }

  /** Multi-select and optional add-on types never get a quick-add default. */
  lemma QuickDefaultsOnlyRequiredSingle(types: seq<AddonType>, key: string)
    requires Lookup(PutEach(types, QuickDefault), key).Some?
    ensures exists i :: 0 <= i < |types| && types[i].id == key
                        && types[i].isRequired && !types[i].multipleSelection && |types[i].options| > 0
  {
    PutEachKeys(types, QuickDefault, key);
  }

  /** On single-select types the quick add picks what the detail page
    * preselects; multi-select types are left out. */
  lemma QuickDefaultsAgreeWithDetail(types: seq<AddonType>, key: string)
    requires DistinctTypeIds(types)
    ensures Lookup(PutEach(types, QuickDefault), key) ==
      if FindType(types, key).Some? && !FindType(types, key).value.multipleSelection
      then Lookup(ProductDetail.Defaults(types), key) else None
  {
    PutEachLookup(types, QuickDefault, key);
    ProductDetail.DefaultsAreTypeDefaults(types, key);
  }

  /** `selectedCategory === 'all' ? products : getProductsByCategory(selectedCategory)` */
  function Displayed(products: seq<Product>, selectedCategory: string): (r: seq<Product>)
    ensures selectedCategory == "all" ==> r == products
    ensures selectedCategory != "all" ==> forall p :: p in r <==> p in products && p.category == selectedCategory
  {
    if selectedCategory == "all" then products else ProductContext.ByCategory(products, selectedCategory)
  }

  /** The selection a quick add uses. */
  function QuickSelection(product: Product): Selections
  {
    if product.addons.Some? && |product.addons.value| > 0 then PutEach(product.addons.value, QuickDefault) else []
  }

  /** `handleAddToCart(product)`: one unit with the quick-add defaults. */
  method HandleAddToCart(cart: Cart.CartStore, product: Product)
    modifies cart
    ensures cart.items == Cart.AddedToCart(old(cart.items), product, 1, QuickSelection(product))
  {
    if product.addons.Some? && |product.addons.value| > 0 {
      var defaultSelections := GetDefaultAddons(product);
      cart.AddToCart(product, 1, defaultSelections);
    } else {
      cart.AddToCart(product, 1, []);
    }
  }

  /** A product without add-ons goes into the cart under its own id: one more
    * unit on its line if it has one, else a new line at its base price. */
  lemma QuickAddPlainProduct(items: seq<CartItem>, product: Product)
    requires product.addons.None? || product.addons.value == []
    requires Cart.UniqueIds(items)
    ensures var r := Cart.AddedToCart(items, product, 1, QuickSelection(product));
      (Cart.HasItem(items, product.id) ==> |r| == |items| && Cart.TotalQuantity(r) == Cart.TotalQuantity(items) + 1)
      && (!Cart.HasItem(items, product.id) ==>
            r == items + [CartItem(product.id, product.id, product.name, 1, product.price, product.price,
                                   product.imageUrl, [])])
  {
    Cart.AddToCartShape(items, product, 1, []);
    Cart.AddToCartTotalQuantity(items, product, 1, []);
  }

  /** The description line: the first 60 characters and "..." for a longer
    * description, a placeholder for a missing or empty one. */
  function ShortDescription(description: Option<string>): (r: string)
    ensures !Truthy(description) ==> r == "No description available."
    ensures Truthy(description) && |description.value| <= 60 ==> r == description.value
    ensures Truthy(description) && |description.value| > 60 ==>
      |r| == 63 && r[..60] == description.value[..60] && r[60..] == "..."
  {
    if !Truthy(description) then "No description available."
    else if |description.value| > 60 then description.value[..60] + "..."
    else description.value
  }

  /** Some option of the add-on types costs extra. */
  predicate AnyPricedOption(types: seq<AddonType>)
  {
    exists i, j :: 0 <= i < |types| && 0 <= j < |types[i].options| && types[i].options[j].additionalPrice > 0
  }

  /** The "+addons" hint is shown exactly when some option costs extra. */
  function ShowsAddonsHint(product: Product): (r: bool)
    ensures r <==> product.addons.Some? && AnyPricedOption(product.addons.value)
  {
    product.addons.Some? && HasPricedOption(product.addons.value)
  }

  function HasPricedOption(types: seq<AddonType>): (r: bool)
    ensures r <==> AnyPricedOption(types)
  {
    if types == [] then false
    else
      var here := exists j :: 0 <= j < |types[0].options| && types[0].options[j].additionalPrice > 0;
      var rest := HasPricedOption(types[1..]);
      assert AnyPricedOption(types) <==> here || AnyPricedOption(types[1..]) by {
        if AnyPricedOption(types) && !here {
          var i, j :| 0 <= i < |types| && 0 <= j < |types[i].options| && types[i].options[j].additionalPrice > 0;
          assert types[1..][i - 1] == types[i];
        }
        if AnyPricedOption(types[1..]) {
          var i, j :| 0 <= i < |types[1..]| && 0 <= j < |types[1..][i].options| && types[1..][i].options[j].additionalPrice > 0;
          assert types[i + 1] == types[1..][i];
        }
      }
      here || rest
  }

  /** A product card offers a quick "Add to Cart" only without add-ons;
    * otherwise it links to the options page. Either is disabled when the
    * product is unavailable. */
  function CardAction(product: Product): (r: (bool, bool))
    ensures r.0 <==> product.addons.None? || product.addons.value == []
    ensures r.1 <==> !product.isAvailable
  {
    (!(product.addons.Some? && |product.addons.value| > 0), !product.isAvailable)
  }
}
