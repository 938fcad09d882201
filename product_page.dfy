/** The older product page (src/pages/ProductPage.tsx), which reads a built-in
  * product list: its own initial selections, a toggle that keeps emptied lists,
  * the total price it keeps in state, the first-missing required add-on check
  * and the quantity input. */
module ProductPage {
  import opened Common
  import opened Types
  import ProductDetail
  import Cart

  // ---------------------------------------------------------------- the built-in product

  /** The one built-in product, prices in cents. */
  const MockProducts: seq<Product> := [
    Product("1", Some("BKS"), "Beef Krapow Set", 1590, "Main", Some("https://via.placeholder.com/400x300"),
      Some("Stir-fried minced beef with holy basil, served with rice and a fried egg. Comes with a choice of drink."),
      true,
      Some([
        AddonType("addon_spice", "Spicy Level", Some("Choose your preferred spice level"), true, false, [
          AddonOption("spice_none", "Non Spicy", 0, false),
          AddonOption("spice_less", "Less Spicy", 0, true),
          AddonOption("spice_normal", "Normal Spicy", 0, false),
          AddonOption("spice_extra", "Extra Spicy", 50, false)]),
        AddonType("addon_basil", "Basil Type", Some("Select your type of basil"), false, false, [
          AddonOption("basil_holy", "Thai Holy Basil", 0, true),
          AddonOption("basil_thai", "Thai Basil", 0, false),
          AddonOption("basil_none", "No Basil", 0, false)]),
        AddonType("addon_drink", "Choose Drink", Some("Select one drink for your set"), true, false, [
          AddonOption("drink_kickapoo", "Kickapoo", 0, true),
          AddonOption("drink_wintermelon", "Winter Melon", 0, false),
          AddonOption("drink_soya", "Soya Bean", 0, false),
          AddonOption("drink_lemontea", "Ice Lemon Tea", 0, false)])]))]

  // ---------------------------------------------------------------- initial selections

  /** The entry an add-on type gets when the page opens: required types and
    * types with a default get one; a multi-select type holds its default in a
    * list, or an empty list; a single-select type holds its default, else its
    * first option, else the empty string. */
  function PageDefault(t: AddonType): (r: Option<Choice>)
    ensures r.Some? <==> t.isRequired || FindDefault(t.options).Some?
    ensures r.Some? && t.multipleSelection ==>
      r.value == Many(if FindDefault(t.options).Some? then [FindDefault(t.options).value.id] else [])
    ensures r.Some? && !t.multipleSelection ==>
      r.value == One(if FindDefault(t.options).Some? then FindDefault(t.options).value.id
                     else if |t.options| > 0 then t.options[0].id else "")
  {
    if t.isRequired || FindDefault(t.options).Some? then
      var d := FindDefault(t.options);
      if t.multipleSelection then Some(Many(if d.Some? then [d.value.id] else []))
      else Some(One(if d.Some? then d.value.id else if |t.options| > 0 then t.options[0].id else ""))
    else None
  }

  function InitialAddons(types: seq<AddonType>): Selections
  {
    PutEach(types, PageDefault)
  }

  /** The effect that fills the initial selections in. */
  method InitialSelections(product: Product) returns (initial: Selections)
    ensures initial == (if product.addons.Some? then InitialAddons(product.addons.value) else [])
  {
    initial := [];
    if product.addons.Some? {
      var types := product.addons.value;
      var i := 0;
      while i < |types|
        invariant 0 <= i <= |types|
        invariant initial == InitialAddons(types[..i])
      {
        assert types[..i + 1][..i] == types[..i];
        var t := types[i];
        var defaultOption := FindDefault(t.options);
        if t.isRequired || defaultOption.Some? {
          if t.multipleSelection {
            initial := Put(initial, t.id, Many(if defaultOption.Some? then [defaultOption.value.id] else []));
          } else if defaultOption.Some? {
            initial := Put(initial, t.id, One(defaultOption.value.id));
          } else {
            initial := Put(initial, t.id, One(if |t.options| > 0 then t.options[0].id else ""));
          }
        }
        i := i + 1;
      }
      assert types[..i] == types;
    }
  }

  // ---------------------------------------------------------------- toggling

  /** `handleAddonSelection(addonId, optionId, isMultiple)`: an emptied list stays. */
  function PageToggle(sel: Selections, typeId: string, optionId: string, isMulti: bool): (r: Selections)
    ensures forall k :: k != typeId ==> Lookup(r, k) == Lookup(sel, k)
    ensures !isMulti ==> Lookup(r, typeId) == Some(One(optionId))
    ensures isMulti ==>
      Lookup(r, typeId).Some? && Lookup(r, typeId).value.Many?
      && (optionId in Lookup(r, typeId).value.ids <==> optionId !in ProductDetail.CurrentIds(sel, typeId))
  {
    if !isMulti then Put(sel, typeId, One(optionId))
    else
      var current := ProductDetail.CurrentIds(sel, typeId);
      Put(sel, typeId, Many(if optionId in current then WithoutId(current, optionId) else current + [optionId]))
  }

  /** The two pages toggle alike except when a list empties: there this page
    * keeps the key with `[]` where the detail page deletes it. */
  lemma PageToggleAgreesWithDetail(sel: Selections, typeId: string, optionId: string, isMulti: bool)
    ensures var r := PageToggle(sel, typeId, optionId, isMulti);
      r == ProductDetail.Toggle(sel, typeId, optionId, isMulti)
      || (isMulti && Lookup(r, typeId) == Some(Many([]))
          && Lookup(ProductDetail.Toggle(sel, typeId, optionId, isMulti), typeId).None?)
  {
  }

  // ---------------------------------------------------------------- validation

  /** The name of the first required add-on type without a selection. */
  function FirstMissing(types: seq<AddonType>, sel: Selections): (r: Option<string>)
    ensures r.None? <==> forall i :: 0 <= i < |types| && types[i].isRequired ==> ProductDetail.Selected(Lookup(sel, types[i].id))
    ensures r.Some? ==> exists i :: 0 <= i < |types| && types[i].isRequired && types[i].name == r.value
                                   && !ProductDetail.Selected(Lookup(sel, types[i].id))
  {
    if types == [] then None
    else if types[0].isRequired && !ProductDetail.Selected(Lookup(sel, types[0].id)) then Some(types[0].name)
    else
      var r := FirstMissing(types[1..], sel);
      assert forall i :: 1 <= i < |types| ==> types[i] == types[1..][i - 1];
      r
  }

  /** The `for … of` loop of `handleAddToCart`, which stops at the first
    * missing selection. */
  method FirstMissingRequired(types: seq<AddonType>, sel: Selections) returns (missing: Option<string>)
    ensures missing == FirstMissing(types, sel)
  {
    var i := 0;
    while i < |types|
      invariant 0 <= i <= |types|
      invariant FirstMissing(types, sel) == FirstMissing(types[i..], sel)
    {
      var t := types[i];
      if t.isRequired {
        var selection := Lookup(sel, t.id);
        if selection.None? || selection == Some(One("")) || (selection.value.Many? && |selection.value.ids| == 0) {
          return Some(t.name);
        }
      }
      assert types[i..][1..] == types[i + 1..];
      i := i + 1;
    }
    return None;
  }

  lemma {:induction false} FirstMissingSnoc(types: seq<AddonType>, t: AddonType, sel: Selections)
    ensures FirstMissing(types + [t], sel) ==
      if FirstMissing(types, sel).Some? then FirstMissing(types, sel)
      else if t.isRequired && !ProductDetail.Selected(Lookup(sel, t.id)) then Some(t.name) else None
  {
    if types != [] {
      assert (types + [t])[1..] == types[1..] + [t];
      FirstMissingSnoc(types[1..], t, sel);
    }
  }

  /** This page reports the first of the add-ons the detail page lists as missing. */
  lemma {:induction false} FirstMissingIsFirstOfMissing(types: seq<AddonType>, sel: Selections)
    ensures FirstMissing(types, sel).None? <==> ProductDetail.MissingRequired(types, sel) == []
    ensures FirstMissing(types, sel).Some? ==>
      FirstMissing(types, sel).value == ProductDetail.MissingRequired(types, sel)[0]
  {
    if types != [] {
      var init, t := types[..|types| - 1], types[|types| - 1];
      assert types == init + [t];
      FirstMissingIsFirstOfMissing(init, sel);
      FirstMissingSnoc(init, t, sel);
    }
  }

  /** A required multi-select add-on without a default starts as `[]` and so
    * blocks adding to the cart until something is picked. */
  lemma RequiredListWithoutDefaultBlocks(types: seq<AddonType>, i: int)
    requires DistinctTypeIds(types)
    requires 0 <= i < |types|
    requires types[i].isRequired && types[i].multipleSelection && FindDefault(types[i].options).None?
    ensures FirstMissing(types, InitialAddons(types)).Some?
  {
    FindTypeIsFirst(types, i);
    PutEachLookup(types, PageDefault, types[i].id);
    assert Lookup(InitialAddons(types), types[i].id) == Some(Many([]));
  }

  // ---------------------------------------------------------------- quantity

  /** `Math.max(1, parseInt(value, 10) || 1)` */
  function QuantityFromInput(value: string): (q: int)
    ensures q >= 1
    ensures ParseInt(value).Some? && ParseInt(value).value >= 1 ==> q == ParseInt(value).value
    ensures ParseInt(value).None? ==> q == 1
  {
    var parsed := match ParseInt(value) { case Some(n) => if n == 0 then 1 else n case None => 1 };
    if parsed < 1 then 1 else parsed
  }

  /** Typing a positive number sets the quantity to it. */
  lemma QuantityOfTypedNumber(n: int)
    requires n >= 1
    ensures QuantityFromInput(IntToString(n)) == n
  {
    ParseIntOfIntToString(n);
  }

  // ---------------------------------------------------------------- the page

  class Page {
    /** The product list the page searches: `MockProducts`. */
    const products: seq<Product>
    var product: Option<Product>
    var quantity: int
    var selected: Selections
    var totalPrice: int

    constructor()
      ensures products == MockProducts
      ensures product.None? && quantity == 1 && selected == [] && totalPrice == 0
    {
      products := MockProducts;
      product := None;
      quantity := 1;
      selected := [];
      totalPrice := 0;
    }

    /** The effect run for a route id; an unknown id leaves everything as it was. */
    method Load(productId: string)
      modifies this
      ensures FindProduct(products, productId).Some? ==>
        product == FindProduct(products, productId)
        && selected == (if product.value.addons.Some? then InitialAddons(product.value.addons.value) else [])
      ensures FindProduct(products, productId).None? ==> product == old(product) && selected == old(selected)
      ensures quantity == old(quantity) && totalPrice == old(totalPrice)
    {
      var found := FindProduct(products, productId);
      if found.Some? {
        product := found;
        selected := InitialSelections(found.value);
      }
    }

    /** The effect that keeps `totalPrice` up to date; without a product it
      * keeps its old value. */
    method RecomputeTotal()
      modifies this
      ensures totalPrice == if product.Some? then ProductDetail.DetailPrice(product, selected, quantity) else old(totalPrice)
      ensures product == old(product) && quantity == old(quantity) && selected == old(selected)
    {
      if product.Some? {
        var p := product.value;
        var current := p.price;
        if p.addons.Some? {
          var extra := ProductDetail.AddonsPrice(p.addons.value, selected);
          current := current + extra;
        }
        totalPrice := current * quantity;
      }
    }

    method HandleAddonSelection(typeId: string, optionId: string, isMulti: bool)
      modifies this
      ensures selected == PageToggle(old(selected), typeId, optionId, isMulti)
      ensures product == old(product) && quantity == old(quantity) && totalPrice == old(totalPrice)
    {
      selected := PageToggle(selected, typeId, optionId, isMulti);
    }

    /** `handleAddToCart`: the name of the add-on the error toast names, or
      * `None` when the success toast is shown (or nothing, without a product). */
    method HandleAddToCart() returns (missing: Option<string>)
      ensures product.None? ==> missing.None?
      ensures product.Some? ==> missing == FirstMissing(ProductDetail.AddonsOf(product.value), selected)
    {
      missing := None;
      if product.Some? {
        missing := FirstMissingRequired(ProductDetail.AddonsOf(product.value), selected);
      }
    }

    method SetQuantity(value: string)
      modifies this
      ensures quantity == QuantityFromInput(value) && quantity >= 1
      ensures product == old(product) && selected == old(selected) && totalPrice == old(totalPrice)
    {
      quantity := QuantityFromInput(value);
    }
  }
}
