/** The product detail page (src/pages/ProductDetailPage.tsx): default add-on
  * selections, toggling a selection, the live price, the required add-on check
  * before adding to the cart, and the quantity stepper. */
module ProductDetail {
  import opened Common
  import opened Types
  import Cart

  // ---------------------------------------------------------------- defaults

  /** `options.filter(opt => opt.isDefault).map(opt => opt.id)` */
  function DefaultIds(options: seq<AddonOption>): (r: seq<string>)
    ensures |r| <= |options|
    ensures forall x :: x in r <==> exists i :: 0 <= i < |options| && options[i].isDefault && options[i].id == x
  {
    if options == [] then []
    else (if options[0].isDefault then [options[0].id] else []) + DefaultIds(options[1..])
  }

  /** The default ids keep the options' order: the ids of a concatenation are
    * the ids of its parts, concatenated. */
  lemma {:induction false} DefaultIdsAppend(a: seq<AddonOption>, b: seq<AddonOption>)
    ensures DefaultIds(a + b) == DefaultIds(a) + DefaultIds(b)
  {
    if a == [] {
      assert a + b == b;
    } else {
      var ab := a + b;
      assert ab[0] == a[0] && ab[1..] == a[1..] + b;
      DefaultIdsAppend(a[1..], b);
      var head := if a[0].isDefault then [a[0].id] else [];
      assert DefaultIds(ab) == head + DefaultIds(a[1..] + b);
      assert DefaultIds(a) == head + DefaultIds(a[1..]);
    }
  }

  /** The default an add-on type gets when the page opens, if any. */
  function TypeDefault(t: AddonType): (r: Option<Choice>)
    ensures r.Some? ==> t.isRequired
    ensures r.Some? && t.multipleSelection ==> r.value.Many? && r.value.ids == DefaultIds(t.options) != []
    ensures t.isRequired && t.multipleSelection && DefaultIds(t.options) != [] ==> r.Some?
    ensures t.isRequired && !t.multipleSelection ==> (r.Some? <==> |t.options| > 0)
    ensures r.Some? && !t.multipleSelection ==>
      r.value == One(if FindDefault(t.options).Some? then FindDefault(t.options).value.id else t.options[0].id)
  {
    if !t.isRequired then None
    else if t.multipleSelection then
      var ids := DefaultIds(t.options);
      if |ids| > 0 then Some(Many(ids)) else None
    else
      match FindDefault(t.options)
      case Some(o) => Some(One(o.id))
      case None => if |t.options| > 0 then Some(One(t.options[0].id)) else None
  }

  /** The selection object the page starts from. */
  function Defaults(types: seq<AddonType>): Selections
  {
    PutEach(types, TypeDefault)
  }

  /** With distinct add-on type ids, each key holds exactly the default of the
    * type of that id: optional types and types without a default get no key. */
  lemma DefaultsAreTypeDefaults(types: seq<AddonType>, key: string)
    requires DistinctTypeIds(types)
    ensures Lookup(Defaults(types), key) ==
      match FindType(types, key) { case Some(t) => TypeDefault(t) case None => None }
    ensures Lookup(Defaults(types), key).Some? ==> FindType(types, key).value.isRequired
  {
    PutEachLookup(types, TypeDefault, key);
  }

  /** The effect that fills the defaults in, as the loop over the add-on types. */
  method InitialSelections(product: Product) returns (defaults: Selections)
    ensures defaults == (if product.addons.Some? then Defaults(product.addons.value) else [])
  {
    defaults := [];
    if product.addons.Some? {
      var types := product.addons.value;
      var i := 0;
      while i < |types|
        invariant 0 <= i <= |types|
        invariant defaults == Defaults(types[..i])
      {
        assert types[..i + 1][..i] == types[..i];
        var t := types[i];
        if t.isRequired {
          if t.multipleSelection {
            var ids := DefaultIds(t.options);
            if |ids| > 0 {
              defaults := Put(defaults, t.id, Many(ids));
            }
          } else {
            var option := FindDefault(t.options);
            if option.Some? {
              defaults := Put(defaults, t.id, One(option.value.id));
            } else if |t.options| > 0 {
              defaults := Put(defaults, t.id, One(t.options[0].id));
            }
          }
        }
        i := i + 1;
      }
      assert types[..i] == types;
    }
  }

  // ---------------------------------------------------------------- toggling

  /** The ids a multi-select key holds; a missing key reads as `[]`. */
  function CurrentIds(sel: Selections, typeId: string): seq<string>
  {
    match Lookup(sel, typeId)
    case Some(Many(ids)) => ids
    case _ => []
  }

  /** `handleAddonSelection(typeId, optionId, isMultiSelect)` */
  function Toggle(sel: Selections, typeId: string, optionId: string, isMulti: bool): (r: Selections)
    ensures forall k :: k != typeId ==> Lookup(r, k) == Lookup(sel, k)
    ensures !isMulti ==> Lookup(r, typeId) == Some(One(optionId))
    ensures isMulti && Lookup(r, typeId).Some? ==>
      Lookup(r, typeId).value.Many? && Lookup(r, typeId).value.ids != []
      && (optionId in Lookup(r, typeId).value.ids <==> optionId !in CurrentIds(sel, typeId))
    ensures isMulti && Lookup(r, typeId).None? ==> CurrentIds(sel, typeId) == [] || CurrentIds(sel, typeId) == [optionId] || optionId in CurrentIds(sel, typeId)
  {
    if !isMulti then Put(sel, typeId, One(optionId))
    else
      var current := CurrentIds(sel, typeId);
      var next := if optionId in current then WithoutId(current, optionId) else current + [optionId];
      if next == [] then Remove(sel, typeId) else Put(sel, typeId, Many(next))
  }

  /** A multi-select toggle removes a present id, appends an absent one at the end,
    * and keeps every other id. */
  lemma ToggleMultiIds(sel: Selections, typeId: string, optionId: string)
    ensures var ids := CurrentIds(sel, typeId);
      CurrentIds(Toggle(sel, typeId, optionId, true), typeId) ==
        if optionId in ids then WithoutId(ids, optionId) else ids + [optionId]
  {
  }

  /** Toggling keeps the object free of duplicate keys. */
  lemma ToggleKeepsWellFormed(sel: Selections, typeId: string, optionId: string, isMulti: bool)
    requires WellFormed(sel)
    ensures WellFormed(Toggle(sel, typeId, optionId, isMulti))
  {
    var current := CurrentIds(sel, typeId);
    var next := if optionId in current then WithoutId(current, optionId) else current + [optionId];
    if !isMulti {
      PutKeepsWellFormed(sel, typeId, One(optionId));
    } else if next == [] {
      RemoveKeepsWellFormed(sel, typeId);
    } else {
      PutKeepsWellFormed(sel, typeId, Many(next));
    }
  }

  /** Checking and then unchecking a box restores the selection object, when the
    * key was missing or held a non-empty list without that option. */
  lemma ToggleTwiceRestores(sel: Selections, typeId: string, optionId: string)
    requires Lookup(sel, typeId).None?
          || (Lookup(sel, typeId).value.Many? && Lookup(sel, typeId).value.ids != []
              && optionId !in Lookup(sel, typeId).value.ids)
    ensures Toggle(Toggle(sel, typeId, optionId, true), typeId, optionId, true) == sel
  {
    if Lookup(sel, typeId).None? {
      ToggleTwiceFromMissing(sel, typeId, optionId);
    } else {
      ToggleTwiceFromList(sel, typeId, optionId, Lookup(sel, typeId).value.ids);
    }
  }

  lemma ToggleTwiceFromMissing(sel: Selections, typeId: string, optionId: string)
    requires Lookup(sel, typeId).None?
    ensures Toggle(Toggle(sel, typeId, optionId, true), typeId, optionId, true) == sel
  {
    var once := Put(sel, typeId, Many([optionId]));
    var none: seq<string> := [];
    assert CurrentIds(sel, typeId) == none && none + [optionId] == [optionId];
    assert Toggle(sel, typeId, optionId, true) == once;
    assert CurrentIds(once, typeId) == [optionId];
    assert WithoutId([optionId], optionId) == [];
    assert Toggle(once, typeId, optionId, true) == Remove(once, typeId);
    RemoveAfterAdd(sel, typeId, Many([optionId]));
  }

  lemma ToggleTwiceFromList(sel: Selections, typeId: string, optionId: string, ids: seq<string>)
    requires Lookup(sel, typeId) == Some(Many(ids))
    requires ids != [] && optionId !in ids
    ensures Toggle(Toggle(sel, typeId, optionId, true), typeId, optionId, true) == sel
  {
    var once := Put(sel, typeId, Many(ids + [optionId]));
    assert Toggle(sel, typeId, optionId, true) == once;
    assert CurrentIds(once, typeId) == ids + [optionId];
    WithoutAppended(ids, optionId);
    assert Toggle(once, typeId, optionId, true) == Put(once, typeId, Many(ids));
    PutPut(sel, typeId, Many(ids + [optionId]), Many(ids));
    PutUnchanged(sel, typeId);
  }

  // ---------------------------------------------------------------- price

  /** What the selection under one add-on type adds to the price; a falsy
    * selection (missing, or the empty string) adds nothing. */
  function SelectionPrice(t: AddonType, c: Option<Choice>): int
  {
    match c
    case None => 0
    case Some(One(id)) => if id == "" then 0 else Cart.OptionPrice(t.options, id)
    case Some(Many(ids)) => Cart.OptionsPrice(t.options, ids)
  }

  /** The price the add-on types add, visiting the types in their own order. */
  function TypesPrice(types: seq<AddonType>, sel: Selections): int
  {
    if types == [] then 0
    else TypesPrice(types[..|types| - 1], sel) + SelectionPrice(types[|types| - 1], Lookup(sel, types[|types| - 1].id))
  }

  /** `currentPrice`: 0 without a product, otherwise the price with add-ons times
    * the quantity. */
  function DetailPrice(product: Option<Product>, sel: Selections, quantity: int): int
  {
    match product
    case None => 0
    case Some(p) => (p.price + (if p.addons.Some? then TypesPrice(p.addons.value, sel) else 0)) * quantity
  }

  lemma {:induction false} TypesPriceOfEmpty(types: seq<AddonType>)
    ensures TypesPrice(types, []) == 0
  {
    if types != [] {
      TypesPriceOfEmpty(types[..|types| - 1]);
    }
  }

  /** One more entry, under a key not yet present, adds what the cart charges for it. */
  lemma {:induction false} TypesPriceSnoc(types: seq<AddonType>, sel: Selections, key: string, v: Choice)
    requires DistinctTypeIds(types)
    requires Lookup(sel, key).None?
    requires v != One("")
    ensures TypesPrice(types, sel + [(key, v)]) == TypesPrice(types, sel) + Cart.EntryPrice(types, (key, v))
  {
    if types != [] {
      var init, t := types[..|types| - 1], types[|types| - 1];
      assert types == init + [t];
      TypesPriceSnoc(init, sel, key, v);
      LookupSnoc(sel, (key, v), t.id);
      FindTypeSnoc(init, t, key);
      if t.id == key {
        assert FindType(init, key).None? by {
          forall i | 0 <= i < |init| ensures init[i].id != key {
            assert types[i].id != types[|types| - 1].id;
          }
        }
      }
    }
  }

  /** The price the page shows is the cart's unit price for the same selection
    * times the quantity, for a selection without duplicate keys or blank
    * single choices and add-on types with distinct ids: visiting types or
    * visiting entries adds the same amounts. */
  lemma {:induction false} TypesPriceIsSelectionsPrice(types: seq<AddonType>, sel: Selections)
    requires DistinctTypeIds(types)
    requires WellFormed(sel)
    requires forall i :: 0 <= i < |sel| ==> sel[i].1 != One("")
    ensures TypesPrice(types, sel) == Cart.SelectionsPrice(types, sel)
  {
    if sel == [] {
      TypesPriceOfEmpty(types);
    } else {
      var init, last := sel[..|sel| - 1], sel[|sel| - 1];
      assert sel == init + [last];
      assert Lookup(init, last.0).None? by {
        forall i | 0 <= i < |init| ensures init[i].0 != last.0 {
          assert sel[i].0 != sel[|sel| - 1].0;
        }
      }
      TypesPriceIsSelectionsPrice(types, init);
      TypesPriceSnoc(types, init, last.0, last.1);
    }
  }

  lemma DetailPriceIsCartPrice(p: Product, sel: Selections, quantity: int)
    requires p.addons.Some? ==> DistinctTypeIds(p.addons.value)
    requires WellFormed(sel)
    requires forall i :: 0 <= i < |sel| ==> sel[i].1 != One("")
    ensures DetailPrice(Some(p), sel, quantity) == Cart.UnitPrice(p, sel) * quantity
  {
    if p.addons.Some? {
      TypesPriceIsSelectionsPrice(p.addons.value, sel);
    }
  }

  /** The loop over the product's add-on types that adds up what the selected
    * options cost. */
  method AddonsPrice(types: seq<AddonType>, sel: Selections) returns (sum: int)
    ensures sum == TypesPrice(types, sel)
  {
    sum := 0;
    var i := 0;
    while i < |types|
      invariant 0 <= i <= |types|
      invariant sum == TypesPrice(types[..i], sel)
    {
      assert types[..i + 1][..i] == types[..i];
      var t := types[i];
      var selection := Lookup(sel, t.id);
      if selection.Some? {
        match selection.value {
          case Many(ids) =>
            var extra := Cart.SumOptionPrices(t.options, ids);
            sum := sum + extra;
          case One(id) =>
            if id != "" {
              var option := FindOption(t.options, id);
              if option.Some? {
                sum := sum + option.value.additionalPrice;
              }
            }
        }
      }
      i := i + 1;
    }
    assert types[..i] == types;
  }

  // ---------------------------------------------------------------- required add-ons

  /** A selection counts when it is present and not empty. */
  predicate Selected(c: Option<Choice>)
  {
    match c
    case None => false
    case Some(One(id)) => id != ""
    case Some(Many(ids)) => ids != []
  }

  /** The names of the required add-on types without a selection, in order. */
  function MissingRequired(types: seq<AddonType>, sel: Selections): (r: seq<string>)
    ensures r == [] <==> forall i :: 0 <= i < |types| && types[i].isRequired ==> Selected(Lookup(sel, types[i].id))
  {
    if types == [] then []
    else
      var t := types[|types| - 1];
      MissingRequired(types[..|types| - 1], sel)
      + (if t.isRequired && !Selected(Lookup(sel, t.id)) then [t.name] else [])
  }

  /** The validation loop of `handleAddToCart`: one message per missing add-on. */
  method CheckRequired(types: seq<AddonType>, sel: Selections) returns (allSelected: bool, missing: seq<string>)
    ensures missing == MissingRequired(types, sel)
    ensures allSelected <==> forall i :: 0 <= i < |types| && types[i].isRequired ==> Selected(Lookup(sel, types[i].id))
  {
    allSelected := true;
    missing := [];
    var i := 0;
    while i < |types|
      invariant 0 <= i <= |types|
      invariant missing == MissingRequired(types[..i], sel)
      invariant allSelected <==> missing == []
    {
      assert types[..i + 1][..i] == types[..i];
      var t := types[i];
      if t.isRequired {
        var selection := Lookup(sel, t.id);
        if selection.None? || selection == Some(One("")) || (selection.value.Many? && |selection.value.ids| == 0) {
          allSelected := false;
          missing := missing + [t.name];
        }
      }
      i := i + 1;
    }
    assert types[..i] == types;
  }

  // ---------------------------------------------------------------- the page

  class DetailPage {
    var product: Option<Product>
    var selected: Selections
    var quantity: int
    var itemAdded: bool

    constructor()
      ensures product.None? && selected == [] && quantity == 1 && !itemAdded
    {
      product := None;
      selected := [];
      quantity := 1;
      itemAdded := false;
    }

    /** The effect run for a route id: `found` is `getProductById(productId)`.
      * When nothing is found the state stays as it was. */
    method Load(found: Option<Product>)
      modifies this
      ensures found.Some? ==>
        product == found && selected == (if found.value.addons.Some? then Defaults(found.value.addons.value) else [])
      ensures found.None? ==> product == old(product) && selected == old(selected)
      ensures quantity == old(quantity) && itemAdded == old(itemAdded)
    {
      if found.Some? {
        product := found;
        selected := InitialSelections(found.value);
      }
    }

    method HandleAddonSelection(typeId: string, optionId: string, isMulti: bool)
      modifies this
      ensures selected == Toggle(old(selected), typeId, optionId, isMulti)
      ensures product == old(product) && quantity == old(quantity) && itemAdded == old(itemAdded)
    {
      selected := Toggle(selected, typeId, optionId, isMulti);
    }

    /** `currentPrice` */
    method CurrentPrice() returns (price: int)
      ensures price == DetailPrice(product, selected, quantity)
    {
      if product.None? {
        return 0;
      }
      var p := product.value;
      price := p.price;
      if p.addons.Some? {
        var extra := AddonsPrice(p.addons.value, selected);
        price := price + extra;
      }
      price := price * quantity;
    }

    /** `handleAddToCart`: adds to the cart exactly when a product is shown and
      * every required add-on type has a selection. */
    method HandleAddToCart(cart: Cart.CartStore) returns (added: bool)
      modifies this, cart
      ensures added <==>
        product.Some? && forall i :: 0 <= i < |AddonsOf(product.value)| && AddonsOf(product.value)[i].isRequired ==>
                           Selected(Lookup(selected, AddonsOf(product.value)[i].id))
      ensures cart.items == if added then Cart.AddedToCart(old(cart.items), product.value, quantity, selected)
                            else old(cart.items)
      ensures itemAdded == (old(itemAdded) || added)
      ensures product == old(product) && selected == old(selected) && quantity == old(quantity)
    {
      added := false;
      if product.Some? {
        var allSelected, _ := CheckRequired(AddonsOf(product.value), selected);
        if !allSelected {
          return;
        }
        cart.AddToCart(product.value, quantity, selected);
        itemAdded := true;
        added := true;
      }
    }

    /** The "-" button: `Math.max(1, q - 1)`. */
    method Decrement()
      modifies this
      ensures quantity == if old(quantity) - 1 < 1 then 1 else old(quantity) - 1
      ensures quantity >= 1
      ensures product == old(product) && selected == old(selected) && itemAdded == old(itemAdded)
    {
      quantity := if quantity - 1 < 1 then 1 else quantity - 1;
    }

    /** The "+" button. */
    method Increment()
      modifies this
      ensures quantity == old(quantity) + 1
      ensures product == old(product) && selected == old(selected) && itemAdded == old(itemAdded)
    {
      quantity := quantity + 1;
    }

    /** "Continue Shopping" hides the post-add panel again. */
    method ContinueShopping()
      modifies this
      ensures !itemAdded
      ensures product == old(product) && selected == old(selected) && quantity == old(quantity)
    {
      itemAdded := false;
    }

    /** The add button is disabled without a product or for an unavailable one. */
    predicate AddDisabled()
      reads this
    {
      product.None? || !product.value.isAvailable
    }
  }

  /** `product.addons || []` */
  function AddonsOf(p: Product): (r: seq<AddonType>)
    ensures p.addons.None? ==> r == []
  {
    if p.addons.Some? then p.addons.value else []
  }
}
