/** The shopping cart (src/context/CartContext.tsx): cart-item ids derived from
  * the product and its add-on selection, the unit price with add-ons, the item
  * list the provider keeps, and the totals derived from it. */
module Cart {
  import opened Common
  import opened Types
  import KeySort

  /** `TAX_RATE` */
  const TaxRate: real := 0.07
  /** `DELIVERY_FEE`, in cents. */
  const DeliveryFeeCents: int := 500

  // ---------------------------------------------------------------- item ids

  /** An entry as the id spells it: `key:value`, a list joined with `,`. */
  function EntryText(e: (string, Choice)): string
  {
    e.0 + ":" + match e.1 { case One(id) => id case Many(ids) => Join(ids, ",") }
  }

  function EntryTexts(entries: Selections): (r: seq<string>)
    ensures |r| == |entries|
  {
    if entries == [] then [] else [EntryText(entries[0])] + EntryTexts(entries[1..])
  }

  /** `generateCartItemId(productId, addons)` */
  function GenerateCartItemId(productId: string, addons: Selections): (id: string)
    ensures addons == [] ==> id == productId
    ensures addons != [] ==> |id| > |productId| && id[..|productId|] == productId && id[|productId|] == '-'
  {
    if addons == [] then productId
    else productId + "-" + Join(EntryTexts(KeySort.SortByKey(addons)), "|")
  }

  /** The id does not depend on the order the add-on keys were inserted in. */
  lemma CartItemIdOrderIndependent(productId: string, a: Selections, b: Selections)
    requires WellFormed(a)
    requires multiset(a) == multiset(b)
    ensures GenerateCartItemId(productId, a) == GenerateCartItemId(productId, b)
  {
    if a == [] {
      assert |b| == |multiset(b)| == 0;
    } else {
      assert |b| == |multiset(b)| == |multiset(a)| == |a|;
      KeySort.SortByKeyDistinct(a);
      KeySort.SortByKeySorted(a);
      KeySort.SortByKeySorted(b);
      KeySort.SortedPermutationUnique(KeySort.SortByKey(a), KeySort.SortByKey(b));
    }
  }

  // ---------------------------------------------------------------- prices

  /** What an option id adds under an add-on type: the option's `additionalPrice`
    * when the type has that option, nothing otherwise. */
  function OptionPrice(options: seq<AddonOption>, id: string): int
  {
    match FindOption(options, id)
    case Some(o) => o.additionalPrice
    case None => 0
  }

  /** The sum of `OptionPrice` over a list of option ids. */
  function OptionsPrice(options: seq<AddonOption>, ids: seq<string>): int
  {
    if ids == [] then 0
    else OptionsPrice(options, ids[..|ids| - 1]) + OptionPrice(options, ids[|ids| - 1])
  }

  /** The option ids an add-on type really has. */
  function KnownIds(options: seq<AddonOption>, ids: seq<string>): (r: seq<string>)
    ensures forall i :: 0 <= i < |r| ==> FindOption(options, r[i]).Some?
  {
    if ids == [] then []
    else KnownIds(options, ids[..|ids| - 1])
         + (if FindOption(options, ids[|ids| - 1]).Some? then [ids[|ids| - 1]] else [])
  }

  /** Unknown option ids add nothing to a price. */
  lemma {:induction false} UnknownOptionsAddNothing(options: seq<AddonOption>, ids: seq<string>)
    ensures OptionsPrice(options, ids) == OptionsPrice(options, KnownIds(options, ids))
  {
    if ids != [] {
      var init, last := ids[..|ids| - 1], ids[|ids| - 1];
      UnknownOptionsAddNothing(options, init);
      if FindOption(options, last).Some? {
        var k := KnownIds(options, init) + [last];
        assert KnownIds(options, ids) == k;
        assert k[..|k| - 1] == KnownIds(options, init);
        assert OptionsPrice(options, k) == OptionsPrice(options, KnownIds(options, init)) + OptionPrice(options, last);
      } else {
        assert KnownIds(options, ids) == KnownIds(options, init) + [] == KnownIds(options, init);
        assert OptionPrice(options, last) == 0;
      }
    }
  }

  /** Prices of consecutive picks add up. */
  lemma {:induction false} OptionsPriceAppend(options: seq<AddonOption>, a: seq<string>, b: seq<string>)
    ensures OptionsPrice(options, a + b) == OptionsPrice(options, a) + OptionsPrice(options, b)
  {
    if b == [] {
      assert a + b == a;
    } else {
      assert (a + b)[..|a + b| - 1] == a + b[..|b| - 1];
      OptionsPriceAppend(options, a, b[..|b| - 1]);
    }
  }

  /** What one selection entry adds: nothing when the product has no add-on type
    * with that key. */
  function EntryPrice(types: seq<AddonType>, e: (string, Choice)): int
  {
    match FindType(types, e.0)
    case None => 0
    case Some(t) =>
      match e.1
      case Many(ids) => OptionsPrice(t.options, ids)
      case One(id) => OptionPrice(t.options, id)
  }

  function SelectionsPrice(types: seq<AddonType>, sel: Selections): int
  {
    if sel == [] then 0
    else SelectionsPrice(types, sel[..|sel| - 1]) + EntryPrice(types, sel[|sel| - 1])
  }

  /** The entries whose key names one of the product's add-on types. */
  function KnownEntries(types: seq<AddonType>, sel: Selections): (r: Selections)
    ensures forall i :: 0 <= i < |r| ==> FindType(types, r[i].0).Some?
  {
    if sel == [] then []
    else KnownEntries(types, sel[..|sel| - 1])
         + (if FindType(types, sel[|sel| - 1].0).Some? then [sel[|sel| - 1]] else [])
  }

  /** Entries under unknown add-on types add nothing to a price. */
  lemma {:induction false} UnknownTypesAddNothing(types: seq<AddonType>, sel: Selections)
    ensures SelectionsPrice(types, sel) == SelectionsPrice(types, KnownEntries(types, sel))
  {
    if sel != [] {
      var init, last := sel[..|sel| - 1], sel[|sel| - 1];
      UnknownTypesAddNothing(types, init);
      if FindType(types, last.0).Some? {
        var k := KnownEntries(types, init) + [last];
        assert KnownEntries(types, sel) == k;
        assert k[..|k| - 1] == KnownEntries(types, init);
        assert SelectionsPrice(types, k) == SelectionsPrice(types, KnownEntries(types, init)) + EntryPrice(types, last);
      } else {
        assert KnownEntries(types, sel) == KnownEntries(types, init) + [] == KnownEntries(types, init);
        assert EntryPrice(types, last) == 0;
      }
    }
  }

  /** The unit price of a product with a selection: the base price plus what
    * every entry adds, when the product has an `addons` list and the selection
    * is not empty. */
  function UnitPrice(product: Product, sel: Selections): int
  {
    if product.addons.Some? && sel != [] then product.price + SelectionsPrice(product.addons.value, sel)
    else product.price
  }

  /** Without a selection, or with one that names only unknown add-on types,
    * the unit price is the base price. */
  lemma UnitPriceWithoutKnownEntries(product: Product, sel: Selections)
    requires product.addons.None? || KnownEntries(product.addons.value, sel) == []
    ensures UnitPrice(product, sel) == product.price
  {
    if product.addons.Some? {
      UnknownTypesAddNothing(product.addons.value, sel);
    }
  }

  /** The loop that adds up the options picked under one add-on type. */
  method SumOptionPrices(options: seq<AddonOption>, ids: seq<string>) returns (sum: int)
    ensures sum == OptionsPrice(options, ids)
  {
    sum := 0;
    var i := 0;
    while i < |ids|
      invariant 0 <= i <= |ids|
      invariant sum == OptionsPrice(options, ids[..i])
    {
      var option := FindOption(options, ids[i]);
      if option.Some? && option.value.additionalPrice != 0 {
        sum := sum + option.value.additionalPrice;
      }
      assert ids[..i + 1][..i] == ids[..i];
      i := i + 1;
    }
    assert ids[..i] == ids;
  }

  /** `calculateUnitPriceWithAddons(product, selectedAddons)` */
  method CalculateUnitPriceWithAddons(product: Product, sel: Selections) returns (price: int)
    ensures price == UnitPrice(product, sel)
  {
    price := product.price;
    if product.addons.Some? && |sel| > 0 {
      var types := product.addons.value;
      var k := 0;
      while k < |sel|
        invariant 0 <= k <= |sel|
        invariant price == product.price + SelectionsPrice(types, sel[..k])
      {
        var addonType := FindType(types, sel[k].0);
        if addonType.Some? {
          match sel[k].1 {
            case Many(ids) =>
              var extra := SumOptionPrices(addonType.value.options, ids);
              price := price + extra;
            case One(id) =>
              var option := FindOption(addonType.value.options, id);
              if option.Some? && option.value.additionalPrice != 0 {
                price := price + option.value.additionalPrice;
              }
          }
        }
        assert sel[..k + 1][..k] == sel[..k];
        k := k + 1;
      }
      assert sel[..k] == sel;
    }
  }

  // ---------------------------------------------------------------- the item list

  predicate UniqueIds(items: seq<CartItem>)
  {
    forall i, j :: 0 <= i < j < |items| ==> items[i].id != items[j].id
  }

  predicate HasItem(items: seq<CartItem>, id: string)
  {
    exists i :: 0 <= i < |items| && items[i].id == id
  }

  /** `items.find(item => item.id === id)`: the first line with that id. */
  function FindItem(items: seq<CartItem>, id: string): (r: Option<CartItem>)
    ensures r.None? <==> !HasItem(items, id)
    ensures r.Some? ==> r.value in items && r.value.id == id
    ensures r.Some? ==> exists i :: 0 <= i < |items| && items[i] == r.value
                                    && forall j :: 0 <= j < i ==> items[j].id != id
  {
    if items == [] then None
    else if items[0].id == id then Some(items[0])
    else
      var r := FindItem(items[1..], id);
      assert HasItem(items, id) ==> items[0].id == id || HasItem(items[1..], id) by {
        if HasItem(items, id) && items[0].id != id {
          var i :| 0 <= i < |items| && items[i].id == id;
          assert items[1..][i - 1].id == id;
        }
      }
      assert HasItem(items[1..], id) ==> HasItem(items, id) by {
        if HasItem(items[1..], id) {
          var i :| 0 <= i < |items[1..]| && items[1..][i].id == id;
          assert items[i + 1].id == id;
        }
      }
      if r.Some? then
        var i :| 0 <= i < |items[1..]| && items[1..][i] == r.value
                 && forall j :: 0 <= j < i ==> items[1..][j].id != id;
        assert items[i + 1] == r.value && forall j :: 0 <= j < i + 1 ==> items[j].id != id;
        r
      else r
  }

  /** The list after `addToCart(product, quantity, selection)`. */
  function AddedToCart(items: seq<CartItem>, product: Product, quantity: int, sel: Selections): seq<CartItem>
  {
    var unitPrice := UnitPrice(product, sel);
    var id := GenerateCartItemId(product.id, sel);
    if HasItem(items, id) then
      seq(|items|, i requires 0 <= i < |items| =>
        if items[i].id == id
        then items[i].(quantity := items[i].quantity + quantity, totalPrice := (items[i].quantity + quantity) * unitPrice)
        else items[i])
    else
      items + [CartItem(id, product.id, product.name, quantity, unitPrice, quantity * unitPrice,
                        product.imageUrl, sel)]
  }

  /** `items.filter(item => item.id !== id)` */
  function WithoutItem(items: seq<CartItem>, id: string): (r: seq<CartItem>)
    ensures forall i :: 0 <= i < |r| ==> r[i].id != id
    ensures forall x :: x in r <==> x in items && x.id != id
    ensures |r| <= |items|
  {
    if items == [] then []
    else if items[0].id == id then WithoutItem(items[1..], id)
    else [items[0]] + WithoutItem(items[1..], id)
  }

  /** `items.filter(item => item.quantity > 0)` */
  function PositiveOnly(items: seq<CartItem>): (r: seq<CartItem>)
    ensures forall i :: 0 <= i < |r| ==> r[i].quantity > 0
    ensures forall x :: x in r <==> x in items && x.quantity > 0
    ensures |r| <= |items|
  {
    if items == [] then []
    else if items[0].quantity > 0 then [items[0]] + PositiveOnly(items[1..])
    else PositiveOnly(items[1..])
  }

  /** The list after `updateQuantity(id, newQuantity)`. */
  function WithQuantity(items: seq<CartItem>, id: string, newQuantity: int): seq<CartItem>
  {
    PositiveOnly(Repriced(items, id, newQuantity))
  }

  // ---------------------------------------------------------------- totals

  function Subtotal(items: seq<CartItem>): int
  {
    if items == [] then 0 else Subtotal(items[..|items| - 1]) + items[|items| - 1].totalPrice
  }

  /** `totalItems`: the number of lines, not of pieces. */
  function TotalItems(items: seq<CartItem>): (n: nat)
    ensures n == 0 <==> items == []
  {
    |items|
  }

  function TotalQuantity(items: seq<CartItem>): int
  {
    if items == [] then 0 else TotalQuantity(items[..|items| - 1]) + items[|items| - 1].quantity
  }

  function DeliveryFee(items: seq<CartItem>): (fee: int)
    ensures fee == (if items == [] then 0 else DeliveryFeeCents)
  {
    if |items| > 0 then DeliveryFeeCents else 0
  }

  /** `subtotal * TAX_RATE`, kept exact. */
  function Tax(items: seq<CartItem>): real
  {
    Subtotal(items) as real * TaxRate
  }

  function Total(items: seq<CartItem>): real
  {
    Subtotal(items) as real + Tax(items) + DeliveryFee(items) as real
  }

  // ---------------------------------------------------------------- properties

  /** Adding a product whose line is already in the cart keeps the length, adds
    * the quantity to that line and reprices it; every other line is unchanged.
    * Otherwise one new line is appended. Ids stay unique. */
  lemma AddToCartShape(items: seq<CartItem>, product: Product, quantity: int, sel: Selections)
    requires UniqueIds(items)
    ensures var r := AddedToCart(items, product, quantity, sel);
      var id := GenerateCartItemId(product.id, sel);
      var unitPrice := UnitPrice(product, sel);
      UniqueIds(r)
      && (HasItem(items, id) ==>
            |r| == |items|
            && forall i :: 0 <= i < |items| ==>
                 if items[i].id == id
                 then r[i].quantity == items[i].quantity + quantity
                      && r[i].totalPrice == r[i].quantity * unitPrice
                      && r[i].unitPrice == items[i].unitPrice && r[i].id == id
                 else r[i] == items[i])
      && (!HasItem(items, id) ==>
            r[..|items|] == items && |r| == |items| + 1
            && r[|items|].id == id && r[|items|].quantity == quantity
            && r[|items|].totalPrice == quantity * unitPrice)
  {
    var r := AddedToCart(items, product, quantity, sel);
    if !HasItem(items, GenerateCartItemId(product.id, sel)) {
      assert r[..|items|] == items;
    }
  }

  lemma {:induction false} TotalQuantityPointUpdate(a: seq<CartItem>, b: seq<CartItem>, k: int)
    requires |a| == |b| && 0 <= k < |a|
    requires forall i :: 0 <= i < |a| && i != k ==> a[i].quantity == b[i].quantity
    ensures TotalQuantity(b) == TotalQuantity(a) - a[k].quantity + b[k].quantity
  {
    var n := |a|;
    if k == n - 1 {
      TotalQuantityEqual(a[..n - 1], b[..n - 1]);
    } else {
      TotalQuantityPointUpdate(a[..n - 1], b[..n - 1], k);
    }
  }

  lemma {:induction false} TotalQuantityEqual(a: seq<CartItem>, b: seq<CartItem>)
    requires |a| == |b|
    requires forall i :: 0 <= i < |a| ==> a[i].quantity == b[i].quantity
    ensures TotalQuantity(a) == TotalQuantity(b)
  {
    if a != [] {
      TotalQuantityEqual(a[..|a| - 1], b[..|b| - 1]);
    }
  }

  /** Whether it merges or appends, adding `quantity` units raises the cart's
    * total quantity by exactly `quantity`. */
  lemma AddToCartTotalQuantity(items: seq<CartItem>, product: Product, quantity: int, sel: Selections)
    requires UniqueIds(items)
    ensures TotalQuantity(AddedToCart(items, product, quantity, sel)) == TotalQuantity(items) + quantity
  {
    var r := AddedToCart(items, product, quantity, sel);
    var id := GenerateCartItemId(product.id, sel);
    AddToCartShape(items, product, quantity, sel);
    if HasItem(items, id) {
      var k :| 0 <= k < |items| && items[k].id == id;
      TotalQuantityPointUpdate(items, r, k);
    } else {
      assert r[..|r| - 1] == items;
    }
  }

  /** After `updateQuantity` no line has a quantity of zero or less. A positive
    * quantity keeps every target line, with that quantity and repriced; a
    * non-positive one removes them. Other positive lines stay, and nothing
    * but the old lines and the repriced target lines appears. */
  lemma UpdateQuantityShape(items: seq<CartItem>, id: string, newQuantity: int)
    ensures var r := WithQuantity(items, id, newQuantity);
      (forall i :: 0 <= i < |r| ==> r[i].quantity > 0)
      && (forall i :: 0 <= i < |r| && r[i].id == id ==>
            r[i].quantity == newQuantity && r[i].totalPrice == newQuantity * r[i].unitPrice)
      && (newQuantity <= 0 ==> !HasItem(r, id))
      && (newQuantity > 0 ==> forall i :: 0 <= i < |items| && items[i].id == id ==>
            items[i].(quantity := newQuantity, totalPrice := newQuantity * items[i].unitPrice) in r)
      && (forall x :: x in items && x.id != id && x.quantity > 0 ==> x in r)
      && (forall x :: x in r ==> (x in items && x.id != id) || x.id == id)
  {
    var m := Repriced(items, id, newQuantity);
    var r := WithQuantity(items, id, newQuantity);
    forall i | 0 <= i < |r| && r[i].id == id
      ensures r[i].quantity == newQuantity && r[i].totalPrice == newQuantity * r[i].unitPrice
    {
      assert r[i] in m;
    }
    if newQuantity > 0 {
      forall i | 0 <= i < |items| && items[i].id == id
        ensures items[i].(quantity := newQuantity, totalPrice := newQuantity * items[i].unitPrice) in r
      {
        assert m[i] in m;
      }
    }
    forall x | x in items && x.id != id && x.quantity > 0 ensures x in r {
      var j :| 0 <= j < |items| && items[j] == x;
      assert m[j] == x;
    }
    forall x | x in r ensures (x in items && x.id != id) || x.id == id {
      var j :| 0 <= j < |m| && m[j] == x;
    }
  }

  /** When every line has a positive quantity, a positive update keeps every
    * line in its place and only reprices the target lines. */
  lemma UpdateQuantityInPlace(items: seq<CartItem>, id: string, newQuantity: int)
    requires forall i :: 0 <= i < |items| ==> items[i].quantity > 0
    requires newQuantity > 0
    ensures var r := WithQuantity(items, id, newQuantity);
      |r| == |items|
      && forall i :: 0 <= i < |items| ==>
           r[i] == if items[i].id == id
                   then items[i].(quantity := newQuantity, totalPrice := newQuantity * items[i].unitPrice)
                   else items[i]
  {
    PositiveOnlyKeepsPositive(Repriced(items, id, newQuantity));
  }

  /** The mapped list inside `updateQuantity`, before the filter. */
  function Repriced(items: seq<CartItem>, id: string, newQuantity: int): (m: seq<CartItem>)
    ensures |m| == |items|
    ensures forall i :: 0 <= i < |items| ==> m[i].id == items[i].id
  {
    seq(|items|, i requires 0 <= i < |items| =>
      if items[i].id == id
      then items[i].(quantity := newQuantity, totalPrice := newQuantity * items[i].unitPrice)
      else items[i])
  }

  /** The filter keeps a list whose lines are all positive as it is. */
  lemma {:induction false} PositiveOnlyKeepsPositive(items: seq<CartItem>)
    requires forall i :: 0 <= i < |items| ==> items[i].quantity > 0
    ensures PositiveOnly(items) == items
  {
    if items != [] {
      PositiveOnlyKeepsPositive(items[1..]);
      assert [items[0]] + items[1..] == items;
    }
  }

  /** `removeFromCart`'s filter keeps the order of the rest: filtering a
    * concatenation is concatenating the filtered parts. */
  lemma {:induction false} WithoutItemAppend(a: seq<CartItem>, b: seq<CartItem>, id: string)
    ensures WithoutItem(a + b, id) == WithoutItem(a, id) + WithoutItem(b, id)
  {
    if a == [] {
      assert a + b == b;
    } else {
      assert (a + b)[1..] == a[1..] + b;
      WithoutItemAppend(a[1..], b, id);
    }
  }

  lemma WithoutItemSplit(items: seq<CartItem>, id: string)
    ensures forall k :: 0 <= k <= |items| ==>
      WithoutItem(items, id) == WithoutItem(items[..k], id) + WithoutItem(items[k..], id)
  {
    forall k | 0 <= k <= |items|
      ensures WithoutItem(items, id) == WithoutItem(items[..k], id) + WithoutItem(items[k..], id)
    {
      var front, back := items[..k], items[k..];
      assert front + back == items;
      WithoutItemAppend(front, back, id);
    }
  }

  /** Removing a line keeps ids unique. */
  lemma {:induction false} WithoutItemKeepsUnique(items: seq<CartItem>, id: string)
    requires UniqueIds(items)
    ensures UniqueIds(WithoutItem(items, id))
  {
    if items != [] {
      WithoutItemKeepsUnique(items[1..], id);
      if items[0].id != id {
        var rest := WithoutItem(items[1..], id);
        forall j | 0 <= j < |rest| ensures rest[j].id != items[0].id {
          assert rest[j] in items[1..];
        }
      }
    }
  }

  /** Dropping the non-positive lines keeps ids unique. */
  lemma {:induction false} PositiveOnlyKeepsUnique(items: seq<CartItem>)
    requires UniqueIds(items)
    ensures UniqueIds(PositiveOnly(items))
  {
    if items != [] {
      PositiveOnlyKeepsUnique(items[1..]);
      if items[0].quantity > 0 {
        var rest := PositiveOnly(items[1..]);
        forall j | 0 <= j < |rest| ensures rest[j].id != items[0].id {
          assert rest[j] in items[1..];
        }
      }
    }
  }

  /** `updateQuantity` keeps ids unique, so the add lemmas apply after it. */
  lemma WithQuantityKeepsUnique(items: seq<CartItem>, id: string, newQuantity: int)
    requires UniqueIds(items)
    ensures UniqueIds(WithQuantity(items, id, newQuantity))
  {
    PositiveOnlyKeepsUnique(Repriced(items, id, newQuantity));
  }

  /** `totalItems` counts lines: adding raises it by one exactly when a new line
    * is appended, and removing a present id drops it by one when ids are unique. */
  lemma TotalItemsChanges(items: seq<CartItem>, product: Product, quantity: int, sel: Selections, id: string)
    requires UniqueIds(items)
    ensures TotalItems(AddedToCart(items, product, quantity, sel))
            == TotalItems(items) + (if HasItem(items, GenerateCartItemId(product.id, sel)) then 0 else 1)
    ensures HasItem(items, id) ==> TotalItems(WithoutItem(items, id)) == TotalItems(items) - 1
  {
    AddToCartShape(items, product, quantity, sel);
    if HasItem(items, id) {
      RemoveOneOfUnique(items, id);
    }
  }

  /** `removeFromCart` removes exactly the lines with that id. */
  lemma RemoveShape(items: seq<CartItem>, id: string)
    ensures !HasItem(WithoutItem(items, id), id)
    ensures forall x :: x in items && x.id != id ==> x in WithoutItem(items, id)
    ensures UniqueIds(items) && HasItem(items, id) ==> |WithoutItem(items, id)| == |items| - 1
  {
    if UniqueIds(items) && HasItem(items, id) {
      RemoveOneOfUnique(items, id);
    }
  }

  lemma {:induction false} RemoveOneOfUnique(items: seq<CartItem>, id: string)
    requires UniqueIds(items) && HasItem(items, id)
    ensures |WithoutItem(items, id)| == |items| - 1
  {
    if items[0].id == id {
      NoneToRemove(items[1..], id);
    } else {
      var i :| 0 <= i < |items| && items[i].id == id;
      assert items[1..][i - 1].id == id;
      RemoveOneOfUnique(items[1..], id);
    }
  }

  lemma {:induction false} NoneToRemove(items: seq<CartItem>, id: string)
    requires forall i :: 0 <= i < |items| ==> items[i].id != id
    ensures WithoutItem(items, id) == items
  {
    if items != [] {
      NoneToRemove(items[1..], id);
    }
  }

  /** The total is the subtotal with 7% added, plus $5.00 for a non-empty cart. */
  lemma TotalBreakdown(items: seq<CartItem>)
    ensures Total(items) == Subtotal(items) as real * 1.07 + (if items == [] then 0.0 else 500.0)
  {
  }

  // ---------------------------------------------------------------- the provider

  /** The cart provider's `items` state. */
  class CartStore {
    var items: seq<CartItem>

    /** The provider starts from the list saved in local storage, or `[]`. */
    constructor(saved: seq<CartItem>)
      ensures items == saved
    {
      items := saved;
    }

    method AddToCart(product: Product, quantity: int, sel: Selections)
      modifies this
      ensures items == AddedToCart(old(items), product, quantity, sel)
    {
      var unitPrice := CalculateUnitPriceWithAddons(product, sel);
      var id := GenerateCartItemId(product.id, sel);
      var existing := FindItem(items, id);
      if existing.Some? {
        var current := items;
        items := seq(|current|, i requires 0 <= i < |current| =>
          if current[i].id == id
          then current[i].(quantity := current[i].quantity + quantity, totalPrice := (current[i].quantity + quantity) * unitPrice)
          else current[i]);
      } else {
        items := items + [CartItem(id, product.id, product.name, quantity, unitPrice, quantity * unitPrice,
                                   product.imageUrl, sel)];
      }
    }

    /** The remaining lines keep their order: however the old list is cut in
      * two, the new one is what remains of the front followed by what remains
      * of the back. */
    method RemoveFromCart(id: string)
      modifies this
      ensures items == WithoutItem(old(items), id)
      ensures forall k :: 0 <= k <= |old(items)| ==>
        items == WithoutItem(old(items)[..k], id) + WithoutItem(old(items)[k..], id)
    {
      WithoutItemSplit(items, id);
      items := WithoutItem(items, id);
    }

    method UpdateQuantity(id: string, newQuantity: int)
      modifies this
      ensures items == WithQuantity(old(items), id, newQuantity)
    {
      items := WithQuantity(items, id, newQuantity);
    }

    method ClearCart()
      modifies this
      ensures items == []
    {
      items := [];
    }

    /** The first line with that id, or none. */
    function GetItemById(id: string): (r: Option<CartItem>)
      reads this
      ensures r.Some? ==> r.value in items && r.value.id == id
      ensures r.Some? ==> exists i :: 0 <= i < |items| && items[i] == r.value
                                      && forall j :: 0 <= j < i ==> items[j].id != id
      ensures r.None? ==> !HasItem(items, id)
    {
      FindItem(items, id)
    }
  }
}
