/** The cart page's add-on summary (src/pages/CartPage.tsx): the line of text
  * under each cart item that names its selected add-ons. */
module CartPage {
  import opened Common
  import opened Types

  /** `productHasAddons(product)`: a product with a non-empty add-on list. */
  predicate ProductHasAddons(product: Option<Product>)
  {
    product.Some? && product.value.addons.Some? && |product.value.addons.value| > 0
  }

  /** ` (+$x.xx)` for an option that costs extra, nothing otherwise. */
  function PriceSuffix(o: AddonOption): (r: string)
    ensures r != "" <==> o.additionalPrice > 0
  {
    if o.additionalPrice > 0 then " (+$" + FormatCents(o.additionalPrice) + ")" else ""
  }

  function OptionText(o: AddonOption): string
  {
    o.name + PriceSuffix(o)
  }

  /** The texts of the options a list names, unknown ids dropped, as
    * `.map(…).filter(Boolean)` leaves them (an empty text is dropped too). */
  function OptionTexts(options: seq<AddonOption>, ids: seq<string>): (r: seq<string>)
    ensures |r| <= |ids|
    ensures forall i :: 0 <= i < |r| ==> r[i] != ""
    ensures (forall i :: 0 <= i < |ids| ==> FindOption(options, ids[i]).None?) ==> r == []
  {
    if ids == [] then []
    else
      var rest := OptionTexts(options, ids[1..]);
      match FindOption(options, ids[0])
      case Some(o) => if OptionText(o) != "" then [OptionText(o)] + rest else rest
      case None => rest
  }

  /** The text of one selection entry, or `None` (`null`) when it names no
    * known add-on type or no known option. */
  function EntryDetail(types: seq<AddonType>, e: (string, Choice)): (r: Option<string>)
    ensures FindType(types, e.0).None? ==> r.None?
    ensures r.Some? ==> r.value != "" && FindType(types, e.0).Some?
    ensures r.Some? && e.1.Many? ==>
      r.value == FindType(types, e.0).value.name + ": " + Join(OptionTexts(FindType(types, e.0).value.options, e.1.ids), ", ")
  {
    match FindType(types, e.0)
    case None => None
    case Some(t) =>
      match e.1
      case Many(ids) =>
        var texts := OptionTexts(t.options, ids);
        if |texts| > 0 then Some(t.name + ": " + Join(texts, ", ")) else None
      case One(id) =>
        match FindOption(t.options, id)
        case Some(o) => Some(t.name + ": " + OptionText(o))
        case None => None
  }

  /** The entry texts that are not `null`, in entry order. */
  function EntryDetails(types: seq<AddonType>, sel: Selections): (r: seq<string>)
    ensures |r| <= |sel|
    ensures forall i :: 0 <= i < |r| ==> r[i] != ""
  {
    if sel == [] then []
    else
      var rest := EntryDetails(types, sel[1..]);
      match EntryDetail(types, sel[0])
      case Some(text) => [text] + rest
      case None => rest
  }

  /** `getAddonDetails(productId, selectedAddons)`, given `getProductById(productId)`. */
  function AddonDetails(product: Option<Product>, sel: Selections): (r: string)
    ensures product.None? ==> r == (if |sel| > 0 then "Product details unavailable" else "")
    ensures product.Some? && !ProductHasAddons(product) ==>
      r == (if |sel| > 0 then "Addon definitions missing for this product" else "")
    ensures sel == [] ==> r == ""
  {
    if product.None? then (if |sel| > 0 then "Product details unavailable" else "")
    else if !ProductHasAddons(product) then (if |sel| > 0 then "Addon definitions missing for this product" else "")
    else Join(EntryDetails(product.value.addons.value, sel), "; ")
  }

  /** Entries under unknown add-on types leave the summary unchanged: the
    * summary of a selection is that of its known entries. */
  lemma {:induction false} UnknownEntriesDropped(types: seq<AddonType>, sel: Selections)
    ensures EntryDetails(types, sel) == EntryDetails(types, KnownFront(types, sel))
  {
    if sel != [] {
      UnknownEntriesDropped(types, sel[1..]);
      var k := KnownFront(types, sel[1..]);
      if FindType(types, sel[0].0).Some? {
        assert KnownFront(types, sel) == [sel[0]] + k;
        assert ([sel[0]] + k)[1..] == k;
      } else {
        assert KnownFront(types, sel) == k;
      }
    }
  }

  /** The entries whose key names a known add-on type, in order. */
  function KnownFront(types: seq<AddonType>, sel: Selections): (r: Selections)
    ensures forall i :: 0 <= i < |r| ==> FindType(types, r[i].0).Some?
  {
    if sel == [] then []
    else (if FindType(types, sel[0].0).Some? then [sel[0]] else []) + KnownFront(types, sel[1..])
  }

  /** For a product with add-ons, the summary is empty exactly when no entry
    * names a known add-on type with at least one known option. */
  lemma {:induction false} SummaryEmptyIff(types: seq<AddonType>, sel: Selections)
    ensures EntryDetails(types, sel) == [] <==> forall i :: 0 <= i < |sel| ==> EntryDetail(types, sel[i]).None?
  {
    if sel != [] {
      SummaryEmptyIff(types, sel[1..]);
      assert forall i :: 1 <= i < |sel| ==> sel[i] == sel[1..][i - 1];
    }
  }

  /** An option text carries the price suffix exactly when the option costs
    * extra, and the suffix spells the amount to the cent. */
  lemma SuffixSpellsPrice(o: AddonOption)
    requires o.additionalPrice > 0
    ensures var s := PriceSuffix(o);
      var amount := s[4..|s| - 1];
      s[..4] == " (+$" && s[|s| - 1] == ')'
      && DigitsValue(amount[..|amount| - 3] + amount[|amount| - 2..]) == o.additionalPrice
  {
    var s := PriceSuffix(o);
    assert s[4..|s| - 1] == FormatCents(o.additionalPrice);
    FormatCentsValue(o.additionalPrice);
  }
}
