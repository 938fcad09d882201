/** The product catalogue provider (src/context/ProductContext.tsx): turning the
  * backend's product rows into products, the sorted list of distinct category
  * names, the two lookups, and what a failed load leaves behind. */
module ProductContext {
  import opened Common
  import opened Types
  import KeySort

  // ---------------------------------------------------------------- rows

  datatype OptionRow = OptionRow(id: string, name: string, additionalPrice: int, isDefault: bool)

  datatype AddonRow = AddonRow(
    id: string,
    name: string,
    description: Option<string>,
    isRequired: bool,
    multipleSelection: bool,
    addonOptions: Option<seq<OptionRow>>)

  /** A `products` row with its joined category name and add-ons. */
  datatype ProductRow = ProductRow(
    id: string,
    name: string,
    description: Option<string>,
    price: int,
    imageUrl: Option<string>,
    isAvailable: bool,
    categoryName: Option<string>,
    addons: Option<seq<AddonRow>>)

  function OptionOf(o: OptionRow): AddonOption
  {
    AddonOption(o.id, o.name, o.additionalPrice, o.isDefault)
  }

  function AddonOf(a: AddonRow): (t: AddonType)
    ensures t.id == a.id && t.isRequired == a.isRequired && t.multipleSelection == a.multipleSelection
    ensures |t.options| == (if a.addonOptions.Some? then |a.addonOptions.value| else 0)
  {
    var rows := if a.addonOptions.Some? then a.addonOptions.value else [];
    AddonType(a.id, a.name, a.description, a.isRequired, a.multipleSelection,
              seq(|rows|, i requires 0 <= i < |rows| => OptionOf(rows[i])))
  }

  /** One product of `transformSupabaseProducts`. */
  function ProductOf(p: ProductRow): (r: Product)
    ensures r.id == p.id && r.name == p.name && r.price == p.price && r.isAvailable == p.isAvailable
    ensures r.category == OrElse(p.categoryName, "Uncategorized")
    ensures r.productId.None? && r.addons.Some?
    ensures |r.addons.value| == (if p.addons.Some? then |p.addons.value| else 0)
  {
    var rows := if p.addons.Some? then p.addons.value else [];
    Product(p.id, None, p.name, p.price, OrElse(p.categoryName, "Uncategorized"), p.imageUrl, p.description,
            p.isAvailable, Some(seq(|rows|, i requires 0 <= i < |rows| => AddonOf(rows[i]))))
  }

  /** `transformSupabaseProducts(rows)` */
  function Transform(rows: seq<ProductRow>): (r: seq<Product>)
    ensures |r| == |rows|
    ensures forall i :: 0 <= i < |rows| ==> r[i] == ProductOf(rows[i])
  {
    seq(|rows|, i requires 0 <= i < |rows| => ProductOf(rows[i]))
  }

  /** Every product has a non-empty category: a missing or empty category
    * name becomes "Uncategorized". */
  lemma TransformedCategoriesNonEmpty(rows: seq<ProductRow>)
    ensures forall p :: p in Transform(rows) ==> p.category != ""
  {
  }

  // ---------------------------------------------------------------- categories

  /** `Array.from(new Set(names))`: first occurrences, in order. */
  function Distinct(names: seq<string>): (r: seq<string>)
    ensures forall x :: x in r <==> x in names
    ensures forall i, j :: 0 <= i < j < |r| ==> r[i] != r[j]
  {
    if names == [] then []
    else
      var init := Distinct(names[..|names| - 1]);
      var last := names[|names| - 1];
      assert forall x :: x in names <==> x in names[..|names| - 1] || x == last by {
        assert names == names[..|names| - 1] + [last];
      }
      if last in init then init else init + [last]
  }

  function AsEntries(names: seq<string>): (r: seq<KeySort.Entry<()>>)
    ensures |r| == |names|
    ensures forall i :: 0 <= i < |names| ==> r[i].0 == names[i]
  {
    seq(|names|, i requires 0 <= i < |names| => (names[i], ()))
  }

  function Keys(entries: seq<KeySort.Entry<()>>): (r: seq<string>)
    ensures |r| == |entries|
    ensures forall i :: 0 <= i < |entries| ==> r[i] == entries[i].0
  {
    seq(|entries|, i requires 0 <= i < |entries| => entries[i].0)
  }

  function CategoryNames(products: seq<Product>): (r: seq<string>)
    ensures |r| == |products|
    ensures forall i :: 0 <= i < |products| ==> r[i] == products[i].category
  {
    seq(|products|, i requires 0 <= i < |products| => products[i].category)
  }

  /** `Array.from(new Set(products.map(p => p.category))).sort()` */
  function Categories(products: seq<Product>): seq<string>
  {
    Keys(KeySort.SortByKey(AsEntries(Distinct(CategoryNames(products)))))
  }

  /** The category list names every category in use, each once, in ascending order. */
  lemma CategoriesSortedUnique(products: seq<Product>)
    ensures var cs := Categories(products);
      (forall c :: c in cs <==> exists i :: 0 <= i < |products| && products[i].category == c)
      && (forall i, j :: 0 <= i < j < |cs| ==> StrLt(cs[i], cs[j]))
  {
    var names := CategoryNames(products);
    var d := Distinct(names);
    var cs := Categories(products);
    SortedNamesStrict(d);
    forall c ensures c in cs <==> exists i :: 0 <= i < |products| && products[i].category == c {
      SortedNamesMembership(d, c);
      if c in names {
        var i :| 0 <= i < |names| && names[i] == c;
        assert products[i].category == c;
      }
      if exists i :: 0 <= i < |products| && products[i].category == c {
        var i :| 0 <= i < |products| && products[i].category == c;
        assert names[i] == c;
      }
    }
  }

  lemma SortedNamesMembership(d: seq<string>, c: string)
    ensures c in Keys(KeySort.SortByKey(AsEntries(d))) <==> c in d
  {
    var e := AsEntries(d);
    var s := KeySort.SortByKey(e);
    var cs := Keys(s);
    if c in cs {
      var k :| 0 <= k < |cs| && cs[k] == c;
      assert s[k] in multiset(e);
      var m :| 0 <= m < |e| && e[m] == s[k];
      assert d[m] == c;
    }
    if c in d {
      var m :| 0 <= m < |d| && d[m] == c;
      assert e[m] in multiset(s);
      var k :| 0 <= k < |s| && s[k] == e[m];
      assert cs[k] == c;
    }
  }

  lemma SortedNamesStrict(d: seq<string>)
    requires forall i, j :: 0 <= i < j < |d| ==> d[i] != d[j]
    ensures var cs := Keys(KeySort.SortByKey(AsEntries(d)));
      forall i, j :: 0 <= i < j < |cs| ==> StrLt(cs[i], cs[j])
  {
    var e := AsEntries(d);
    var cs := Keys(KeySort.SortByKey(e));
    assert KeySort.DistinctKeys(e);
    KeySort.SortByKeyDistinct(e);
    KeySort.SortByKeySorted(e);
    forall i, j | 0 <= i < j < |cs| ensures StrLt(cs[i], cs[j]) {
      StrLtTotal(cs[i], cs[j]);
    }
  }

  // ---------------------------------------------------------------- lookups

  /** `products.filter(product => product.category === category)` */
  function ByCategory(products: seq<Product>, category: string): (r: seq<Product>)
    ensures forall p :: p in r <==> p in products && p.category == category
    ensures |r| <= |products|
  {
    if products == [] then []
    else (if products[0].category == category then [products[0]] else []) + ByCategory(products[1..], category)
  }

  /** The filter keeps the products' order: filtering a concatenation is
    * concatenating the filtered parts. */
  lemma {:induction false} ByCategoryAppend(a: seq<Product>, b: seq<Product>, category: string)
    ensures ByCategory(a + b, category) == ByCategory(a, category) + ByCategory(b, category)
  {
    if a == [] {
      assert a + b == b;
    } else {
      assert (a + b)[1..] == a[1..] + b;
      ByCategoryAppend(a[1..], b, category);
    }
  }

  lemma ByCategorySplit(products: seq<Product>, category: string)
    ensures forall k :: 0 <= k <= |products| ==>
      ByCategory(products, category) == ByCategory(products[..k], category) + ByCategory(products[k..], category)
  {
    forall k | 0 <= k <= |products|
      ensures ByCategory(products, category) == ByCategory(products[..k], category) + ByCategory(products[k..], category)
    {
      var front, back := products[..k], products[k..];
      assert front + back == products;
      ByCategoryAppend(front, back, category);
    }
  }

  /** Every listed category has at least one product under it. */
  lemma ListedCategoryNonEmpty(products: seq<Product>, c: string)
    requires c in Categories(products)
    ensures ByCategory(products, c) != []
  {
    CategoriesSortedUnique(products);
    var i :| 0 <= i < |products| && products[i].category == c;
    assert products[i] in ByCategory(products, c);
  }

  // ---------------------------------------------------------------- the provider

  class ProductStore {
    var products: seq<Product>
    var categories: seq<string>
    var isLoading: bool
    var error: Option<string>

    constructor()
      ensures products == [] && categories == [] && isLoading && error.None?
    {
      products := [];
      categories := [];
      isLoading := true;
      error := None;
    }

    /** `fetchProductsAndCategories`, given the backend's answer; rows reported
      * as `null` count as none. */
    method Load(answer: Outcome<Option<seq<ProductRow>>>)
      modifies this
      ensures !isLoading
      ensures answer.Ok? ==>
        products == Transform(if answer.value.Some? then answer.value.value else [])
        && categories == Categories(products) && error.None?
      ensures answer.Err? ==>
        products == [] && categories == [] && error == Some("Failed to load products: " + answer.msg)
    {
      isLoading := true;
      match answer {
        case Ok(data) =>
          var rows := if data.Some? then data.value else [];
          products := Transform(rows);
          categories := Categories(products);
          error := None;
        case Err(_, msg) =>
          error := Some("Failed to load products: " + msg);
          products := [];
          categories := [];
      }
      isLoading := false;
    }

    /** The first product with that id, or none. */
    function GetProductById(id: string): (r: Option<Product>)
      reads this
      ensures r.Some? ==> exists i :: 0 <= i < |products| && products[i] == r.value && r.value.id == id
                                      && forall j :: 0 <= j < i ==> products[j].id != id
      ensures r.None? <==> forall i :: 0 <= i < |products| ==> products[i].id != id
    {
      FindProduct(products, id)
    }

    /** The products of that category, in the order of the list: however the
      * list is cut in two, the matches of the front come first. */
    function GetProductsByCategory(category: string): (r: seq<Product>)
      reads this
      ensures forall p :: p in r <==> p in products && p.category == category
      ensures |r| <= |products|
      ensures forall k :: 0 <= k <= |products| ==>
        r == ByCategory(products[..k], category) + ByCategory(products[k..], category)
    {
      ByCategorySplit(products, category);
      ByCategory(products, category)
    }
  }
}
