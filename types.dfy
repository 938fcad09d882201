/** The application's shared records (src/types/index.ts): Telegram users, products
  * and their add-ons, add-on selections, cart items and orders. Money is counted in
  * integer cents; amounts derived from the 7% tax are exact `real`s. */
module Types {
  import opened Common
  import KeySort

  datatype TelegramUser = TelegramUser(
    id: int,
    firstName: string,
    lastName: Option<string>,
    username: Option<string>,
    languageCode: Option<string>,
    photoUrl: Option<string>)

  datatype AddonOption = AddonOption(id: string, name: string, additionalPrice: int, isDefault: bool)

  datatype AddonType = AddonType(
    id: string,
    name: string,
    description: Option<string>,
    isRequired: bool,
    multipleSelection: bool,
    options: seq<AddonOption>)

  datatype Product = Product(
    id: string,
    productId: Option<string>,
    name: string,
    price: int,
    category: string,
    imageUrl: Option<string>,
    description: Option<string>,
    isAvailable: bool,
    addons: Option<seq<AddonType>>)

  datatype Category = Category(
    id: string,
    name: string,
    description: Option<string>,
    imageUrl: Option<string>,
    sortOrder: Option<int>,
    isActive: Option<bool>)

  /** `products.find(p => p.id === id)`: the first product with that id. */
  function FindProduct(products: seq<Product>, id: string): (r: Option<Product>)
    ensures r.None? <==> forall i :: 0 <= i < |products| ==> products[i].id != id
    ensures r.Some? ==> r.value in products && r.value.id == id
    ensures r.Some? ==> exists i :: 0 <= i < |products| && products[i] == r.value
                                    && forall j :: 0 <= j < i ==> products[j].id != id
  {
    if products == [] then None
    else if products[0].id == id then Some(products[0])
    else
      var r := FindProduct(products[1..], id);
      if r.Some? then
        var i :| 0 <= i < |products[1..]| && products[1..][i] == r.value
                 && forall j :: 0 <= j < i ==> products[1..][j].id != id;
        assert products[i + 1] == r.value && forall j :: 0 <= j < i + 1 ==> products[j].id != id;
        r
      else r
  }

  // ---------------------------------------------------------------- add-on selections

  /** One value of a selection object: an option id, or a list of option ids. */
  datatype Choice = One(id: string) | Many(ids: seq<string>)

  /** A `Record<string, string | string[]>` as the list of its entries in key
    * insertion order (the order `for … in` and `Object.entries` visit keys
    * that are not integer-like). */
  type Selections = seq<(string, Choice)>

  /** An object never holds a key twice. */
  predicate WellFormed(s: Selections)
  {
    KeySort.DistinctKeys(s)
  }

  /** `s[key]`, `undefined` being `None`. */
  function Lookup(s: Selections, key: string): (r: Option<Choice>)
    ensures r.None? <==> forall i :: 0 <= i < |s| ==> s[i].0 != key
    ensures r.Some? ==> (key, r.value) in s
  {
    if s == [] then None
    else if s[0].0 == key then Some(s[0].1)
    else Lookup(s[1..], key)
  }

  /** `s[key] = v`: an existing key keeps its position, a new key goes last. */
  function Put(s: Selections, key: string, v: Choice): (r: Selections)
    ensures Lookup(r, key) == Some(v)
    ensures forall k :: k != key ==> Lookup(r, k) == Lookup(s, k)
    ensures Lookup(s, key).Some? ==> |r| == |s|
    ensures Lookup(s, key).None? ==> r == s + [(key, v)]
  {
    if s == [] then [(key, v)]
    else if s[0].0 == key then [(key, v)] + s[1..]
    else
      var rest := Put(s[1..], key, v);
      var r := [s[0]] + rest;
      assert r[0] == s[0] && r[1..] == rest;
      assert Lookup(s, key) == Lookup(s[1..], key);
      assert Lookup(s[1..], key).None? ==> s == [s[0]] + s[1..];
      r
  }

  /** `delete s[key]` */
  function Remove(s: Selections, key: string): (r: Selections)
    ensures Lookup(r, key).None?
    ensures forall k :: k != key ==> Lookup(r, k) == Lookup(s, k)
    ensures |r| <= |s|
  {
    if s == [] then []
    else if s[0].0 == key then Remove(s[1..], key)
    else [s[0]] + Remove(s[1..], key)
  }

  /** Looking up a key in an object with one more entry at the end. */
  lemma {:induction false} LookupSnoc(s: Selections, e: (string, Choice), key: string)
    ensures Lookup(s + [e], key) ==
      if Lookup(s, key).Some? then Lookup(s, key) else if e.0 == key then Some(e.1) else None
  {
    if s != [] {
      assert (s + [e])[1..] == s[1..] + [e];
      LookupSnoc(s[1..], e, key);
    }
  }

  lemma {:induction false} PutKeepsWellFormed(s: Selections, key: string, v: Choice)
    requires WellFormed(s)
    ensures WellFormed(Put(s, key, v))
  {
    if s != [] && s[0].0 != key {
      PutKeepsWellFormed(s[1..], key, v);
      var rest := Put(s[1..], key, v);
      var r := Put(s, key, v);
      assert r == [s[0]] + rest;
      forall i, j | 0 <= i < j < |r| ensures r[i].0 != r[j].0 {
        assert r[j] == rest[j - 1];
        if i == 0 {
          var k := rest[j - 1].0;
          assert Lookup(rest, k).Some?;
          if k != key {
            assert Lookup(s[1..], k).Some?;
            var m :| 0 <= m < |s[1..]| && s[1..][m].0 == k;
            assert s[m + 1].0 == k;
          }
        } else {
          assert r[i] == rest[i - 1];
        }
      }
    }
  }

  lemma {:induction false} RemoveKeepsWellFormed(s: Selections, key: string)
    requires WellFormed(s)
    ensures WellFormed(Remove(s, key))
  {
    if s != [] {
      RemoveKeepsWellFormed(s[1..], key);
      var r := Remove(s, key);
      if s[0].0 != key {
        forall i, j | 0 <= i < j < |r| ensures r[i].0 != r[j].0 {
          if i == 0 {
            var k := r[j].0;
            assert (k, r[j].1) in Remove(s[1..], key);
            assert Lookup(Remove(s[1..], key), k).Some?;
            assert Lookup(s[1..], k).Some?;
            var m :| 0 <= m < |s[1..]| && s[1..][m].0 == k;
            assert s[m + 1].0 == k;
          }
        }
      }
    }
  }

  /** Deleting a key that was just added restores the object. */
  lemma {:induction false} RemoveAfterAdd(s: Selections, key: string, v: Choice)
    requires Lookup(s, key).None?
    ensures Remove(Put(s, key, v), key) == s
  {
    if s != [] {
      RemoveAfterAdd(s[1..], key, v);
    }
  }

  /** Writing a key twice leaves only the second write. */
  lemma {:induction false} PutPut(s: Selections, key: string, a: Choice, b: Choice)
    ensures Put(Put(s, key, a), key, b) == Put(s, key, b)
  {
    if s != [] && s[0].0 != key {
      PutPut(s[1..], key, a, b);
    }
  }

  /** Writing back the value a key already holds changes nothing. */
  lemma {:induction false} PutUnchanged(s: Selections, key: string)
    requires Lookup(s, key).Some?
    ensures Put(s, key, Lookup(s, key).value) == s
  {
    if s[0].0 != key {
      PutUnchanged(s[1..], key);
    }
  }

  // ---------------------------------------------------------------- finding add-ons

  /** `types.find(t => t.id === id)` */
  function FindType(types: seq<AddonType>, id: string): (r: Option<AddonType>)
    ensures r.None? <==> forall i :: 0 <= i < |types| ==> types[i].id != id
    ensures r.Some? ==> r.value in types && r.value.id == id
  {
    if types == [] then None
    else if types[0].id == id then Some(types[0])
    else FindType(types[1..], id)
  }

  /** `options.find(o => o.id === id)`: the first option with that id. */
  function FindOption(options: seq<AddonOption>, id: string): (r: Option<AddonOption>)
    ensures r.None? <==> forall i :: 0 <= i < |options| ==> options[i].id != id
    ensures r.Some? ==> r.value in options && r.value.id == id
    ensures r.Some? ==> exists i :: 0 <= i < |options| && options[i] == r.value
                                    && forall j :: 0 <= j < i ==> options[j].id != id
  {
    if options == [] then None
    else if options[0].id == id then Some(options[0])
    else
      var r := FindOption(options[1..], id);
      if r.Some? then
        var i :| 0 <= i < |options[1..]| && options[1..][i] == r.value
                 && forall j :: 0 <= j < i ==> options[1..][j].id != id;
        assert options[i + 1] == r.value && forall j :: 0 <= j < i + 1 ==> options[j].id != id;
        r
      else r
  }

  /** Finding an add-on type in a list with one more type at the end. */
  lemma {:induction false} FindTypeSnoc(types: seq<AddonType>, t: AddonType, id: string)
    ensures FindType(types + [t], id) ==
      if FindType(types, id).Some? then FindType(types, id) else if t.id == id then Some(t) else None
  {
    if types != [] {
      assert (types + [t])[1..] == types[1..] + [t];
      FindTypeSnoc(types[1..], t, id);
    }
  }

  predicate DistinctTypeIds(types: seq<AddonType>)
  {
    forall i, j :: 0 <= i < j < |types| ==> types[i].id != types[j].id
  }

  /** The selection object built by visiting the add-on types in order and
    * writing `f(t)` under `t.id` whenever it is defined. */
  function PutEach(types: seq<AddonType>, f: AddonType -> Option<Choice>): Selections
  {
    if types == [] then []
    else
      var d := PutEach(types[..|types| - 1], f);
      var t := types[|types| - 1];
      match f(t)
      case Some(v) => Put(d, t.id, v)
      case None => d
  }

  /** Every key written is the id of a type for which `f` is defined. */
  lemma {:induction false} PutEachKeys(types: seq<AddonType>, f: AddonType -> Option<Choice>, key: string)
    requires Lookup(PutEach(types, f), key).Some?
    ensures exists i :: 0 <= i < |types| && types[i].id == key && f(types[i]).Some?
  {
    var init, t := types[..|types| - 1], types[|types| - 1];
    if f(t).Some? && t.id == key {
    } else {
      PutEachKeys(init, f, key);
      var i :| 0 <= i < |init| && init[i].id == key && f(init[i]).Some?;
      assert types[i] == init[i];
    }
  }

  /** With distinct type ids, each key holds exactly `f` of the type of that id. */
  lemma {:induction false} PutEachLookup(types: seq<AddonType>, f: AddonType -> Option<Choice>, key: string)
    requires DistinctTypeIds(types)
    ensures Lookup(PutEach(types, f), key) ==
      match FindType(types, key) { case Some(t) => f(t) case None => None }
  {
    if types != [] {
      var init, t := types[..|types| - 1], types[|types| - 1];
      assert types == init + [t];
      FindTypeSnoc(init, t, key);
      PutEachLookup(init, f, key);
      if t.id == key {
        assert FindType(init, key).None? by {
          forall i | 0 <= i < |init| ensures init[i].id != key {
            assert types[i].id != types[|types| - 1].id;
          }
        }
      }
    }
  }

  lemma {:induction false} PutEachWellFormed(types: seq<AddonType>, f: AddonType -> Option<Choice>)
    ensures WellFormed(PutEach(types, f))
  {
    if types != [] {
      var init, t := types[..|types| - 1], types[|types| - 1];
      PutEachWellFormed(init, f);
      if f(t).Some? {
        PutKeepsWellFormed(PutEach(init, f), t.id, f(t).value);
      }
    }
  }

  /** `options.find(opt => opt.isDefault)`: the first default option. */
  function FindDefault(options: seq<AddonOption>): (r: Option<AddonOption>)
    ensures r.None? <==> forall i :: 0 <= i < |options| ==> !options[i].isDefault
    ensures r.Some? ==> r.value in options && r.value.isDefault
    ensures r.Some? ==> exists i :: 0 <= i < |options| && options[i] == r.value
                                    && forall j :: 0 <= j < i ==> !options[j].isDefault
  {
    if options == [] then None
    else if options[0].isDefault then Some(options[0])
    else
      var r := FindDefault(options[1..]);
      if r.Some? then
        var i :| 0 <= i < |options[1..]| && options[1..][i] == r.value
                 && forall j :: 0 <= j < i ==> !options[1..][j].isDefault;
        assert options[i + 1] == r.value && forall j :: 0 <= j < i + 1 ==> !options[j].isDefault;
        r
      else r
  }

  /** `ids.filter(id => id !== x)` */
  function WithoutId(ids: seq<string>, x: string): (r: seq<string>)
    ensures x !in r
    ensures forall y :: y != x ==> (y in r <==> y in ids)
    ensures |r| <= |ids|
  {
    if ids == [] then []
    else if ids[0] == x then WithoutId(ids[1..], x)
    else [ids[0]] + WithoutId(ids[1..], x)
  }

  /** The filter keeps the order of the other ids: filtering a concatenation
    * is concatenating the filtered parts. */
  lemma {:induction false} WithoutIdAppend(a: seq<string>, b: seq<string>, x: string)
    ensures WithoutId(a + b, x) == WithoutId(a, x) + WithoutId(b, x)
  {
    if a == [] {
      assert a + b == b;
    } else {
      assert (a + b)[1..] == a[1..] + b;
      WithoutIdAppend(a[1..], b, x);
    }
  }

  /** Filtering out an id that was just appended, and occurs nowhere else,
    * gives back the list it was appended to. */
  lemma {:induction false} WithoutAppended(ids: seq<string>, x: string)
    requires x !in ids
    ensures WithoutId(ids + [x], x) == ids
  {
    if ids != [] {
      assert (ids + [x])[1..] == ids[1..] + [x];
      WithoutAppended(ids[1..], x);
    }
  }

  /** `find` answers with the first add-on type of that id. */
  lemma {:induction false} FindTypeIsFirst(types: seq<AddonType>, i: int)
    requires 0 <= i < |types|
    requires forall j :: 0 <= j < i ==> types[j].id != types[i].id
    ensures FindType(types, types[i].id) == Some(types[i])
  {
    if i > 0 {
      FindTypeIsFirst(types[1..], i - 1);
    }
  }

  // ---------------------------------------------------------------- cart items and orders

  datatype CartItem = CartItem(
    id: string,
    productId: string,
    name: string,
    quantity: int,
    unitPrice: int,
    totalPrice: int,
    imageUrl: Option<string>,
    selectedAddons: Selections)

  datatype OrderStatus = Pending | Confirmed | Preparing | Ready | Delivered | Cancelled
  {
    /** The string the enum member stands for. */
    function Name(): string
    {
      match this
      case Pending => "pending"
      case Confirmed => "confirmed"
      case Preparing => "preparing"
      case Ready => "ready"
      case Delivered => "delivered"
      case Cancelled => "cancelled"
    }
  }

  /** The statuses in the order the enum declares them. */
  const AllStatuses: seq<OrderStatus> := [Pending, Confirmed, Preparing, Ready, Delivered, Cancelled]

  /** The status whose name a string is, if any. */
  function StatusNamed(name: string): (r: Option<OrderStatus>)
    ensures r.Some? ==> r.value.Name() == name
    ensures r.None? ==> forall st: OrderStatus :: st.Name() != name
  {
    if name == "pending" then Some(Pending)
    else if name == "confirmed" then Some(Confirmed)
    else if name == "preparing" then Some(Preparing)
    else if name == "ready" then Some(Ready)
    else if name == "delivered" then Some(Delivered)
    else if name == "cancelled" then Some(Cancelled)
    else None
  }

  /** An order. `status` holds the string the backend stored: the application
    * casts it to the status union without checking it. */
  datatype Order = Order(
    id: string,
    userId: Option<string>,
    items: seq<CartItem>,
    status: string,
    subtotal: real,
    tax: real,
    deliveryFee: real,
    total: real,
    deliveryAddress: Option<string>,
    deliveryInstructions: Option<string>,
    paymentIntentId: Option<string>,
    paymentStatus: Option<string>,
    customerName: Option<string>,
    customerPhone: Option<string>,
    createdAt: string,
    updatedAt: string)
}
