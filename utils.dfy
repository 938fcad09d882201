/** Small helpers (src/lib/utils.ts): joining class names, the empty-object test
  * and reading the page's query parameters into a record. */
module Utils {
  import opened Common
  import opened Types
  import FormQuery

  // ---------------------------------------------------------------- cn

  /** The arguments `filter(Boolean)` keeps: the non-empty strings, in order.
    * `None` stands for `undefined`, `null` and `false`. */
  function Kept(inputs: seq<Option<string>>): (r: seq<string>)
    ensures |r| <= |inputs|
    ensures forall i :: 0 <= i < |r| ==> r[i] != ""
  {
    if inputs == [] then []
    else if Truthy(inputs[0]) then [inputs[0].value] + Kept(inputs[1..])
    else Kept(inputs[1..])
  }

  /** `cn(...inputs)` */
  function Cn(inputs: seq<Option<string>>): string
  {
    Join(Kept(inputs), " ")
  }

  /** The kept arguments of two argument lists are kept one after the other. */
  lemma {:induction false} KeptAppend(a: seq<Option<string>>, b: seq<Option<string>>)
    ensures Kept(a + b) == Kept(a) + Kept(b)
  {
    if a == [] {
      assert a + b == b;
    } else {
      var ab := a + b;
      assert ab[0] == a[0] && ab[1..] == a[1..] + b;
      KeptAppend(a[1..], b);
      if Truthy(a[0]) {
        calc {
          Kept(ab);
          [a[0].value] + Kept(a[1..] + b);
          [a[0].value] + (Kept(a[1..]) + Kept(b));
          ([a[0].value] + Kept(a[1..])) + Kept(b);
        }
      } else {
        assert Kept(ab) == Kept(a[1..] + b);
      }
    }
  }

  /** A falsy argument anywhere leaves the class string as if it were not
    * there; with no arguments the string is empty. */
  lemma CnDropsFalsy(a: seq<Option<string>>, x: Option<string>, b: seq<Option<string>>)
    requires !Truthy(x)
    ensures Cn(a + [x] + b) == Cn(a + b)
    ensures Cn([]) == ""
  {
    KeptAppend(a + [x], b);
    KeptAppend(a, [x]);
    KeptAppend(a, b);
    assert [x][1..] == [];
    assert Kept([x]) == [];
    assert Kept(a + [x]) == Kept(a);
    assert Kept(a + [x] + b) == Kept(a + b);
  }

  /** With only non-empty string arguments, `cn` joins them all with one space. */
  lemma {:induction false} CnAllTruthy(values: seq<string>)
    requires forall i :: 0 <= i < |values| ==> values[i] != ""
    ensures Cn(seq(|values|, i requires 0 <= i < |values| => Some(values[i]))) == Join(values, " ")
  {
    var inputs := seq(|values|, i requires 0 <= i < |values| => Some(values[i]));
    if values != [] {
      var tail := seq(|values| - 1, i requires 0 <= i < |values| - 1 => Some(values[1..][i]));
      assert inputs[1..] == tail;
      CnAllTruthy(values[1..]);
    }
  }

  // ---------------------------------------------------------------- isEmpty

  /** `isEmpty(obj)`: the record has no own keys. */
  predicate IsEmpty(obj: Selections)
  {
    |obj| == 0
  }

  /** An empty record is one in which no key is found. */
  lemma IsEmptyIffNoKey(obj: Selections)
    ensures IsEmpty(obj) <==> forall key :: Lookup(obj, key).None?
  {
    if !IsEmpty(obj) {
      assert Lookup(obj, obj[0].0).Some?;
    }
  }

  // ---------------------------------------------------------------- getQueryParams

  /** The record the loop builds from a list of pairs: each pair in turn
    * assigns its value to its key. */
  function Record(pairs: FormQuery.Pairs): map<string, string>
  {
    if pairs == [] then map[]
    else Record(pairs[..|pairs| - 1])[pairs[|pairs| - 1].0 := pairs[|pairs| - 1].1]
  }

  /** `getQueryParams()` for the page's query string `search`. */
  method GetQueryParams(search: string) returns (result: map<string, string>)
    ensures result == Record(FormQuery.Parse(search))
  {
    var params := FormQuery.Parse(search);
    result := map[];
    var i := 0;
    while i < |params|
      invariant 0 <= i <= |params|
      invariant result == Record(params[..i])
    {
      assert params[..i + 1][..i] == params[..i];
      result := result[params[i].0 := params[i].1];
      i := i + 1;
    }
    assert params[..i] == params;
  }

  /** The record has a key for every parameter name and no other. */
  lemma {:induction false} RecordKeys(pairs: FormQuery.Pairs)
    ensures Record(pairs).Keys == set i | 0 <= i < |pairs| :: pairs[i].0
  {
    if pairs != [] {
      var init := pairs[..|pairs| - 1];
      RecordKeys(init);
      assert forall i :: 0 <= i < |init| ==> init[i] == pairs[i];
    }
  }

  /** A name given several times keeps the value of its last occurrence. */
  lemma {:induction false} RecordLastWins(pairs: FormQuery.Pairs, i: int)
    requires 0 <= i < |pairs|
    requires forall j :: i < j < |pairs| ==> pairs[j].0 != pairs[i].0
    ensures pairs[i].0 in Record(pairs) && Record(pairs)[pairs[i].0] == pairs[i].1
  {
    var n := |pairs|;
    if i < n - 1 {
      var init := pairs[..n - 1];
      assert forall j :: i < j < |init| ==> init[j] == pairs[j];
      RecordLastWins(init, i);
    }
  }
}
