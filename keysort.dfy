/** Sorting key/value entries by key, as `entries.sort(([a], [b]) => a.localeCompare(b))`
  * and `Object.entries(o).sort(([a], [b]) => a.localeCompare(b))` do. `Array.prototype.sort`
  * is stable, so the model is a stable insertion sort; keys are compared with `Common.StrLt`. */
module KeySort {
  import opened Common

  type Entry<V> = (string, V)

  predicate SortedByKey<V>(s: seq<Entry<V>>)
  {
    forall i, j :: 0 <= i < j < |s| ==> !StrLt(s[j].0, s[i].0)
  }

  predicate DistinctKeys<V>(s: seq<Entry<V>>)
  {
    forall i, j :: 0 <= i < j < |s| ==> s[i].0 != s[j].0
  }

  /** Places `p` before the first entry whose key is not smaller than its own,
    * so that `p` stays ahead of entries with an equal key. */
  function Insert<V>(p: Entry<V>, s: seq<Entry<V>>): (r: seq<Entry<V>>)
    ensures |r| == |s| + 1
    ensures multiset(r) == multiset(s) + multiset{p}
  {
    if s == [] || !StrLt(s[0].0, p.0) then [p] + s
    else
      assert s == [s[0]] + s[1..];
      [s[0]] + Insert(p, s[1..])
  }

  function SortByKey<V>(s: seq<Entry<V>>): (r: seq<Entry<V>>)
    ensures |r| == |s|
    ensures multiset(r) == multiset(s)
  {
    if s == [] then []
    else
      assert s == [s[0]] + s[1..];
      Insert(s[0], SortByKey(s[1..]))
  }

  lemma {:induction false} InsertSorted<V>(p: Entry<V>, s: seq<Entry<V>>)
    requires SortedByKey(s)
    ensures SortedByKey(Insert(p, s))
  {
    if s != [] && StrLt(s[0].0, p.0) {
      InsertSorted(p, s[1..]);
      var r := Insert(p, s);
      forall i, j | 0 <= i < j < |r| ensures !StrLt(r[j].0, r[i].0) {
        if i == 0 {
          assert r[j] in multiset(Insert(p, s[1..]));
          if r[j] == p {
            StrLtAsymmetric(s[0].0, p.0);
          } else {
            assert r[j] in multiset(s[1..]);
            var k :| 0 <= k < |s[1..]| && s[1..][k] == r[j];
            assert s[k + 1] == r[j];
          }
        }
      }
    } else if s != [] {
      var r := Insert(p, s);
      forall i, j | 0 <= i < j < |r| ensures !StrLt(r[j].0, r[i].0) {
        if i == 0 {
          assert r[j] == s[j - 1];
          StrLtTotal(s[0].0, p.0);
          if StrLt(s[j - 1].0, p.0) {
            if j - 1 > 0 {
              StrLtTotal(s[j - 1].0, s[0].0);
              if StrLt(s[j - 1].0, s[0].0) {
              } else if s[j - 1].0 == s[0].0 {
              } else {
                StrLtTransitive(s[0].0, s[j - 1].0, p.0);
              }
            }
          }
        }
      }
    }
  }

  /** The sort yields entries in non-decreasing key order. */
  lemma {:induction false} SortByKeySorted<V>(s: seq<Entry<V>>)
    ensures SortedByKey(SortByKey(s))
  {
    if s != [] {
      SortByKeySorted(s[1..]);
      InsertSorted(s[0], SortByKey(s[1..]));
    }
  }

  lemma {:induction false} InsertDistinct<V>(p: Entry<V>, s: seq<Entry<V>>)
    requires DistinctKeys(s)
    requires forall q :: q in s ==> q.0 != p.0
    ensures DistinctKeys(Insert(p, s))
  {
    if s != [] && StrLt(s[0].0, p.0) {
      InsertDistinct(p, s[1..]);
      var r := Insert(p, s);
      forall i, j | 0 <= i < j < |r| ensures r[i].0 != r[j].0 {
        if i == 0 {
          assert r[j] in multiset(Insert(p, s[1..]));
          if r[j] != p {
            assert r[j] in multiset(s[1..]);
            var k :| 0 <= k < |s[1..]| && s[1..][k] == r[j];
            assert s[k + 1] == r[j];
          }
        }
      }
    }
  }

  /** Sorting keeps keys distinct. */
  lemma {:induction false} SortByKeyDistinct<V>(s: seq<Entry<V>>)
    requires DistinctKeys(s)
    ensures DistinctKeys(SortByKey(s))
  {
    if s != [] {
      SortByKeyDistinct(s[1..]);
      forall q | q in SortByKey(s[1..]) ensures q.0 != s[0].0 {
        assert q in multiset(s[1..]);
        var k :| 0 <= k < |s[1..]| && s[1..][k] == q;
        assert s[k + 1] == q;
      }
      InsertDistinct(s[0], SortByKey(s[1..]));
    }
  }

  lemma MultisetTail<T>(a: seq<T>)
    requires a != []
    ensures multiset(a[1..]) == multiset(a) - multiset{a[0]}
  {
    assert a == [a[0]] + a[1..];
  }

  lemma SortedHeadsEqual<V>(a: seq<Entry<V>>, b: seq<Entry<V>>)
    requires SortedByKey(a) && SortedByKey(b)
    requires DistinctKeys(a)
    requires multiset(a) == multiset(b)
    requires a != []
    ensures b != [] && a[0] == b[0]
  {
    assert a[0] in multiset(b);
    var j :| 0 <= j < |b| && b[j] == a[0];
    assert b[0] in multiset(a);
    var i :| 0 <= i < |a| && a[i] == b[0];
    StrLtTotal(a[0].0, b[0].0);
    assert a[0].0 == b[0].0;
    assert i == 0;
  }

  /** Two key-sorted arrangements of the same entries coincide when the keys
    * are distinct: the sorted order does not depend on the order the entries came in. */
  lemma {:induction false} SortedPermutationUnique<V>(a: seq<Entry<V>>, b: seq<Entry<V>>)
    requires SortedByKey(a) && SortedByKey(b)
    requires DistinctKeys(a)
    requires multiset(a) == multiset(b)
    ensures a == b
  {
    if a == [] {
      assert |b| == |multiset(b)| == 0;
    } else {
      SortedHeadsEqual(a, b);
      MultisetTail(a);
      MultisetTail(b);
      SortedPermutationUnique(a[1..], b[1..]);
      assert a == [a[0]] + a[1..] && b == [b[0]] + b[1..];
    }
  }
}
