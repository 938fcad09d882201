/** The `application/x-www-form-urlencoded` parameter lists that `URLSearchParams`
  * holds: parsing a query string into an ordered list of name/value pairs, `get`
  * and `delete`. Percent-escapes are kept as they are (see README). */
module FormQuery {
  import opened Common

  type Pairs = seq<(string, string)>

  /** `s.split(c)` */
  function Split(s: string, c: char): (r: seq<string>)
    ensures |r| >= 1
    ensures forall i :: 0 <= i < |r| ==> c !in r[i]
  {
    if s == [] then [""]
    else if s[0] == c then [""] + Split(s[1..], c)
    else
      var rest := Split(s[1..], c);
      [[s[0]] + rest[0]] + rest[1..]
  }

  /** `+` stands for a space in form encoding. */
  function PlusToSpace(s: string): (r: string)
    ensures |r| == |s|
    ensures forall i :: 0 <= i < |s| ==> r[i] == (if s[i] == '+' then ' ' else s[i])
  {
    if s == [] then [] else [if s[0] == '+' then ' ' else s[0]] + PlusToSpace(s[1..])
  }

  /** `s.indexOf(c)`: the first position of `c`, or -1. */
  function IndexOf(s: string, c: char): (r: int)
    ensures -1 <= r < |s|
    ensures r >= 0 ==> s[r] == c && c !in s[..r]
    ensures r < 0 ==> c !in s
  {
    if s == [] then -1
    else if s[0] == c then 0
    else
      var r := IndexOf(s[1..], c);
      if r < 0 then -1
      else
        assert s[..r + 1] == [s[0]] + s[1..][..r];
        r + 1
  }

  /** The name is what precedes the first `=`, the value what follows it;
    * a piece without `=` is a name with an empty value. */
  function ParsePiece(piece: string): (string, string)
  {
    var i := IndexOf(piece, '=');
    if i < 0 then (PlusToSpace(piece), "")
    else (PlusToSpace(piece[..i]), PlusToSpace(piece[i + 1..]))
  }

  /** `new URLSearchParams(init)`: a leading `?` is dropped, the rest is split
    * on `&`, and empty pieces are skipped. */
  function Parse(init: string): Pairs
  {
    var body := if init != [] && init[0] == '?' then init[1..] else init;
    ParsePieces(Split(body, '&'))
  }

  function ParsePieces(pieces: seq<string>): Pairs
  {
    if pieces == [] then []
    else if pieces[0] == "" then ParsePieces(pieces[1..])
    else [ParsePiece(pieces[0])] + ParsePieces(pieces[1..])
  }

  /** `params.get(name)`: the value of the first pair with that name, `null` when there is none. */
  function Get(ps: Pairs, name: string): (r: Option<string>)
    ensures r.None? <==> forall i :: 0 <= i < |ps| ==> ps[i].0 != name
  {
    if ps == [] then None
    else if ps[0].0 == name then Some(ps[0].1)
    else Get(ps[1..], name)
  }

  /** `get` answers with the first pair of that name. */
  lemma {:induction false} GetIsFirst(ps: Pairs, name: string, i: int)
    requires 0 <= i < |ps| && ps[i].0 == name
    requires forall j :: 0 <= j < i ==> ps[j].0 != name
    ensures Get(ps, name) == Some(ps[i].1)
  {
    if i > 0 {
      GetIsFirst(ps[1..], name, i - 1);
    }
  }

  /** `params.delete(name)`: every pair with that name goes, the others keep their order. */
  function Delete(ps: Pairs, name: string): (r: Pairs)
    ensures forall i :: 0 <= i < |r| ==> r[i].0 != name
    ensures forall x :: multiset(r)[x] == if x.0 == name then 0 else multiset(ps)[x]
  {
    if ps == [] then []
    else
      assert ps == [ps[0]] + ps[1..];
      if ps[0].0 == name then Delete(ps[1..], name)
      else [ps[0]] + Delete(ps[1..], name)
  }

  /** The serialisation a client uses to build a query string from pairs. */
  function Serialize(ps: Pairs): string
  {
    if ps == [] then ""
    else if |ps| == 1 then ps[0].0 + "=" + ps[0].1
    else ps[0].0 + "=" + ps[0].1 + "&" + Serialize(ps[1..])
  }

  /** Pairs whose names and values hold no `&` or `+`, and whose names hold no `=`. */
  predicate Separable(ps: Pairs)
  {
    forall i :: 0 <= i < |ps| ==> '&' !in ps[i].0 && '&' !in ps[i].1 && '=' !in ps[i].0
                                  && '+' !in ps[i].0 && '+' !in ps[i].1
  }

  /** Pairs that survive `Serialize` unchanged: separable, and no leading `?`. */
  predicate Plain(ps: Pairs)
  {
    Separable(ps) && (ps != [] && ps[0].0 != [] ==> ps[0].0[0] != '?')
  }

  lemma {:induction false} SplitNoSeparator(s: string, c: char)
    requires c !in s
    ensures Split(s, c) == [s]
  {
    if s != [] {
      SplitNoSeparator(s[1..], c);
      assert s == [s[0]] + s[1..];
    }
  }

  lemma {:induction false} SplitAtSeparator(a: string, c: char, rest: string)
    requires c !in a
    ensures Split(a + [c] + rest, c) == [a] + Split(rest, c)
  {
    if a != [] {
      assert (a + [c] + rest)[1..] == a[1..] + [c] + rest;
      SplitAtSeparator(a[1..], c, rest);
      assert a == [a[0]] + a[1..];
    } else {
      assert (a + [c] + rest)[1..] == rest;
    }
  }

  lemma PlusToSpaceNoPlus(s: string)
    requires '+' !in s
    ensures PlusToSpace(s) == s
  {
  }

  lemma ParsePieceOfPair(k: string, v: string)
    requires '=' !in k && '+' !in k && '+' !in v
    ensures ParsePiece(k + "=" + v) == (k, v)
  {
    var piece := k + "=" + v;
    assert piece[|k|] == '=' && piece[..|k|] == k;
    assert IndexOf(piece, '=') == |k|;
    assert piece[|k| + 1..] == v;
    PlusToSpaceNoPlus(k);
    PlusToSpaceNoPlus(v);
  }

  lemma {:induction false} ParseSerialized(ps: Pairs)
    requires Separable(ps)
    ensures ParsePieces(Split(Serialize(ps), '&')) == ps
  {
    if ps == [] {
    } else {
      var p := ps[0].0 + "=" + ps[0].1;
      assert '&' !in p;
      ParsePieceOfPair(ps[0].0, ps[0].1);
      if |ps| == 1 {
        SplitNoSeparator(p, '&');
      } else {
        assert Separable(ps[1..]);
        SplitAtSeparator(p, '&', Serialize(ps[1..]));
        assert Serialize(ps) == p + ['&'] + Serialize(ps[1..]);
        ParseSerialized(ps[1..]);
      }
      assert p != "";
    }
  }

  /** Reading back a query string built from plain pairs yields the same pairs, in order. */
  lemma ParseOfSerialize(ps: Pairs)
    requires Plain(ps)
    ensures Parse(Serialize(ps)) == ps
  {
    ParseSerialized(ps);
    if ps != [] {
      var s := Serialize(ps);
      assert s[..|ps[0].0|] == ps[0].0;
      if ps[0].0 == [] {
        assert s[0] == '=';
      } else {
        assert s[0] == ps[0].0[0];
      }
    }
  }
}
