/** Shared vocabulary of the model: optional values, backend outcomes, and the
  * few JavaScript string and number operations the application relies on
  * (trim, join, decimal rendering, parseInt, character string order). */
module Common {

  datatype Option<+T> = None | Some(value: T)

  /** The result of a call into the backend (database, auth service or HTTP):
    * either a value, or an error object carrying a code and a message. */
  datatype Outcome<+T> = Ok(value: T) | Err(code: string, msg: string)

  /** The PostgREST code for "`.single()` found no row". */
  const NotFoundCode: string := "PGRST116"

  /** JavaScript truthiness of an optional string: present and non-empty. */
  predicate Truthy(s: Option<string>)
  {
    s.Some? && s.value != ""
  }

  /** `a || b` on optional strings. */
  function OrElse(s: Option<string>, fallback: string): (r: string)
    ensures Truthy(s) ==> r == s.value
    ensures !Truthy(s) ==> r == fallback
  {
    if s.Some? && s.value != "" then s.value else fallback
  }

  /** `a || null` on optional strings: the empty string becomes absent. */
  function OrNull(s: Option<string>): (r: Option<string>)
    ensures r.Some? <==> Truthy(s)
    ensures r.Some? ==> r == s
  {
    if s.Some? && s.value != "" then s else None
  }

  // ---------------------------------------------------------------- whitespace

  /** The characters `String.prototype.trim` removes (white space and line terminators). */
  predicate IsSpace(c: char)
  {
    c == ' ' || c == '\t' || c == '\n' || c == '\r' || c == '\U{000B}' || c == '\U{000C}'
    || c == '\U{00A0}' || c == '\U{1680}' || ('\U{2000}' <= c <= '\U{200A}')
    || c == '\U{2028}' || c == '\U{2029}' || c == '\U{202F}' || c == '\U{205F}'
    || c == '\U{3000}' || c == '\U{FEFF}'
  }

  predicate AllSpace(s: string)
  {
    forall i :: 0 <= i < |s| ==> IsSpace(s[i])
  }

  function TrimStart(s: string): (r: string)
    ensures |r| <= |s| && r == s[|s| - |r|..]
    ensures r == [] || !IsSpace(r[0])
    ensures AllSpace(s[..|s| - |r|])
  {
    if s != [] && IsSpace(s[0]) then TrimStart(s[1..]) else s
  }

  function TrimEnd(s: string): (r: string)
    ensures |r| <= |s| && r == s[..|r|]
    ensures r == [] || !IsSpace(r[|r| - 1])
    ensures AllSpace(s[|r|..])
  {
    if s != [] && IsSpace(s[|s| - 1]) then TrimEnd(s[..|s| - 1]) else s
  }

  /** `s.trim()` */
  function Trim(s: string): (r: string)
    ensures r == [] || (!IsSpace(r[0]) && !IsSpace(r[|r| - 1]))
    ensures |r| <= |s|
  {
    var t := TrimStart(s);
    var r := TrimEnd(t);
    assert r == [] || r[0] == t[0];
    r
  }

  /** What `trim()` keeps is one stretch of the string, with only white space
    * before and after it. */
  lemma TrimIsInner(s: string)
    ensures var r := Trim(s);
      exists k :: 0 <= k <= |s| - |r| && s[k..k + |r|] == r && AllSpace(s[..k]) && AllSpace(s[k + |r|..])
  {
    var t := TrimStart(s);
    var r := TrimEnd(t);
    var k := |s| - |t|;
    assert s[k..] == t;
    assert s[k..k + |r|] == r by {
      assert r == t[..|r|];
    }
    assert s[k + |r|..] == t[|r|..];
    assert AllSpace(s[..k]) && AllSpace(s[k + |r|..]);
  }

  /** `!s.trim()`: empty or white space only (see `TrimEmptyIffAllSpace`). */
  predicate Blank(s: string)
  {
    AllSpace(s)
  }

  /** `!s.trim()`: a string is blank exactly when it consists of white space only. */
  lemma TrimEmptyIffAllSpace(s: string)
    ensures Trim(s) == "" <==> AllSpace(s)
    ensures Trim(s) == "" <==> Blank(s)
  {
    var t := TrimStart(s);
    if Trim(s) == "" {
      assert AllSpace(t[0..]);
      assert t == [];
      assert s[..|s|] == s;
    } else {
      var r := Trim(s);
      assert !IsSpace(r[|r| - 1]);
      assert r[|r| - 1] == s[|s| - |t| + |r| - 1];
    }
  }

  // ---------------------------------------------------------------- join

  /** `parts.join(sep)` */
  function Join(parts: seq<string>, sep: string): (r: string)
    ensures parts == [] ==> r == ""
    ensures |parts| == 1 ==> r == parts[0]
    ensures parts != [] && parts[0] != "" ==> r != ""
  {
    if parts == [] then ""
    else if |parts| == 1 then parts[0]
    else parts[0] + sep + Join(parts[1..], sep)
  }

  // ---------------------------------------------------------------- decimal numbers

  predicate IsDigit(c: char)
  {
    '0' <= c <= '9'
  }

  function DigitChar(d: nat): (c: char)
    requires d < 10
    ensures IsDigit(c) && c as int - '0' as int == d
  {
    ('0' as int + d) as char
  }

  /** The decimal rendering of a natural number, as `String(n)` gives it. */
  function NatToString(n: nat): (r: string)
    ensures |r| >= 1
    ensures forall i :: 0 <= i < |r| ==> IsDigit(r[i])
    ensures n >= 10 <==> |r| >= 2
    ensures r[0] != '0' || n == 0
    decreases n
  {
    if n < 10 then [DigitChar(n)] else NatToString(n / 10) + [DigitChar(n % 10)]
  }

  /** `String(i)` for an integer. */
  function IntToString(i: int): (r: string)
    ensures r != "" && (r[0] == '-' <==> i < 0)
  {
    if i < 0 then "-" + NatToString(-i) else NatToString(i)
  }

  lemma {:induction false} NatToStringInjective(a: nat, b: nat)
    requires NatToString(a) == NatToString(b)
    ensures a == b
    decreases a
  {
    if a >= 10 && b >= 10 {
      var ra, rb := NatToString(a), NatToString(b);
      assert ra[|ra| - 1] == rb[|rb| - 1];
      assert NatToString(a / 10) == ra[..|ra| - 1] == rb[..|rb| - 1] == NatToString(b / 10);
      NatToStringInjective(a / 10, b / 10);
    }
  }

  /** Different integers are rendered differently. */
  lemma IntToStringInjective(a: int, b: int)
    requires IntToString(a) == IntToString(b)
    ensures a == b
  {
    if a < 0 {
      assert IntToString(a)[1..] == NatToString(-a);
      NatToStringInjective(-a, -b);
    } else {
      NatToStringInjective(a, b);
    }
  }

  /** The number a run of decimal digits denotes. */
  function DigitsValue(ds: string): (v: nat)
    requires forall i :: 0 <= i < |ds| ==> IsDigit(ds[i])
  {
    if ds == [] then 0
    else
      assert IsDigit(ds[|ds| - 1]);
      DigitsValue(ds[..|ds| - 1]) * 10 + (ds[|ds| - 1] as int - '0' as int)
  }

  /** The longest prefix of `s` made of decimal digits. */
  function DigitPrefix(s: string): (r: string)
    ensures |r| <= |s| && r == s[..|r|]
    ensures forall i :: 0 <= i < |r| ==> IsDigit(r[i])
    ensures |r| == |s| || !IsDigit(s[|r|])
  {
    if s != [] && IsDigit(s[0]) then [s[0]] + DigitPrefix(s[1..]) else []
  }

  /** `parseInt(s, 10)`: leading white space is skipped, one sign is allowed,
    * and the longest run of digits that follows is read; `None` is `NaN`. */
  function ParseInt(s: string): (r: Option<int>)
  {
    var t := TrimStart(s);
    var negative := t != [] && t[0] == '-';
    var body := if t != [] && (t[0] == '-' || t[0] == '+') then t[1..] else t;
    var ds := DigitPrefix(body);
    if ds == [] then None
    else if negative then Some(0 - DigitsValue(ds))
    else Some(DigitsValue(ds))
  }

  /** `parseInt` gives `NaN` exactly when, after leading white space, the text
    * starts neither with a digit nor with a sign and a digit; only a leading
    * `-` makes the result negative. */
  lemma ParseIntNaN(s: string)
    ensures var t := TrimStart(s);
      ParseInt(s).None?
      <==> t == [] || (!IsDigit(t[0]) && !((t[0] == '-' || t[0] == '+') && |t| > 1 && IsDigit(t[1])))
    ensures ParseInt(s).Some? && ParseInt(s).value < 0 ==> TrimStart(s)[0] == '-'
  {
  }

  lemma {:induction false} DigitsValueOfNatToString(n: nat)
    ensures DigitsValue(NatToString(n)) == n
    decreases n
  {
    if n >= 10 {
      var r := NatToString(n);
      assert r[..|r| - 1] == NatToString(n / 10);
      DigitsValueOfNatToString(n / 10);
    }
  }

  lemma {:induction false} DigitPrefixOfDigits(ds: string)
    requires forall i :: 0 <= i < |ds| ==> IsDigit(ds[i])
    ensures DigitPrefix(ds) == ds
  {
    if ds != [] {
      DigitPrefixOfDigits(ds[1..]);
    }
  }

  /** `parseInt(String(i), 10) === i`: parsing inverts decimal rendering. */
  lemma ParseIntOfIntToString(i: int)
    ensures ParseInt(IntToString(i)) == Some(i)
  {
    var s := IntToString(i);
    var n: nat := if i < 0 then -i else i;
    var digits := NatToString(n);
    DigitPrefixOfDigits(digits);
    DigitsValueOfNatToString(n);
    assert !IsSpace(s[0]) by {
      assert s[0] == '-' || IsDigit(digits[0]);
    }
    assert TrimStart(s) == s;
    if i < 0 {
      assert s == "-" + digits;
      assert s[1..] == digits;
      assert ParseInt(s) == Some(0 - DigitsValue(DigitPrefix(digits)));
    } else {
      assert s == digits && IsDigit(s[0]);
      assert ParseInt(s) == Some(DigitsValue(DigitPrefix(digits)));
    }
  }

  /** `(c / 100).toFixed(2)` for an amount of `c` cents. */
  function FormatCents(c: nat): (r: string)
    ensures |r| >= 4 && r[|r| - 3] == '.'
    ensures forall i :: 0 <= i < |r| && i != |r| - 3 ==> IsDigit(r[i])
  {
    NatToString(c / 100) + "." + [DigitChar(c % 100 / 10), DigitChar(c % 10)]
  }

  /** Reading the digits of a rendered amount back, without the point, gives
    * the amount in cents. */
  lemma FormatCentsValue(c: nat)
    ensures var r := FormatCents(c);
      DigitsValue(r[..|r| - 3] + r[|r| - 2..]) == c
  {
    var r := FormatCents(c);
    var whole := NatToString(c / 100);
    var a, b := DigitChar(c % 100 / 10), DigitChar(c % 10);
    assert r[..|r| - 3] == whole;
    assert r[|r| - 2..] == [a, b];
    var ds := whole + [a, b];
    assert ds[..|ds| - 1] == whole + [a];
    assert (whole + [a])[..|whole|] == whole;
    DigitsValueOfNatToString(c / 100);
    assert DigitsValue(ds) == (c / 100 * 10 + c % 100 / 10) * 10 + c % 10;
  }

  // ---------------------------------------------------------------- string order

  /** The order `Array.prototype.sort` uses by default and that the model also
    * uses for `localeCompare`: lexicographic on characters. */
  predicate StrLt(a: string, b: string)
  {
    if a == [] then b != []
    else if b == [] then false
    else if a[0] != b[0] then a[0] < b[0]
    else StrLt(a[1..], b[1..])
  }

  lemma {:induction false} StrLtIrreflexive(a: string)
    ensures !StrLt(a, a)
  {
    if a != [] {
      StrLtIrreflexive(a[1..]);
    }
  }

  lemma {:induction false} StrLtTotal(a: string, b: string)
    ensures StrLt(a, b) || a == b || StrLt(b, a)
  {
    if a != [] && b != [] && a[0] == b[0] {
      StrLtTotal(a[1..], b[1..]);
      if a[1..] == b[1..] {
        assert a == [a[0]] + a[1..] && b == [b[0]] + b[1..];
      }
    }
  }

  lemma {:induction false} StrLtAsymmetric(a: string, b: string)
    requires StrLt(a, b)
    ensures !StrLt(b, a)
  {
    if a != [] && b != [] && a[0] == b[0] {
      StrLtAsymmetric(a[1..], b[1..]);
    }
  }

  lemma {:induction false} StrLtTransitive(a: string, b: string, c: string)
    requires StrLt(a, b) && StrLt(b, c)
    ensures StrLt(a, c)
  {
    if a != [] && b != [] && c != [] && a[0] == b[0] && b[0] == c[0] {
      StrLtTransitive(a[1..], b[1..], c[1..]);
    }
  }

  // ---------------------------------------------------------------- case

  /** `toUpperCase` on one character, for the ASCII letters. */
  function UpperChar(c: char): (u: char)
    ensures 'a' <= c <= 'z' ==> 'A' <= u <= 'Z' && u as int == c as int - 32
    ensures !('a' <= c <= 'z') ==> u == c
  {
    if 'a' <= c <= 'z' then (c as int - 32) as char else c
  }
}
