// Shared vocabulary for the whole model: an Option type, the string
// operations the Python and TypeScript sources call (strip/trim, lower,
// replace, split, join, str(int), slicing) and an abstract JSON value.

module Wrappers {

  datatype Option<+T> = None | Some(value: T) {

    /** The wrapped value, or `default` when there is none (Python's `d.get(k, default)`). */
    function GetOr(default: T): T {
      match this
      case Some(v) => v
      case None => default
    }
  }
}

module Text {

  /** Characters for which Python's `str.isspace()` holds; `str.strip()` removes these. */
  predicate PyIsSpace(c: char) {
    c == ' ' || c == '\t' || c == '\n' || c == '\r' || c == '\U{0B}' || c == '\U{0C}'
    || ('\U{1C}' <= c <= '\U{1F}') || c == '\U{85}' || c == '\U{A0}' || c == '\U{1680}'
    || ('\U{2000}' <= c <= '\U{200A}') || c == '\U{2028}' || c == '\U{2029}'
    || c == '\U{202F}' || c == '\U{205F}' || c == '\U{3000}'
  }

  /** Characters that JavaScript's `String.prototype.trim()` removes (white space and line terminators). */
  predicate JsIsSpace(c: char) {
    c == ' ' || c == '\t' || c == '\n' || c == '\r' || c == '\U{0B}' || c == '\U{0C}'
    || c == '\U{A0}' || c == '\U{FEFF}' || c == '\U{1680}'
    || ('\U{2000}' <= c <= '\U{200A}') || c == '\U{2028}' || c == '\U{2029}'
    || c == '\U{202F}' || c == '\U{205F}' || c == '\U{3000}'
  }

  /** Every character of `s` is a space in the sense of `sp`. */
  predicate AllSpace(s: string, sp: char -> bool) {
    forall k :: 0 <= k < |s| ==> sp(s[k])
  }

  /** `s` has no leading and no trailing character in the sense of `sp`. */
  predicate IsStripped(s: string, sp: char -> bool) {
    s == [] || (!sp(s[0]) && !sp(s[|s| - 1]))
  }

  function StripLeft(s: string, sp: char -> bool): (r: string)
    ensures |r| <= |s| && r == s[|s| - |r|..]
  {
    if |s| > 0 && sp(s[0]) then StripLeft(s[1..], sp) else s
  }

  function StripRight(s: string, sp: char -> bool): (r: string)
    ensures |r| <= |s| && r == s[..|r|]
  {
    if |s| > 0 && sp(s[|s| - 1]) then StripRight(s[..|s| - 1], sp) else s
  }

  /** Removes leading and trailing spaces (Python `strip()`, JavaScript `trim()`). */
  function Strip(s: string, sp: char -> bool): string {
    StripRight(StripLeft(s, sp), sp)
  }

  /** Everything `StripLeft` drops is a space, and what it keeps starts with a non-space. */
  lemma {:induction false} StripLeftSpec(s: string, sp: char -> bool)
    ensures forall k :: 0 <= k < |s| - |StripLeft(s, sp)| ==> sp(s[k])
    ensures StripLeft(s, sp) == [] || !sp(StripLeft(s, sp)[0])
  {
    if |s| > 0 && sp(s[0]) {
      var t := s[1..];
      assert StripLeft(s, sp) == StripLeft(t, sp);
      StripLeftSpec(t, sp);
      forall k | 1 <= k < |s| - |StripLeft(t, sp)| ensures sp(s[k]) {
        assert s[k] == t[k - 1];
      }
    }
  }

  lemma {:induction false} StripRightSpec(s: string, sp: char -> bool)
    ensures forall k :: |StripRight(s, sp)| <= k < |s| ==> sp(s[k])
    ensures StripRight(s, sp) == [] || !sp(StripRight(s, sp)[|StripRight(s, sp)| - 1])
  {
    if |s| > 0 && sp(s[|s| - 1]) {
      var t := s[..|s| - 1];
      assert StripRight(s, sp) == StripRight(t, sp);
      StripRightSpec(t, sp);
      forall k | |StripRight(t, sp)| <= k < |s| - 1 ensures sp(s[k]) {
        assert s[k] == t[k];
      }
    }
  }

  lemma StripEnds(s: string, sp: char -> bool)
    ensures IsStripped(Strip(s, sp), sp)
  {
    var l := StripLeft(s, sp);
    StripLeftSpec(s, sp);
    StripRightSpec(l, sp);
    if StripRight(l, sp) != [] {
      assert StripRight(l, sp)[0] == l[0];
    }
  }

  lemma StripEmpty(s: string, sp: char -> bool)
    ensures Strip(s, sp) == [] <==> AllSpace(s, sp)
  {
    var l := StripLeft(s, sp);
    StripLeftSpec(s, sp);
    StripRightSpec(l, sp);
    if l != [] {
      assert l[0] == s[|s| - |l|];
      assert StripRight(l, sp) != [];
    }
  }

  lemma StripInside(s: string, sp: char -> bool)
    ensures exists i :: 0 <= i <= |s| && Strip(s, sp) <= s[i..]
  {
    var l := StripLeft(s, sp);
    assert Strip(s, sp) <= s[|s| - |l|..];
  }

  /**
   * The stripped string has no space at either end, is empty exactly when the input is all
   * space, and is a contiguous part of the input.
   */
  lemma StripSpec(s: string, sp: char -> bool)
    ensures IsStripped(Strip(s, sp), sp)
    ensures Strip(s, sp) == [] <==> AllSpace(s, sp)
    ensures exists i :: 0 <= i <= |s| && Strip(s, sp) <= s[i..]
  {
    StripEnds(s, sp);
    StripEmpty(s, sp);
    StripInside(s, sp);
  }

  /** Stripping a string that is already stripped changes nothing. */
  lemma {:induction false} StripStripped(s: string, sp: char -> bool)
    requires IsStripped(s, sp)
    ensures Strip(s, sp) == s
  {
  }

  function PyStrip(s: string): string { Strip(s, PyIsSpace) }

  function JsTrim(s: string): string { Strip(s, JsIsSpace) }

  /** ASCII case mapping; the sources use the full Unicode mapping of `lower()`. */
  function LowerChar(c: char): char {
    if 'A' <= c <= 'Z' then (c as int + 32) as char else c
  }

  function UpperChar(c: char): char {
    if 'a' <= c <= 'z' then (c as int - 32) as char else c
  }

  function Lower(s: string): (r: string)
    ensures |r| == |s| && forall i :: 0 <= i < |s| ==> r[i] == LowerChar(s[i])
  {
    seq(|s|, i requires 0 <= i < |s| => LowerChar(s[i]))
  }

  function Upper(s: string): (r: string)
    ensures |r| == |s| && forall i :: 0 <= i < |s| ==> r[i] == UpperChar(s[i])
  {
    seq(|s|, i requires 0 <= i < |s| => UpperChar(s[i]))
  }

  /** `s.replace(a, b)` for single characters `a` and `b`. */
  function ReplaceChar(s: string, a: char, b: char): (r: string)
    ensures |r| == |s|
    ensures forall i :: 0 <= i < |s| ==> r[i] == if s[i] == a then b else s[i]
  {
    seq(|s|, i requires 0 <= i < |s| => if s[i] == a then b else s[i])
  }

  /** `sub in s` (Python) / `s.includes(sub)` (JavaScript). */
  predicate Contains(s: string, sub: string) {
    sub <= s || (|s| > 0 && Contains(s[1..], sub))
  }

  /** `sep.join(xs)`. */
  function Join(xs: seq<string>, sep: string): string {
    if |xs| == 0 then "" else if |xs| == 1 then xs[0] else xs[0] + sep + Join(xs[1..], sep)
  }

  /** `s.split(c)` for a one-character separator (same in Python and JavaScript). */
  function Split(s: string, c: char): (r: seq<string>)
    ensures |r| >= 1
    ensures forall i :: 0 <= i < |r| ==> c !in r[i]
    ensures Join(r, [c]) == s
  {
    if |s| == 0 then [""]
    else if s[0] == c then
      var t := Split(s[1..], c);
      assert [""] + t == [""] + t[..1] + t[1..];
      [""] + t
    else
      var t := Split(s[1..], c);
      var r := [[s[0]] + t[0]] + t[1..];
      assert Join(r, [c]) == [s[0]] + Join(t, [c]) by {
        if |t| > 1 {
          assert r[1..] == t[1..];
        }
      }
      assert s == [s[0]] + s[1..];
      r
  }

  lemma {:induction false} SplitPrefix(a: string, t: string, c: char)
    requires c !in a
    ensures Split(a + t, c) == [a + Split(t, c)[0]] + Split(t, c)[1..]
    decreases |a|
  {
    if |a| > 0 {
      assert (a + t)[0] == a[0];
      assert (a + t)[1..] == a[1..] + t;
      SplitPrefix(a[1..], t, c);
      assert [a[0]] + (a[1..] + Split(t, c)[0]) == a + Split(t, c)[0];
    } else {
      assert a + t == t;
      assert a + Split(t, c)[0] == Split(t, c)[0];
    }
  }

  lemma SplitSeparator(rest: string, c: char)
    ensures Split([c] + rest, c) == [""] + Split(rest, c)
  {
    assert ([c] + rest)[0] == c && ([c] + rest)[1..] == rest;
  }

  /** Splitting a join gives the pieces back when no piece contains the separator. */
  lemma {:induction false} SplitJoin(xs: seq<string>, c: char)
    requires |xs| >= 1
    requires forall i :: 0 <= i < |xs| ==> c !in xs[i]
    ensures Split(Join(xs, [c]), c) == xs
    decreases |xs|
  {
    if |xs| == 1 {
      SplitPrefix(xs[0], "", c);
      assert xs[0] + "" == xs[0];
    } else {
      var rest := Join(xs[1..], [c]);
      assert Join(xs, [c]) == xs[0] + ([c] + rest);
      SplitJoin(xs[1..], c);
      SplitSeparator(rest, c);
      SplitPrefix(xs[0], [c] + rest, c);
      assert xs[0] + "" == xs[0];
      assert xs == [xs[0]] + xs[1..];
    }
  }

  function DigitChar(d: nat): (c: char)
    requires d < 10
    ensures '0' <= c <= '9' && c as int - '0' as int == d
  {
    ('0' as int + d) as char
  }

  /** Python's `str(n)` for a non-negative integer. */
  function NatToString(n: nat): (r: string)
    ensures |r| >= 1
    ensures forall i :: 0 <= i < |r| ==> '0' <= r[i] <= '9'
    ensures |r| > 1 ==> r[0] != '0'
  {
    if n < 10 then [DigitChar(n)] else NatToString(n / 10) + [DigitChar(n % 10)]
  }

  /** The value of a string of decimal digits: the inverse of NatToString. */
  function DigitsValue(s: string): int {
    if |s| == 0 then 0 else DigitsValue(s[..|s| - 1]) * 10 + (s[|s| - 1] as int - '0' as int)
  }

  lemma {:induction false} NatToStringValue(n: nat)
    ensures DigitsValue(NatToString(n)) == n
  {
    if n >= 10 {
      NatToStringValue(n / 10);
      var s := NatToString(n);
      assert s[..|s| - 1] == NatToString(n / 10);
    }
  }

  /** Python's slice `s[:n]`: a negative `n` counts from the end. */
  function SliceTo<T>(s: seq<T>, n: int): (r: seq<T>)
    ensures r <= s
    ensures n >= 0 ==> |r| == if n < |s| then n else |s|
    ensures n < 0 ==> |r| == if |s| + n > 0 then |s| + n else 0
  {
    if n >= 0 then (if n < |s| then s[..n] else s)
    else if |s| + n > 0 then s[..|s| + n] else []
  }
}

module JsonValue {
  import opened Wrappers

  /** A JSON value; encoding and decoding are not modelled, only the value. */
  datatype Json =
    | Null
    | Bool(b: bool)
    | Int(i: int)
    | Real(r: real)
    | Str(s: string)
    | Arr(items: seq<Json>)
    | Obj(fields: seq<(string, Json)>)

  const EmptyObject: Json := Obj([])

  const EmptyArray: Json := Arr([])

  /** The value stored under `key`; as in a Python dict built from these pairs, the last pair wins. */
  function Lookup(fields: seq<(string, Json)>, key: string): (r: Option<Json>)
    ensures r.Some? <==> exists i :: 0 <= i < |fields| && fields[i].0 == key
    ensures r.Some? ==> exists i :: 0 <= i < |fields| && fields[i] == (key, r.value)
    decreases |fields|
  {
    if fields == [] then None
    else if fields[|fields| - 1].0 == key then Some(fields[|fields| - 1].1)
    else
      var r := Lookup(fields[..|fields| - 1], key);
      assert forall i :: 0 <= i < |fields| - 1 ==> fields[..|fields| - 1][i] == fields[i];
      r
  }

  /** `j.get(key)` on an object; None for a missing key. */
  function Member(j: Json, key: string): Option<Json> {
    if j.Obj? then Lookup(j.fields, key) else None
  }

  /** The name Python's `type(v).__name__` gives a decoded JSON value. */
  function PyTypeName(j: Json): string {
    match j
    case Null => "NoneType"
    case Bool(_) => "bool"
    case Int(_) => "int"
    case Real(_) => "float"
    case Str(_) => "str"
    case Arr(_) => "list"
    case Obj(_) => "dict"
  }
}
