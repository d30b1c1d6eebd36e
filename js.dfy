/** The few JavaScript value rules the components rely on: identifiers
    compared with `===`, truthiness of strings and numbers, `String.trim`,
    `String.toLowerCase` and `String.includes`. */
module Js {

  datatype Option<+T> = None | Some(value: T)

  /** A value used as an identifier (`_id`, `id`, `clientId`, a selected id).
      Strict equality `===` on these values is datatype equality: two
      `undefined`s are equal, `null` and `undefined` are not, and the string
      "5" differs from the number 5. */
  datatype Key = Undefined | Null | Str(s: string) | Num(n: int)

  /** JavaScript truthiness of an identifier value. */
  predicate KeyTruthy(k: Key) {
    match k
    case Str(s) => s != ""
    case Num(n) => n != 0
    case _ => false
  }

  /** `a || b` on identifier values. */
  function KeyOr(a: Key, b: Key): (r: Key)
    ensures KeyTruthy(a) ==> r == a
    ensures !KeyTruthy(a) ==> r == b
  {
    if KeyTruthy(a) then a else b
  }

  /** A form field that holds either a number (from the server) or the text
      typed into an input, or is missing. */
  datatype Scalar = Absent | Number(x: real) | Text(t: string)

  /** JavaScript truthiness: a non-zero number or a non-empty string. */
  predicate Truthy(v: Scalar) {
    match v
    case Absent => false
    case Number(x) => x != 0.0
    case Text(t) => t != ""
  }

  /** Truthiness of an optional string (`undefined`, `null` and "" are falsy). */
  predicate Present(o: Option<string>) {
    o.Some? && o.value != ""
  }

  /** `o || fallback` for an optional string. */
  function StrOr(o: Option<string>, fallback: string): (r: string)
    ensures Present(o) ==> r == o.value
    ensures !Present(o) ==> r == fallback
  {
    if Present(o) then o.value else fallback
  }

  /** `o || fallback` for an optional number (0 is falsy). */
  function NumOr(o: Option<real>, fallback: real): (r: real)
    ensures o.Some? && o.value != 0.0 ==> r == o.value
    ensures (o.None? || o.value == 0.0) ==> r == fallback
  {
    if o.Some? && o.value != 0.0 then o.value else fallback
  }

  /** `o || fallback` for an optional array (every array is truthy). */
  function SeqOr<T>(o: Option<seq<T>>, fallback: seq<T>): (r: seq<T>)
    ensures o.Some? ==> r == o.value
    ensures o.None? ==> r == fallback
  {
    if o.Some? then o.value else fallback
  }

  // ---------------------------------------------------------------------
  // String.prototype.trim

  /** The characters `trim` removes: the ECMAScript WhiteSpace and
      LineTerminator code points. */
  predicate IsWhitespace(c: char) {
    c == ' ' || c == '\t' || c == '\n' || c == '\r' || c == '\U{000B}' || c == '\U{000C}'
    || c == '\U{00A0}' || c == '\U{1680}' || ('\U{2000}' <= c <= '\U{200A}')
    || c == '\U{2028}' || c == '\U{2029}' || c == '\U{202F}' || c == '\U{205F}'
    || c == '\U{3000}' || c == '\U{FEFF}'
  }

  /** A string made of whitespace only (the empty string included). */
  predicate Blank(s: string) {
    forall i :: 0 <= i < |s| ==> IsWhitespace(s[i])
  }

  /** The number of whitespace characters `s` starts with. */
  function LeadingBlanks(s: string): (n: nat)
    ensures n <= |s|
    ensures forall k :: 0 <= k < n ==> IsWhitespace(s[k])
    ensures n == |s| || !IsWhitespace(s[n])
  {
    if s != [] && IsWhitespace(s[0]) then
      var n := 1 + LeadingBlanks(s[1..]);
      assert forall k :: 1 <= k < n ==> s[k] == s[1..][k - 1];
      n
    else
      0
  }

  /** Where the whitespace `s` ends with begins: every character from there
      on is whitespace, the one before it is not. */
  function TrailingBlanksStart(s: string): (n: nat)
    ensures n <= |s|
    ensures forall k :: n <= k < |s| ==> IsWhitespace(s[k])
    ensures n == 0 || !IsWhitespace(s[n - 1])
  {
    if s != [] && IsWhitespace(s[|s| - 1]) then TrailingBlanksStart(s[..|s| - 1]) else |s|
  }

  /** `s.trim()`: `s` with its leading and trailing whitespace cut off. The
      result is empty exactly when `s` is blank; otherwise it starts and
      ends with a non-whitespace character. */
  function Trim(s: string): (r: string)
    ensures |r| <= |s|
    ensures exists i, j :: 0 <= i <= j <= |s| && r == s[i..j] && Blank(s[..i]) && Blank(s[j..])
    ensures r == "" <==> Blank(s)
    ensures r == "" || (!IsWhitespace(r[0]) && !IsWhitespace(r[|r| - 1]))
  {
    var i, j := LeadingBlanks(s), TrailingBlanksStart(s);
    if i == |s| then
      assert Blank(s[..i]) && Blank(s[i..]) by {
        assert s[..i] == s;
      }
      s[i..i]
    else
      assert i < j;
      assert Blank(s[..i]) by {
        assert forall k :: 0 <= k < i ==> s[..i][k] == s[k];
      }
      assert Blank(s[j..]) by {
        assert forall k :: 0 <= k < |s| - j ==> s[j..][k] == s[j + k];
      }
      s[i..j]
  }

  /** Trimming a trimmed string changes nothing. */
  lemma {:induction false} TrimIdempotent(s: string)
    ensures Trim(Trim(s)) == Trim(s)
  {
    var t := Trim(s);
    TrimOfTrimmed(t);
  }

  /** A string with no whitespace at either end is its own trim. */
  lemma {:induction false} TrimOfTrimmed(t: string)
    requires t == "" || (!IsWhitespace(t[0]) && !IsWhitespace(t[|t| - 1]))
    ensures Trim(t) == t
  {
    assert LeadingBlanks(t) == 0;
    assert TrailingBlanksStart(t) == |t|;
  }

  // ---------------------------------------------------------------------
  // String.prototype.toLowerCase (ASCII letters only)

  function LowerChar(c: char): (r: char)
    ensures 'A' <= c <= 'Z' ==> r as int == c as int + 32
    ensures !('A' <= c <= 'Z') ==> r == c
  {
    if 'A' <= c <= 'Z' then (c as int + 32) as char else c
  }

  /** `s.toLowerCase()`, folding the ASCII letters `A`-`Z`. */
  function ToLower(s: string): (r: string)
    ensures |r| == |s|
    ensures forall i :: 0 <= i < |s| ==> r[i] == LowerChar(s[i])
  {
    if s == [] then [] else [LowerChar(s[0])] + ToLower(s[1..])
  }

  /** Folding twice is folding once. */
  lemma ToLowerIdempotent(s: string)
    ensures ToLower(ToLower(s)) == ToLower(s)
  {
    assert forall i :: 0 <= i < |s| ==> LowerChar(LowerChar(s[i])) == LowerChar(s[i]);
  }

  // ---------------------------------------------------------------------
  // String.prototype.includes

  /** `hay.includes(needle)`, searched from the left. */
  predicate Contains(hay: string, needle: string)
    decreases |hay|
  {
    if |needle| > |hay| then false
    else if hay[..|needle|] == needle then true
    else hay != [] && Contains(hay[1..], needle)
  }

  /** `needle` occurs in `hay` starting at offset `i`. */
  predicate OccursAt(hay: string, needle: string, i: int) {
    0 <= i <= |hay| - |needle| && hay[i..i + |needle|] == needle
  }

  /** The search agrees with the definition of a substring: `needle` occurs
      in `hay` at some offset. */
  lemma {:induction false} ContainsIffOccurs(hay: string, needle: string)
    ensures Contains(hay, needle) <==> exists i :: OccursAt(hay, needle, i)
    decreases |hay|
  {
    if |needle| > |hay| {
    } else if hay[..|needle|] == needle {
      assert OccursAt(hay, needle, 0);
    } else {
      assert hay != [] by {
        if hay == [] { assert false; }
      }
      ContainsIffOccurs(hay[1..], needle);
      if Contains(hay, needle) {
        var i :| OccursAt(hay[1..], needle, i);
        assert hay[i + 1..i + 1 + |needle|] == hay[1..][i..i + |needle|];
        assert OccursAt(hay, needle, i + 1);
      }
      if exists i :: OccursAt(hay, needle, i) {
        var i :| OccursAt(hay, needle, i);
        assert i != 0;
        assert hay[1..][i - 1..i - 1 + |needle|] == hay[i..i + |needle|];
        assert OccursAt(hay[1..], needle, i - 1);
      }
    }
  }

  /** The empty string is found in every string. */
  lemma ContainsEmpty(hay: string)
    ensures Contains(hay, "")
  {
  }
}
