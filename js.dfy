/**
 * The JavaScript value semantics the front end relies on: optional properties
 * (undefined / null), string truthiness, `a || b`, `String.prototype.trim`,
 * `.length` in UTF-16 code units, `toLowerCase`, `includes`, and the decimal
 * text of a number in a template literal.
 */
module Js {

  /** A property that may be absent (undefined or null) or present. */
  datatype Option<+T> = None | Some(value: T) {
    predicate IsFailure() { None? }

    function PropagateFailure<U>(): Option<U>
      requires None?
    {
      None
    }

    function Extract(): T
      requires Some?
    {
      value
    }
  }

  /** Value of `map.get(k)` / `localStorage.getItem(k)`: absent keys give null. */
  function Get<K, V>(m: map<K, V>, k: K): (r: Option<V>)
    ensures r.Some? <==> k in m
    ensures r.Some? ==> r.value == m[k]
  {
    if k in m then Some(m[k]) else None
  }

  /** `!!s` for a string-valued property: undefined, null and "" are falsy. */
  predicate Truthy(s: Option<string>) {
    s.Some? && s.value != ""
  }

  /** `a || b` where `a` is an optional string and `b` a string. */
  function OrElse(a: Option<string>, b: string): string {
    if Truthy(a) then a.value else b
  }

  /** `a || 0` for an optional count: undefined, null and 0 all give 0. */
  function OrZero(a: Option<int>): int {
    if a.Some? then a.value else 0
  }

  // ---------------------------------------------------------------------
  // String.prototype.trim

  /** WhiteSpace and LineTerminator code points of ECMAScript (section 12.2
      and 12.3 of ECMA-262), the characters `trim` removes. */
  predicate IsWhite(c: char) {
    c == '\t' || c == '\n' || c == '\U{B}' || c == '\U{C}' || c == '\r' ||
    c == ' ' || c == '\U{A0}' || c == '\U{1680}' ||
    ('\U{2000}' <= c <= '\U{200A}') ||
    c == '\U{2028}' || c == '\U{2029}' || c == '\U{202F}' || c == '\U{205F}' ||
    c == '\U{3000}' || c == '\U{FEFF}'
  }

  /** Drops leading white space. */
  function TrimStart(s: string): (r: string)
    ensures |r| <= |s| && r == s[|s| - |r|..]
    ensures r != [] ==> !IsWhite(r[0])
    ensures forall i :: 0 <= i < |s| - |r| ==> IsWhite(s[i])
  {
    if s != [] && IsWhite(s[0]) then TrimStart(s[1..]) else s
  }

  /** Drops trailing white space. */
  function TrimEnd(s: string): (r: string)
    ensures |r| <= |s| && r == s[..|r|]
    ensures r != [] ==> !IsWhite(r[|r| - 1])
    ensures forall i :: |r| <= i < |s| ==> IsWhite(s[i])
  {
    if s != [] && IsWhite(s[|s| - 1]) then TrimEnd(s[..|s| - 1]) else s
  }

  /** `s.trim()`: the longest infix of `s` with no white space at either end. */
  function Trim(s: string): (r: string)
    ensures |r| <= |s|
    ensures r != [] ==> !IsWhite(r[0]) && !IsWhite(r[|r| - 1])
  {
    TrimEnd(TrimStart(s))
  }

  lemma {:induction false} TrimStartNoWhite(s: string)
    requires s == [] || !IsWhite(s[0])
    ensures TrimStart(s) == s
  {
  }

  lemma {:induction false} TrimEndNoWhite(s: string)
    requires s == [] || !IsWhite(s[|s| - 1])
    ensures TrimEnd(s) == s
  {
  }

  /** A string of white space only trims to "", so it is falsy after `trim`. */
  lemma {:induction false} TrimAllWhite(s: string)
    requires forall i :: 0 <= i < |s| ==> IsWhite(s[i])
    ensures Trim(s) == ""
  {
    if s != [] {
      TrimAllWhite(s[1..]);
    }
  }

  // ---------------------------------------------------------------------
  // .length

  /** Number of UTF-16 code units of a character: two for characters outside
      the Basic Multilingual Plane, which JavaScript stores as a surrogate pair. */
  function CodeUnits(c: char): nat {
    if c as int >= 0x1_0000 then 2 else 1
  }

  /** `s.length`, which counts UTF-16 code units, not characters. */
  function Length(s: string): (n: nat)
    ensures |s| <= n <= 2 * |s|
  {
    if s == [] then 0 else CodeUnits(s[0]) + Length(s[1..])
  }

  lemma {:induction false} LengthAppend(a: string, b: string)
    ensures Length(a + b) == Length(a) + Length(b)
  {
    if a == [] {
      assert a + b == b;
    } else {
      assert (a + b)[0] == a[0];
      assert (a + b)[1..] == a[1..] + b;
      LengthAppend(a[1..], b);
    }
  }

  /** For text in the Basic Multilingual Plane (all Swedish text) `.length`
      is the number of characters. */
  lemma {:induction false} LengthOfBmp(s: string)
    requires forall i :: 0 <= i < |s| ==> s[i] as int < 0x1_0000
    ensures Length(s) == |s|
  {
    if s != [] {
      LengthOfBmp(s[1..]);
    }
  }

  // ---------------------------------------------------------------------
  // toLowerCase and includes

  /** Lower case of a character of the Basic Latin and Latin-1 blocks
      (A-Z, and the capitals from U+00C0 to U+00DE except the sign U+00D7,
      which covers Å, Ä and Ö); every other character is kept. */
  function LowerChar(c: char): char {
    if 'A' <= c <= 'Z' then (c as int + 32) as char
    else if 'À' <= c <= 'Þ' && c != '×' then (c as int + 32) as char
    else c
  }

  /** `s.toLowerCase()`, restricted as `LowerChar` is. */
  function Lower(s: string): (r: string)
    ensures |r| == |s|
    ensures forall i :: 0 <= i < |s| ==> r[i] == LowerChar(s[i])
  {
    seq(|s|, i requires 0 <= i < |s| => LowerChar(s[i]))
  }

  /** `needle` occurs in `hay` starting at index `i`. */
  predicate OccursAt(hay: string, needle: string, i: int) {
    0 <= i && i + |needle| <= |hay| && hay[i..i + |needle|] == needle
  }

  /** `hay.includes(needle)`: needle occurs in hay at some position
      (the empty needle occurs everywhere). */
  predicate Contains(hay: string, needle: string) {
    exists i | 0 <= i <= |hay| - |needle| :: OccursAt(hay, needle, i)
  }

  // ---------------------------------------------------------------------
  // Numbers in template literals

  function DigitChar(d: nat): (c: char)
    requires d < 10
    ensures '0' <= c <= '9'
  {
    "0123456789"[d]
  }

  /** Decimal text of a natural number, without leading zeros. */
  function NatToString(n: nat): (r: string)
    ensures r != []
    ensures forall i :: 0 <= i < |r| ==> '0' <= r[i] <= '9'
    ensures n >= 10 ==> r[0] != '0'
    decreases n
  {
    if n < 10 then [DigitChar(n)] else NatToString(n / 10) + [DigitChar(n % 10)]
  }

  /** `${i}` for an integer `i`. */
  function IntToString(i: int): (r: string)
    ensures r != []
    ensures i >= 0 ==> r == NatToString(i)
    ensures i < 0 ==> r == "-" + NatToString(-i)
  {
    if i < 0 then "-" + NatToString(-i) else NatToString(i)
  }
}
