/**
 * The small slice of JavaScript string and number semantics the portfolio
 * code leans on: truthiness of strings, `trim`, the `\s` class of regular
 * expressions, ASCII case folding, `includes`, `startsWith` and `parseInt`.
 */
module Js {

  datatype Option<T> = None | Some(value: T)

  /** A JavaScript number as `parseInt` produces it: an integer or NaN. */
  datatype JsNumber = Num(n: int) | NaN

  /** `s || d` for a string that may be absent: absent and empty both fall back. */
  function StringOr(s: Option<string>, d: string): (r: string)
    ensures r == d || (s.Some? && r == s.value)
    ensures r == d <==> s == None || s.value == "" || s.value == d
  {
    if s.Some? && s.value != "" then s.value else d
  }

  /** True when a string value is present and non-empty (JavaScript truthiness). */
  predicate Truthy(s: Option<string>) {
    s.Some? && s.value != ""
  }

  /**
   * The characters JavaScript's `trim` removes and `\s` matches:
   * WhiteSpace (tab, vertical tab, form feed, space, no-break space,
   * byte-order mark, the Zs space separators) and LineTerminator
   * (line feed, carriage return, line and paragraph separators).
   */
  predicate IsWhitespace(c: char) {
    c == '\t' || c == '\n' || c == '\U{000B}' || c == '\U{000C}' || c == '\r' || c == ' '
    || c == '\U{00A0}' || c == '\U{1680}' || ('\U{2000}' <= c <= '\U{200A}')
    || c == '\U{2028}' || c == '\U{2029}' || c == '\U{202F}' || c == '\U{205F}'
    || c == '\U{3000}' || c == '\U{FEFF}'
  }

  predicate NoWhitespace(s: string) {
    forall i :: 0 <= i < |s| ==> !IsWhitespace(s[i])
  }

  predicate AllWhitespace(s: string) {
    forall i :: 0 <= i < |s| ==> IsWhitespace(s[i])
  }

  /** The number of whitespace characters at the start of `s`. */
  function LeadingWhitespace(s: string): (n: nat)
    ensures n <= |s|
    ensures forall k :: 0 <= k < n ==> IsWhitespace(s[k])
    ensures n < |s| ==> !IsWhitespace(s[n])
  {
    if |s| > 0 && IsWhitespace(s[0]) then 1 + LeadingWhitespace(s[1..]) else 0
  }

  /** The number of whitespace characters at the end of `s`. */
  function TrailingWhitespace(s: string): (n: nat)
    ensures n <= |s|
    ensures forall k :: |s| - n <= k < |s| ==> IsWhitespace(s[k])
    ensures n < |s| ==> !IsWhitespace(s[|s| - n - 1])
  {
    if |s| > 0 && IsWhitespace(s[|s| - 1]) then 1 + TrailingWhitespace(s[..|s| - 1]) else 0
  }

  /** `String.prototype.trimStart`: the longest suffix that does not start with whitespace. */
  function TrimStart(s: string): (r: string)
    ensures |r| <= |s| && r == s[|s| - |r|..]
    ensures r == [] || !IsWhitespace(r[0])
    ensures AllWhitespace(s[..|s| - |r|])
  {
    var n := LeadingWhitespace(s);
    assert forall k :: 0 <= k < n ==> s[..n][k] == s[k];
    s[n..]
  }

  /** `String.prototype.trimEnd`: the longest prefix that does not end with whitespace. */
  function TrimEnd(s: string): (r: string)
    ensures |r| <= |s| && r == s[..|r|]
    ensures r == [] || !IsWhitespace(r[|r| - 1])
    ensures AllWhitespace(s[|r|..])
  {
    var n := TrailingWhitespace(s);
    assert forall k :: |s| - n <= k < |s| ==> s[|s| - n..][k - (|s| - n)] == s[k];
    s[..|s| - n]
  }

  /** `String.prototype.trim`. */
  function Trim(s: string): string {
    TrimEnd(TrimStart(s))
  }

  /**
   * Trim keeps a contiguous middle slice of its input, every character it
   * drops is whitespace, and the slice neither starts nor ends with whitespace.
   */
  lemma TrimIsMaximalSlice(s: string)
    ensures exists i :: 0 <= i <= i + |Trim(s)| <= |s| && Trim(s) == s[i..i + |Trim(s)|]
              && AllWhitespace(s[..i]) && AllWhitespace(s[i + |Trim(s)|..])
    ensures Trim(s) == [] || (!IsWhitespace(Trim(s)[0]) && !IsWhitespace(Trim(s)[|Trim(s)| - 1]))
  {
    var a := TrimStart(s);
    var r := TrimEnd(a);
    var i := LeadingWhitespace(s);
    assert a == s[i..];
    assert r == s[i..i + |r|];
    assert s[i + |r|..] == a[|r|..];
    if r != [] {
      assert r[0] == a[0];
    }
  }

  /** Where `Trim(s)` starts in `s`: only whitespace lies before it and after it. */
  lemma TrimOffset(s: string) returns (i: nat)
    ensures i + |Trim(s)| <= |s| && Trim(s) == s[i..i + |Trim(s)|]
    ensures AllWhitespace(s[..i]) && AllWhitespace(s[i + |Trim(s)|..])
  {
    TrimIsMaximalSlice(s);
    i :| 0 <= i <= i + |Trim(s)| <= |s| && Trim(s) == s[i..i + |Trim(s)|]
      && AllWhitespace(s[..i]) && AllWhitespace(s[i + |Trim(s)|..]);
  }

  /** Where the trim of a prefix `s[..n]` lies in `s`: only whitespace surrounds it within the prefix. */
  lemma TrimOfPrefix(s: string, n: nat) returns (i: nat)
    requires n <= |s|
    ensures i + |Trim(s[..n])| <= n && Trim(s[..n]) == s[i..i + |Trim(s[..n])|]
    ensures AllWhitespace(s[..i]) && AllWhitespace(s[i + |Trim(s[..n])|..n])
  {
    var p := s[..n];
    i := TrimOffset(p);
    var j := i + |Trim(p)|;
    assert p[..i] == s[..i] && p[i..j] == s[i..j] && p[j..] == s[j..n];
  }

  /** A character absent from a string is absent from its trim. */
  lemma TrimKeepsOut(s: string, c: char)
    requires c !in s
    ensures c !in Trim(s)
  {
    var a := TrimStart(s);
    assert forall k :: 0 <= k < |a| ==> a[k] == s[|s| - |a| + k];
    var r := TrimEnd(a);
    assert forall k :: 0 <= k < |r| ==> r[k] == a[k];
  }

  /** Trimming a string is empty exactly when the string is all whitespace. */
  lemma {:induction false} TrimEmptyIff(s: string)
    ensures Trim(s) == [] <==> AllWhitespace(s)
  {
    var a := TrimStart(s);
    if a == [] {
      assert s[..|s| - |a|] == s;
    } else {
      assert !IsWhitespace(s[|s| - |a|]);
    }
  }

  /** A string without whitespace is its own trim. */
  lemma TrimNoWhitespace(s: string)
    requires NoWhitespace(s)
    ensures Trim(s) == s
  {
    if s != [] {
      assert !IsWhitespace(s[0]);
      assert !IsWhitespace(s[|s| - 1]);
    }
  }

  function LowerChar(c: char): char {
    if 'A' <= c <= 'Z' then (c as int + 32) as char else c
  }

  function UpperChar(c: char): char {
    if 'a' <= c <= 'z' then (c as int - 32) as char else c
  }

  /** `toLowerCase`, restricted to ASCII letters. */
  function Lower(s: string): (r: string)
    ensures |r| == |s|
    ensures forall i :: 0 <= i < |s| ==> r[i] == LowerChar(s[i])
  {
    seq(|s|, i requires 0 <= i < |s| => LowerChar(s[i]))
  }

  /** `toUpperCase`, restricted to ASCII letters. */
  function Upper(s: string): (r: string)
    ensures |r| == |s|
    ensures forall i :: 0 <= i < |s| ==> r[i] == UpperChar(s[i])
  {
    seq(|s|, i requires 0 <= i < |s| => UpperChar(s[i]))
  }

  /** Lowering twice is lowering once. */
  lemma LowerIdempotent(s: string)
    ensures Lower(Lower(s)) == Lower(s)
  {
  }

  /** Lowering forgets the case of a letter: `Lower` identifies strings that differ only in case. */
  lemma LowerOfUpper(s: string)
    ensures Lower(Upper(s)) == Lower(s)
  {
  }

  predicate OccursAt(s: string, sub: string, i: int) {
    0 <= i && i + |sub| <= |s| && s[i..i + |sub|] == sub
  }

  /** `String.prototype.includes`. */
  predicate Includes(s: string, sub: string) {
    exists i | 0 <= i <= |s| - |sub| :: OccursAt(s, sub, i)
  }

  /** Every string includes the empty string. */
  lemma IncludesEmpty(s: string)
    ensures Includes(s, "")
  {
    assert OccursAt(s, "", 0);
  }

  /** A string includes whatever its tail includes, and it includes its tail. */
  lemma IncludesSuffix(a: string, b: string, sub: string)
    ensures Includes(b, sub) ==> Includes(a + b, sub)
    ensures Includes(a + b, b)
  {
    if Includes(b, sub) {
      var i :| 0 <= i <= |b| - |sub| && OccursAt(b, sub, i);
      assert (a + b)[|a| + i..|a| + i + |sub|] == b[i..i + |sub|];
      assert OccursAt(a + b, sub, |a| + i);
    }
    assert (a + b)[|a|..|a| + |b|] == b;
    assert OccursAt(a + b, b, |a|);
  }

  /** A string includes whatever its head includes. */
  lemma IncludesPrefix(a: string, b: string, sub: string)
    ensures Includes(a, sub) ==> Includes(a + b, sub)
  {
    if Includes(a, sub) {
      var i :| 0 <= i <= |a| - |sub| && OccursAt(a, sub, i);
      assert (a + b)[i..i + |sub|] == a[i..i + |sub|];
      assert OccursAt(a + b, sub, i);
    }
  }

  /** `String.prototype.startsWith`. */
  predicate StartsWith(s: string, prefix: string) {
    |prefix| <= |s| && s[..|prefix|] == prefix
  }

  predicate IsDigit(c: char) {
    '0' <= c <= '9'
  }

  predicate AllDigits(s: string) {
    forall i :: 0 <= i < |s| ==> IsDigit(s[i])
  }

  /** The longest prefix of `s` made of decimal digits. */
  function DigitPrefix(s: string): (r: string)
    ensures |r| <= |s| && r == s[..|r|]
    ensures AllDigits(r)
    ensures |r| < |s| ==> !IsDigit(s[|r|])
  {
    if |s| > 0 && IsDigit(s[0]) then
      var t := DigitPrefix(s[1..]);
      assert [s[0]] + t == s[..1 + |t|];
      [s[0]] + t
    else []
  }

  /** The value of a string of decimal digits. */
  function DecimalValue(d: string): nat
    requires AllDigits(d)
  {
    if d == [] then 0 else 10 * DecimalValue(d[..|d| - 1]) + (d[|d| - 1] as int - '0' as int)
  }

  /**
   * `parseInt(s)` with the default radix on decimal input: leading whitespace
   * is skipped, one sign is allowed, then the longest run of digits is read;
   * without any digit the result is NaN.
   */
  function ParseInt(s: string): JsNumber {
    var t := TrimStart(s);
    var signed := |t| > 0 && (t[0] == '-' || t[0] == '+');
    var digits := DigitPrefix(if signed then t[1..] else t);
    if digits == [] then NaN
    else if signed && t[0] == '-' then Num(0 - DecimalValue(digits))
    else Num(DecimalValue(digits))
  }

  /** On a non-empty string of digits `parseInt` is the decimal value of the whole string. */
  lemma ParseIntOfDigits(s: string)
    requires s != [] && AllDigits(s)
    ensures ParseInt(s) == Num(DecimalValue(s))
  {
    assert s + [] == s;
    ParseIntStopsAtNonDigit(s, []);
  }

  /** The digit run of `d + rest` is `d` when `rest` does not continue it. */
  lemma {:induction false} DigitPrefixStops(d: string, rest: string)
    requires AllDigits(d)
    requires rest == [] || !IsDigit(rest[0])
    ensures DigitPrefix(d + rest) == d
  {
    if d != [] {
      assert (d + rest)[1..] == d[1..] + rest;
      DigitPrefixStops(d[1..], rest);
    }
  }

  /** A string that starts with a digit has nothing for `trimStart` to remove. */
  lemma TrimStartAtDigit(s: string)
    requires s != [] && IsDigit(s[0])
    ensures TrimStart(s) == s
  {
    assert !IsWhitespace(s[0]);
    assert LeadingWhitespace(s) == 0;
  }

  /** On a string that starts with a digit, `parseInt` reads its digit run, unsigned. */
  lemma ParseIntAtDigit(s: string)
    requires s != [] && IsDigit(s[0])
    ensures ParseInt(s) == Num(DecimalValue(DigitPrefix(s)))
  {
    TrimStartAtDigit(s);
  }

  /** `parseInt` reads digits only up to the first non-digit: "8 min read" gives 8. */
  lemma ParseIntStopsAtNonDigit(d: string, rest: string)
    requires d != [] && AllDigits(d)
    requires rest == [] || !IsDigit(rest[0])
    ensures ParseInt(d + rest) == Num(DecimalValue(d))
  {
    assert (d + rest)[0] == d[0];
    ParseIntAtDigit(d + rest);
    DigitPrefixStops(d, rest);
  }
}
