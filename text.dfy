/**
 * The pieces of Rust's `str` API that the load generator relies on:
 * `trim` (strip Unicode white space at both ends), `to_uppercase`
 * (as far as it can turn characters into ASCII letters) and the decimal
 * rendering of a three-digit number.
 */
module Text {

  /** Rust's `char::is_whitespace`: the characters with the Unicode White_Space property. */
  predicate IsWhitespace(c: char) {
    ('\t' <= c <= '\r') || c == ' ' || c == '\U{85}' || c == '\U{A0}' || c == '\U{1680}'
    || ('\U{2000}' <= c <= '\U{200A}') || c == '\U{2028}' || c == '\U{2029}'
    || c == '\U{202F}' || c == '\U{205F}' || c == '\U{3000}'
  }

  /** No white space at either end. */
  predicate Trimmed(s: string) {
    s == [] || (!IsWhitespace(s[0]) && !IsWhitespace(s[|s| - 1]))
  }

  /** `trim_start`: drops the longest white-space prefix. */
  function TrimStart(s: string): (r: string)
    ensures |r| <= |s| && r == s[|s| - |r|..]
    ensures forall k :: 0 <= k < |s| - |r| ==> IsWhitespace(s[k])
    ensures r == [] || !IsWhitespace(r[0])
  {
    if s != [] && IsWhitespace(s[0]) then TrimStart(s[1..]) else s
  }

  /** `trim_end`: drops the longest white-space suffix. */
  function TrimEnd(s: string): (r: string)
    ensures |r| <= |s| && r == s[..|r|]
    ensures forall k :: |r| <= k < |s| ==> IsWhitespace(s[k])
    ensures r == [] || !IsWhitespace(r[|r| - 1])
  {
    if s != [] && IsWhitespace(s[|s| - 1]) then TrimEnd(s[..|s| - 1]) else s
  }

  /** `str::trim`. */
  function Trim(s: string): (r: string)
    ensures Trimmed(r)
    ensures |r| <= |s|
    ensures forall c :: c in r ==> c in s
    ensures Trimmed(s) ==> r == s
  {
    var t := TrimStart(s);
    var r := TrimEnd(t);
    assert r != [] ==> r[0] == t[0];
    r
  }

  /** Everything in `s` before index `i` and from index `j` on is white space. */
  predicate WhitespaceOutside(s: string, i: nat, j: nat)
    requires i <= j <= |s|
  {
    (forall k :: 0 <= k < i ==> IsWhitespace(s[k])) && (forall k :: j <= k < |s| ==> IsWhitespace(s[k]))
  }

  /**
   * `trim` removes exactly white space: what is left is a contiguous
   * part of the input, and everything cut away on either side is white space.
   */
  lemma TrimStripsOnlyWhitespace(s: string)
    ensures exists i, j :: 0 <= i <= j <= |s| && Trim(s) == s[i..j] && WhitespaceOutside(s, i, j)
  {
    var t := TrimStart(s);
    var i := |s| - |t|;
    var r := TrimEnd(t);
    var j := i + |r|;
    assert r == s[i..j] by {
      assert t == s[i..] && r == t[..|r|];
    }
    assert forall k :: 0 <= k < i ==> IsWhitespace(s[k]);
    forall k | j <= k < |s| ensures IsWhitespace(s[k]) {
      assert s[k] == t[k - i];
    }
    assert WhitespaceOutside(s, i, j);
  }

  /** The ASCII lower-case letters. */
  predicate IsAsciiLower(c: char) { 'a' <= c <= 'z' }

  /**
   * `char::to_uppercase`, restricted to what decides whether a string can
   * become an ASCII word: ASCII letters are shifted, and so are the few
   * non-ASCII characters whose upper case is made of ASCII letters only;
   * any other character is kept as it is.
   */
  function UpperChar(c: char): (r: string)
    ensures |r| >= 1
    ensures IsAsciiLower(c) ==> r == [(c as int - 32) as char]
    ensures !IsAsciiLower(c) && c < '\U{80}' ==> r == [c]
  {
    if IsAsciiLower(c) then [(c as int - 32) as char]
    else if c == '\U{131}' then "I"    // dotless i
    else if c == '\U{17F}' then "S"    // long s
    else if c == '\U{DF}' then "SS"    // sharp s
    else if c == '\U{FB00}' then "FF"
    else if c == '\U{FB01}' then "FI"
    else if c == '\U{FB02}' then "FL"
    else if c == '\U{FB03}' then "FFI"
    else if c == '\U{FB04}' then "FFL"
    else if c == '\U{FB05}' || c == '\U{FB06}' then "ST"
    else [c]
  }

  /** `str::to_uppercase`: the upper case of each character, concatenated. */
  function ToUpper(s: string): (r: string)
    ensures |r| >= |s|
  {
    if s == [] then [] else UpperChar(s[0]) + ToUpper(s[1..])
  }

  /** The upper case of a character, as `ToUpper` applies it to the characters of an ASCII word. */
  function AsciiUpper(c: char): char {
    if IsAsciiLower(c) then (c as int - 32) as char else c
  }

  /**
   * For an ASCII-only string, upper-casing works letter by letter;
   * in particular it keeps the length.
   */
  lemma {:induction false} ToUpperAscii(s: string)
    requires forall k :: 0 <= k < |s| ==> s[k] < '\U{80}'
    ensures |ToUpper(s)| == |s|
    ensures forall k :: 0 <= k < |s| ==> ToUpper(s)[k] == AsciiUpper(s[k])
  {
    if s != [] {
      ToUpperAscii(s[1..]);
      assert ToUpper(s) == [AsciiUpper(s[0])] + ToUpper(s[1..]);
    }
  }

  /** The decimal digit of `d`. */
  function Digit(d: nat): char
    requires d < 10
  {
    (48 + d) as char
  }

  /** The decimal text of a three-digit number, as Rust's `{}` formats it. */
  function ThreeDigits(n: nat): (r: string)
    requires 100 <= n <= 999
    ensures |r| == 3 && r[0] != '0'
    ensures forall k :: 0 <= k < 3 ==> '0' <= r[k] <= '9'
    ensures (r[0] as int - 48) * 100 + (r[1] as int - 48) * 10 + (r[2] as int - 48) == n
  {
    var tens := n / 10;
    assert n == 10 * tens + n % 10 && tens == 10 * (tens / 10) + tens % 10;
    [Digit(tens / 10), Digit(tens % 10), Digit(n % 10)]
  }

  /** Different numbers print differently. */
  lemma ThreeDigitsInjective(m: nat, n: nat)
    requires 100 <= m <= 999 && 100 <= n <= 999
    requires ThreeDigits(m) == ThreeDigits(n)
    ensures m == n
  {
    var tm, tn := m / 10, n / 10;
    assert Digit(tm / 10) == Digit(tn / 10) && Digit(tm % 10) == Digit(tn % 10) && Digit(m % 10) == Digit(n % 10);
    assert tm == 10 * (tm / 10) + tm % 10 && tn == 10 * (tn / 10) + tn % 10;
    assert tm == tn;
    assert m == 10 * tm + m % 10 && n == 10 * tn + n % 10;
  }
}
