/** Characters and strings as the JVM sees them: the character classes,
    case mappings, blank checks, trimming and substring removal that the
    Kotlin and Java sources call. Whitespace is exact over all of Unicode,
    and Kotlin's whitespace is kept apart from Java's. Digits, letters and
    case mappings are exact over Latin-1 (U+0000-U+00FF), plus the few
    mappings from outside it that fold onto ASCII. */
module Text {
  import opened Wrappers

  /** `Char.isDigit()` restricted to the ASCII digits. */
  predicate IsDigit(c: char) { '0' <= c <= '9' }

  /** Java's `Character.isWhitespace()`: the space, line and paragraph
      separators except the no-break ones (U+00A0, U+2007, U+202F), plus
      the controls U+0009-U+000D and U+001C-U+001F. */
  predicate IsJavaWhitespace(c: char) {
    ('\U{0009}' <= c <= '\U{000D}') || ('\U{001C}' <= c <= '\U{0020}')
    || c == '\U{1680}' || ('\U{2000}' <= c <= '\U{2006}') || ('\U{2008}' <= c <= '\U{200A}')
    || c == '\U{2028}' || c == '\U{2029}' || c == '\U{205F}' || c == '\U{3000}'
  }

  /** Kotlin's `Char.isWhitespace()`: Java's whitespace or a space
      separator, so the no-break spaces count too. */
  predicate IsWhitespace(c: char) {
    IsJavaWhitespace(c) || c == '\U{00A0}' || c == '\U{2007}' || c == '\U{202F}'
  }

  /** `Char.isUpperCase()`: A-Z and the Latin-1 capitals. */
  predicate IsUpperCase(c: char) {
    ('A' <= c <= 'Z') || ('\U{00C0}' <= c <= '\U{00DE}' && c != '\U{00D7}')
  }

  /** `Char.isLowerCase()`: a-z, the Latin-1 small letters, the micro sign
      and the two ordinal indicators (lower case by Unicode's
      Other_Lowercase property). */
  predicate IsLowerCase(c: char) {
    ('a' <= c <= 'z') || ('\U{00DF}' <= c <= '\U{00FF}' && c != '\U{00F7}')
    || c == '\U{00AA}' || c == '\U{00B5}' || c == '\U{00BA}'
  }

  predicate IsLetter(c: char) { IsUpperCase(c) || IsLowerCase(c) }

  /** `Char.isLetterOrDigit()`. */
  predicate IsLetterOrDigit(c: char) { IsLetter(c) || IsDigit(c) }

  /** `Character.toUpperCase`, including the micro sign (whose capital is
      the Greek capital mu), the dotless i and the long s. */
  function ToUpper(c: char): char {
    if 'a' <= c <= 'z' then (c as int - 32) as char
    else if '\U{00E0}' <= c <= '\U{00FE}' && c != '\U{00F7}' then (c as int - 32) as char
    else if c == '\U{00FF}' then '\U{0178}'
    else if c == '\U{00B5}' then '\U{039C}'
    else if c == '\U{0131}' then 'I'
    else if c == '\U{017F}' then 'S'
    else c
  }

  /** `Character.toLowerCase`, including the capital Y with diaeresis,
      the Kelvin sign and the dotted capital I, whose small forms are
      Latin-1. */
  function ToLower(c: char): char {
    if 'A' <= c <= 'Z' then (c as int + 32) as char
    else if '\U{00C0}' <= c <= '\U{00DE}' && c != '\U{00D7}' then (c as int + 32) as char
    else if c == '\U{0178}' then '\U{00FF}'
    else if c == '\U{212A}' then 'k'
    else if c == '\U{0130}' then 'i'
    else c
  }

  /** Two characters equal ignoring case, as `String.equalsIgnoreCase` and
      Kotlin's `ignoreCase = true` compare them. */
  predicate CharEqualsIgnoreCase(a: char, b: char) {
    a == b || ToUpper(a) == ToUpper(b) || ToLower(ToUpper(a)) == ToLower(ToUpper(b))
  }

  predicate EqualsIgnoreCase(a: string, b: string) {
    |a| == |b| && forall i :: 0 <= i < |a| ==> CharEqualsIgnoreCase(a[i], b[i])
  }

  /** `other.contains(pattern, ignoreCase = true)`. */
  predicate ContainsIgnoreCase(s: string, pattern: string) {
    if |s| < |pattern| then false
    else EqualsIgnoreCase(s[..|pattern|], pattern) || ContainsIgnoreCase(s[1..], pattern)
  }

  /** The UTF-16 code units of a string, as the JVM stores it: a character
      beyond U+FFFF becomes a surrogate pair. Kotlin's and Java's `length`
      count these units. */
  function Utf16Units(s: string): (u: seq<int>)
    ensures |u| >= |s|
    ensures forall i :: 0 <= i < |u| ==> 0 <= u[i] < 0x1_0000
  {
    if s == [] then []
    else
      var c := s[0] as int;
      var head := if c < 0x1_0000 then [c]
        else [0xD800 + (c - 0x1_0000) / 0x400, 0xDC00 + (c - 0x1_0000) % 0x400];
      head + Utf16Units(s[1..])
  }

  /** A string of characters up to U+FFFF has one unit per character. */
  lemma {:induction false} Utf16UnitsBmp(s: string)
    requires forall i :: 0 <= i < |s| ==> s[i] as int < 0x1_0000
    ensures |Utf16Units(s)| == |s|
  {
    if s != [] {
      Utf16UnitsBmp(s[1..]);
    }
  }

  /** Each character beyond U+FFFF adds one unit. */
  lemma {:induction false} Utf16UnitsConcat(a: string, b: string)
    ensures |Utf16Units(a + b)| == |Utf16Units(a)| + |Utf16Units(b)|
  {
    if a == [] {
      assert a + b == b;
    } else {
      assert (a + b)[0] == a[0];
      assert (a + b)[1..] == a[1..] + b;
      Utf16UnitsConcat(a[1..], b);
    }
  }

  /** Kotlin's `isBlank()`: empty or Kotlin whitespace only. */
  predicate IsBlank(s: string) {
    forall i :: 0 <= i < |s| ==> IsWhitespace(s[i])
  }

  /** Java's `String.isBlank()`: empty or Java whitespace only. A string of
      no-break spaces is blank to Kotlin but not to Java. */
  predicate IsJavaBlank(s: string) {
    forall i :: 0 <= i < |s| ==> IsJavaWhitespace(s[i])
  }

  /** Java's `s != null && !s.isBlank()`. */
  predicate IsPresent(s: Option<string>) {
    s.Some? && !IsJavaBlank(s.value)
  }

  predicate StartsWith(s: string, prefix: string) {
    |prefix| <= |s| && s[..|prefix|] == prefix
  }

  function TrimStart(s: string): (r: string)
    ensures |r| <= |s| && r == s[|s| - |r|..]
    ensures r == [] || !IsWhitespace(r[0])
    ensures forall i :: 0 <= i < |s| - |r| ==> IsWhitespace(s[i])
  {
    if |s| > 0 && IsWhitespace(s[0]) then TrimStart(s[1..]) else s
  }

  function TrimEnd(s: string): (r: string)
    ensures |r| <= |s| && r == s[..|r|]
    ensures r == [] || !IsWhitespace(r[|r| - 1])
    ensures forall i :: |r| <= i < |s| ==> IsWhitespace(s[i])
  {
    if |s| > 0 && IsWhitespace(s[|s| - 1]) then TrimEnd(s[..|s| - 1]) else s
  }

  /** `trim()`: drops leading and trailing whitespace. */
  function Trim(s: string): string {
    TrimEnd(TrimStart(s))
  }

  /** `replace(c.toString(), "")`: every occurrence of `c` removed. */
  function RemoveChar(s: string, c: char): (r: string)
    ensures |r| <= |s|
    ensures forall i :: 0 <= i < |r| ==> r[i] != c
  {
    if s == [] then [] else (if s[0] == c then [] else [s[0]]) + RemoveChar(s[1..], c)
  }

  /** `replace(pattern, "")`: the occurrences of a non-empty `pattern`
      found scanning left to right, without overlap, removed. */
  function DeleteAll(s: string, pattern: string): string
    requires |pattern| > 0
  {
    if |s| < |pattern| then s
    else if s[..|pattern|] == pattern then DeleteAll(s[|pattern|..], pattern)
    else [s[0]] + DeleteAll(s[1..], pattern)
  }

  /** The characters of `s` that are digits, in order. */
  function DigitsOf(s: string): (r: string)
    ensures |r| <= |s|
    ensures forall i :: 0 <= i < |r| ==> IsDigit(r[i])
  {
    if s == [] then [] else (if IsDigit(s[0]) then [s[0]] else []) + DigitsOf(s[1..])
  }

  predicate AllDigits(s: string) {
    forall i :: 0 <= i < |s| ==> IsDigit(s[i])
  }

  /** `take(n)`. */
  function Take(s: string, n: nat): (r: string)
    ensures |r| == if n <= |s| then n else |s|
    ensures r == s[..|r|]
  {
    if n <= |s| then s[..n] else s
  }

  function DigitChar(d: nat): char
    requires d < 10
  {
    ('0' as int + d) as char
  }

  /** The decimal form of a natural number. */
  function NatToString(n: nat): (r: string)
    ensures |r| > 0 && AllDigits(r)
  {
    if n < 10 then [DigitChar(n)] else NatToString(n / 10) + [DigitChar(n % 10)]
  }

  /** String interpolation of an `Int` or `Long`: decimal, with a minus sign
      when negative. */
  function IntToString(n: int): string {
    if n < 0 then "-" + NatToString(-n) else NatToString(n)
  }

  function DigitValue(c: char): nat
    requires IsDigit(c)
  {
    c as int - '0' as int
  }

  /** The value of a string of digits read in base 10. */
  function DigitsValue(s: string): nat
    requires AllDigits(s)
  {
    if s == [] then 0 else DigitsValue(s[..|s| - 1]) * 10 + DigitValue(s[|s| - 1])
  }

  const LONG_MIN: int := -0x8000_0000_0000_0000
  const LONG_MAX: int := 0x7FFF_FFFF_FFFF_FFFF

  /** Kotlin's `String.toLongOrNull()`: an optional sign followed by at
      least one digit, whose value fits a 64-bit `Long`; otherwise null. */
  function ToLongOrNull(s: string): (r: Option<int>)
    ensures r.Some? ==> LONG_MIN <= r.value <= LONG_MAX
  {
    var negative := |s| > 0 && s[0] == '-';
    var body := if |s| > 0 && (s[0] == '-' || s[0] == '+') then s[1..] else s;
    if body == [] || !AllDigits(body) then None
    else
      var v := if negative then -(DigitsValue(body) as int) else DigitsValue(body) as int;
      if LONG_MIN <= v <= LONG_MAX then Some(v) else None
  }

  // ----- lemmas about the string helpers -----

  lemma {:induction false} DigitsOfConcat(a: string, b: string)
    ensures DigitsOf(a + b) == DigitsOf(a) + DigitsOf(b)
  {
    if a == [] {
      assert a + b == b;
    } else {
      assert (a + b)[0] == a[0];
      assert (a + b)[1..] == a[1..] + b;
      DigitsOfConcat(a[1..], b);
    }
  }

  lemma {:induction false} DigitsOfAllDigits(s: string)
    requires AllDigits(s)
    ensures DigitsOf(s) == s
  {
    if s != [] {
      DigitsOfAllDigits(s[1..]);
    }
  }

  lemma {:induction false} RemoveCharConcat(a: string, b: string, c: char)
    ensures RemoveChar(a + b, c) == RemoveChar(a, c) + RemoveChar(b, c)
  {
    if a == [] {
      assert a + b == b;
    } else {
      assert (a + b)[0] == a[0];
      assert (a + b)[1..] == a[1..] + b;
      RemoveCharConcat(a[1..], b, c);
    }
  }

  lemma {:induction false} RemoveCharAbsent(s: string, c: char)
    requires c !in s
    ensures RemoveChar(s, c) == s
  {
    if s != [] {
      RemoveCharAbsent(s[1..], c);
    }
  }

  /** Deleting a pattern that starts with a character absent from `s`
      leaves `s` as it is. */
  lemma {:induction false} DeleteAllAbsent(s: string, pattern: string)
    requires |pattern| > 0 && pattern[0] !in s
    ensures DeleteAll(s, pattern) == s
    decreases |s|
  {
    if |s| >= |pattern| {
      assert s[0] != pattern[0];
      DeleteAllAbsent(s[1..], pattern);
    }
  }

  lemma DigitNotWhitespace(c: char)
    requires IsDigit(c)
    ensures !IsWhitespace(c)
  {
  }

  lemma TrimAllDigits(s: string)
    requires AllDigits(s)
    ensures Trim(s) == s
  {
    if s != [] {
      DigitNotWhitespace(s[0]);
      DigitNotWhitespace(s[|s| - 1]);
    }
    assert TrimStart(s) == s;
    assert TrimEnd(s) == s;
  }
}
