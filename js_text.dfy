/**
 * The few JavaScript string and number primitives the modelled code relies on:
 * ASCII digits, `toLowerCase`, `trim`, `includes`, `split`, `Number.prototype.toString`
 * on whole numbers and `parseInt` on decimal text.
 */
module JsText {
  import opened Wrappers

  predicate IsDigit(c: char) {
    '0' <= c <= '9'
  }

  predicate AllDigits(s: string) {
    forall i :: 0 <= i < |s| ==> IsDigit(s[i])
  }

  function DigitValue(c: char): (d: nat)
    requires IsDigit(c)
    ensures d < 10
  {
    c as int - '0' as int
  }

  function DigitChar(d: nat): (c: char)
    requires d < 10
    ensures IsDigit(c) && DigitValue(c) == d
  {
    ('0' as int + d) as char
  }

  /** `toLowerCase` on one character; only the ASCII letters are folded here. */
  function LowerChar(c: char): char {
    if 'A' <= c <= 'Z' then (c as int + 32) as char else c
  }

  function ToLower(s: string): string {
    seq(|s|, i requires 0 <= i < |s| => LowerChar(s[i]))
  }

  /** `a.toLowerCase() === b.toLowerCase()`, compared character by character. */
  predicate SameIgnoringCase(a: string, b: string) {
    if a == [] || b == [] then a == b
    else LowerChar(a[0]) == LowerChar(b[0]) && SameIgnoringCase(a[1..], b[1..])
  }

  lemma {:induction false} SameIgnoringCaseIsLowerEquality(a: string, b: string)
    ensures SameIgnoringCase(a, b) <==> ToLower(a) == ToLower(b)
  {
    if a != [] && b != [] {
      SameIgnoringCaseIsLowerEquality(a[1..], b[1..]);
      assert ToLower(a)[1..] == ToLower(a[1..]);
      assert ToLower(b)[1..] == ToLower(b[1..]);
      assert ToLower(a) == [LowerChar(a[0])] + ToLower(a[1..]);
      assert ToLower(b) == [LowerChar(b[0])] + ToLower(b[1..]);
    }
  }

  /** The characters `String.prototype.trim` removes (ECMAScript WhiteSpace and LineTerminator). */
  predicate IsJsWhitespace(c: char) {
    || c == '\t' || c == '\n' || c == '\U{B}' || c == '\U{C}' || c == '\r' || c == ' '
    || c == '\U{A0}' || c == '\U{1680}' || '\U{2000}' <= c <= '\U{200A}'
    || c == '\U{2028}' || c == '\U{2029}' || c == '\U{202F}' || c == '\U{205F}'
    || c == '\U{3000}' || c == '\U{FEFF}'
  }

  predicate AllWhitespace(s: string) {
    forall i :: 0 <= i < |s| ==> IsJsWhitespace(s[i])
  }

  function TrimStart(s: string): (r: string)
    ensures r == [] || !IsJsWhitespace(r[0])
    ensures |r| <= |s| && r == s[|s| - |r|..]
    ensures AllWhitespace(s[..|s| - |r|])
  {
    if s != [] && IsJsWhitespace(s[0]) then TrimStart(s[1..]) else s
  }

  function TrimEnd(s: string): (r: string)
    ensures r == [] || !IsJsWhitespace(r[|r| - 1])
    ensures r <= s
    ensures AllWhitespace(s[|r|..])
  {
    if s != [] && IsJsWhitespace(s[|s| - 1]) then TrimEnd(s[..|s| - 1]) else s
  }

  /** `String.prototype.trim`. */
  function Trim(s: string): string {
    TrimEnd(TrimStart(s))
  }

  /** Trimming leaves nothing exactly when every character is white space. */
  lemma TrimEmptyIffAllWhitespace(s: string)
    ensures Trim(s) == [] <==> AllWhitespace(s)
  {
    var t := TrimStart(s);
    assert t != [] ==> t[0] == s[|s| - |t|];
    assert s == s[..|s| - |t|] + t;
    assert Trim(s) == [] ==> t == t[|Trim(s)|..];
  }

  /** One UTF-16 code unit: what JavaScript's `length` and `substring` count. */
  type CodeUnit = u: int | 0 <= u < 0x1_0000

  predicate InBasicPlane(c: char) {
    c as int < 0x1_0000
  }

  /** A character's UTF-16 encoding: one unit in the Basic Multilingual Plane, a surrogate pair above it. */
  function Utf16Char(c: char): (units: seq<CodeUnit>)
    ensures |units| == if InBasicPlane(c) then 1 else 2
    ensures InBasicPlane(c) ==> units == [c as int]
    ensures !InBasicPlane(c) ==> 0xD800 <= units[0] < 0xDC00 <= units[1] < 0xE000
  {
    var v := c as int;
    if v < 0x1_0000 then [v]
    else [0xD800 + (v - 0x1_0000) / 0x400, 0xDC00 + (v - 0x1_0000) % 0x400]
  }

  /** The JavaScript string holding `s`: its UTF-16 code units. */
  function Utf16(s: string): (units: seq<CodeUnit>)
    ensures |units| >= |s|
    ensures |units| == |s| <==> forall i :: 0 <= i < |s| ==> InBasicPlane(s[i])
  {
    if s == [] then []
    else
      var rest := Utf16(s[1..]);
      assert forall i :: 1 <= i < |s| ==> s[i] == s[1..][i - 1];
      Utf16Char(s[0]) + rest
  }

  /** `needle` occurs in `hay` starting at index `i`. */
  predicate OccursAt(hay: string, needle: string, i: int) {
    0 <= i <= |hay| - |needle| && hay[i..i + |needle|] == needle
  }

  /** `hay.includes(needle)`. */
  function Includes(hay: string, needle: string): (b: bool)
    ensures b <==> exists i :: OccursAt(hay, needle, i)
    decreases |hay|
  {
    if needle <= hay then
      assert OccursAt(hay, needle, 0);
      true
    else if hay == [] then
      assert forall i :: !OccursAt(hay, needle, i);
      false
    else
      var tail := hay[1..];
      assert forall i :: OccursAt(hay, needle, i) <==> (i == 0 && needle <= hay) || OccursAt(tail, needle, i - 1) by {
        forall i ensures OccursAt(hay, needle, i) <==> (i == 0 && needle <= hay) || OccursAt(tail, needle, i - 1) {
          if 1 <= i <= |hay| - |needle| {
            assert hay[i..i + |needle|] == tail[i - 1..i - 1 + |needle|];
          }
        }
      }
      var r := Includes(tail, needle);
      assert r ==> OccursAt(hay, needle, ExistingIndex(tail, needle) + 1);
      r
  }

  /** Some index at which `needle` occurs in `hay`, given that there is one. */
  ghost function ExistingIndex(hay: string, needle: string): (i: int)
    requires exists i :: OccursAt(hay, needle, i)
    ensures OccursAt(hay, needle, i)
  {
    var i :| OccursAt(hay, needle, i); i
  }

  /** Inverse of `Split`: the parts glued back together with the separator. */
  function Join(parts: seq<string>, sep: char): string
    requires |parts| >= 1
  {
    if |parts| == 1 then parts[0] else parts[0] + [sep] + Join(parts[1..], sep)
  }

  /** `s.split(sep)` for a one-character separator. */
  function Split(s: string, sep: char): (parts: seq<string>)
    ensures |parts| >= 1
    ensures forall i :: 0 <= i < |parts| ==> sep !in parts[i]
    ensures Join(parts, sep) == s
  {
    if s == [] then
      [[]]
    else
      var rest := Split(s[1..], sep);
      if s[0] == sep then
        assert Join([[]] + rest, sep) == [sep] + Join(rest, sep);
        [[]] + rest
      else
        var parts := [[s[0]] + rest[0]] + rest[1..];
        assert parts[1..] == rest[1..];
        assert Join(parts, sep) == [s[0]] + Join(rest, sep);
        parts
  }

  /** A text without the separator splits into itself alone. */
  lemma {:induction false} SplitWithoutSeparator(s: string, sep: char)
    requires sep !in s
    ensures Split(s, sep) == [s]
  {
    if s != [] {
      SplitWithoutSeparator(s[1..], sep);
      assert [s[0]] + s[1..] == s;
    }
  }

  /** Splitting `a + sep + b`, where `a` has no separator, yields `a` and then the parts of `b`. */
  lemma {:induction false} SplitAtFirstSeparator(a: string, b: string, sep: char)
    requires sep !in a
    ensures Split(a + [sep] + b, sep) == [a] + Split(b, sep)
  {
    if a == [] {
      assert [] + [sep] + b == [sep] + b;
      assert ([sep] + b)[1..] == b;
    } else {
      SplitAtFirstSeparator(a[1..], b, sep);
      assert (a + [sep] + b)[1..] == a[1..] + [sep] + b;
      assert [a[0]] + a[1..] == a;
    }
  }

  /** `n.toString()` for a whole number. */
  function NatToString(n: nat): (s: string)
    ensures |s| >= 1 && AllDigits(s)
    ensures n < 10 ==> |s| == 1
  {
    if n < 10 then [DigitChar(n)] else NatToString(n / 10) + [DigitChar(n % 10)]
  }

  /** The number a string of decimal digits denotes. */
  function DecimalValue(ds: string): nat
    requires AllDigits(ds)
  {
    if ds == [] then 0 else DecimalValue(ds[..|ds| - 1]) * 10 + DigitValue(ds[|ds| - 1])
  }

  lemma AllDigitsAppend(s: string, t: string)
    requires AllDigits(s) && AllDigits(t)
    ensures AllDigits(s + t)
  {
    forall i | 0 <= i < |s + t| ensures IsDigit((s + t)[i]) {
      if i >= |s| { assert (s + t)[i] == t[i - |s|]; }
    }
  }

  /** The longest prefix made of decimal digits. */
  function DigitPrefix(s: string): (ds: string)
    ensures AllDigits(ds) && ds <= s
    ensures |ds| == |s| || !IsDigit(s[|ds|])
  {
    if s != [] && IsDigit(s[0]) then [s[0]] + DigitPrefix(s[1..]) else []
  }

  /**
   * `parseInt(s)`: leading white space, an optional sign, then the longest run of
   * decimal digits; no digit at all gives `NaN` (None).
   */
  function ParseInt(s: string): Option<int> {
    SignedDigits(TrimStart(s))
  }

  /** The number `parseInt` reads from text that starts after the white space. */
  function SignedDigits(t: string): Option<int> {
    var negative := t != [] && t[0] == '-';
    var u := if t != [] && (t[0] == '-' || t[0] == '+') then t[1..] else t;
    var ds := DigitPrefix(u);
    if ds == [] then None
    else if negative then Some(0 - DecimalValue(ds) as int)
    else Some(DecimalValue(ds))
  }

  lemma TrimStartOfNonBlank(s: string)
    requires s != [] && !IsJsWhitespace(s[0])
    ensures TrimStart(s) == s
  {
  }

  /** `parseInt(s) || 0`: a failed parse (and zero) reads as 0. */
  function ParseIntOrZero(s: string): int {
    ParseInt(s).GetOr(0)
  }

  lemma {:induction false} DecimalValueOfNatToString(n: nat)
    ensures DecimalValue(NatToString(n)) == n
  {
    if n >= 10 {
      var s := NatToString(n);
      DecimalValueOfNatToString(n / 10);
      assert s[..|s| - 1] == NatToString(n / 10);
    }
  }

  lemma {:induction false} DigitPrefixOfDigits(s: string)
    requires AllDigits(s)
    ensures DigitPrefix(s) == s
  {
    if s != [] {
      DigitPrefixOfDigits(s[1..]);
    }
  }

  /** Round trip: `parseInt(String(n)) === n` for every whole number. */
  lemma ParseIntOfNatToString(n: nat)
    ensures ParseInt(NatToString(n)) == Some(n)
  {
    var s := NatToString(n);
    DecimalValueOfNatToString(n);
    ParseIntOfDigitsThen(s, [], n);
    assert s + [] == s;
  }

  /** `n.toString()` for any integer. */
  function IntToString(n: int): string {
    if n < 0 then ['-'] + NatToString(-n) else NatToString(n)
  }

  /** The text of an integer holds only digits and a leading minus sign. */
  lemma IntToStringOnlyDigitsAndMinus(n: int, c: char)
    requires c != '-' && !IsDigit(c)
    ensures c !in IntToString(n)
  {
    var m: nat := if n < 0 then -n else n;
    var digits := NatToString(m);
    assert c !in digits by {
      assert AllDigits(digits);
    }
    if n < 0 {
      assert IntToString(n) == ['-'] + digits;
    }
  }

  lemma {:induction false} DigitPrefixStopsAtNonDigit(ds: string, rest: string)
    requires AllDigits(ds) && (rest == [] || !IsDigit(rest[0]))
    ensures DigitPrefix(ds + rest) == ds
  {
    if ds != [] {
      DigitPrefixStopsAtNonDigit(ds[1..], rest);
      assert (ds + rest)[1..] == ds[1..] + rest;
    }
  }

  /** `parseInt` reads the leading digits of `m` and ignores what follows them. */
  lemma ParseIntOfDigitsThen(ds: string, rest: string, m: nat)
    requires AllDigits(ds) && ds != [] && DecimalValue(ds) == m
    requires rest == [] || !IsDigit(rest[0])
    ensures ParseInt(ds + rest) == Some(m)
  {
    var s := ds + rest;
    assert s[0] == ds[0] && IsDigit(s[0]);
    TrimStartOfNonBlank(s);
    DigitPrefixStopsAtNonDigit(ds, rest);
    assert SignedDigits(s) == Some(m);
  }

  /** `parseInt` of a minus sign followed by the digits of `m`. */
  lemma ParseIntOfMinusDigits(ds: string, m: nat)
    requires AllDigits(ds) && ds != [] && DecimalValue(ds) == m
    ensures ParseInt(['-'] + ds) == Some(0 - m)
  {
    var s := ['-'] + ds;
    TrimStartOfNonBlank(s);
    assert s[1..] == ds;
    DigitPrefixOfDigits(ds);
    assert SignedDigits(s) == Some(0 - m);
  }

  lemma ParseIntOfNegative(m: nat)
    ensures ParseInt(['-'] + NatToString(m)) == Some(0 - m)
  {
    DecimalValueOfNatToString(m);
    ParseIntOfMinusDigits(NatToString(m), m);
  }

  /** Round trip: `parseInt(String(n)) === n` for every integer. */
  lemma ParseIntOfIntToString(n: int)
    ensures ParseInt(IntToString(n)) == Some(n)
  {
    if n < 0 {
      var m: nat := -n;
      assert IntToString(n) == ['-'] + NatToString(m);
      ParseIntOfNegative(m);
    } else {
      assert IntToString(n) == NatToString(n);
      ParseIntOfNatToString(n);
    }
  }

  /** A text with no digit after the optional sign is `NaN`, which `|| 0` turns into 0. */
  lemma ParseIntNoDigits(s: string)
    requires var t := TrimStart(s); t == [] || (!IsDigit(t[0]) && (t[0] in "+-" ==> |t| == 1 || !IsDigit(t[1])))
    ensures ParseInt(s) == None && ParseIntOrZero(s) == 0
  {
  }
}
