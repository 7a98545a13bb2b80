/**
 * Chilean RUT (Rol Único Tributario) handling and the aging-bucket labels of
 * server/utils/formatting.ts.
 *
 * A RUT is a body of digits followed by one verifier character. The check digit
 * weighs the body digits 2, 3, 4, 5, 6, 7, 2, 3, ... from the rightmost one.
 * As written, the code maps a remainder of 1 to the digit "1" where the usual
 * modulo-11 rule gives "K", and its "k" arm can never be taken.
 */
module Formatting {
  import opened JsText

  predicate IsRutChar(c: char) {
    IsDigit(c) || c == 'k' || c == 'K'
  }

  predicate IsRutText(s: string) {
    forall i :: 0 <= i < |s| ==> IsRutChar(s[i])
  }

  /** `rut.replace(/[^0-9kK]/g, '')`: keeps the digits and both cases of k, in order. */
  function StripRut(rut: string): (r: string)
    ensures IsRutText(r)
    ensures |r| <= |rut|
  {
    if rut == [] then []
    else (if IsRutChar(rut[0]) then [rut[0]] else []) + StripRut(rut[1..])
  }

  /** `cleanRUT`: the stripped text in lower case, so only digits and `k` remain. */
  function CleanRut(rut: string): (c: string)
    ensures forall i :: 0 <= i < |c| ==> IsDigit(c[i]) || c[i] == 'k'
  {
    ToLower(StripRut(rut))
  }

  lemma {:induction false} StripRutAppend(a: string, b: string)
    ensures StripRut(a + b) == StripRut(a) + StripRut(b)
  {
    if a == [] {
      assert a + b == b;
    } else {
      var head: string := if IsRutChar(a[0]) then [a[0]] else [];
      assert (a + b)[0] == a[0];
      assert (a + b)[1..] == a[1..] + b;
      calc {
        StripRut(a + b);
        head + StripRut(a[1..] + b);
        { StripRutAppend(a[1..], b); }
        head + (StripRut(a[1..]) + StripRut(b));
        (head + StripRut(a[1..])) + StripRut(b);
        StripRut(a) + StripRut(b);
      }
    }
  }

  lemma {:induction false} StripRutOfRutText(s: string)
    requires IsRutText(s)
    ensures StripRut(s) == s
  {
    if s != [] {
      StripRutOfRutText(s[1..]);
    }
  }

  /** Cleaning an already clean RUT changes nothing. */
  lemma CleanRutIdempotent(rut: string)
    ensures CleanRut(CleanRut(rut)) == CleanRut(rut)
  {
    var c := CleanRut(rut);
    StripRutOfRutText(c);
  }

  // ---------------------------------------------------------------------------
  // formatRUT

  /**
   * The replacement `body.replace(/\B(?=(\d{3})+(?!\d))/g, '.')`. Every character of a
   * RUT body is a word character, so `\B` holds at each position except the first
   * (`atStart`); the look-ahead holds where the run of digits starting there has a
   * positive length divisible by three.
   */
  function GroupDigits(body: string, atStart: bool): string {
    if body == [] then []
    else DotBefore(body, atStart) + [body[0]] + GroupDigits(body[1..], false)
  }

  /** The separator `GroupDigits` puts before the first character of `body`. */
  function DotBefore(body: string, atStart: bool): string {
    var run := |DigitPrefix(body)|;
    if !atStart && run > 0 && run % 3 == 0 then "." else ""
  }

  /**
   * `formatRUT`: body with thousands separators, a dash, then the verifier as typed. Text
   * with fewer than two RUT characters is returned unchanged.
   */
  function FormatRut(rut: string): (r: string)
    ensures |StripRut(rut)| < 2 ==> r == rut
    ensures |StripRut(rut)| >= 2 ==>
      |r| >= 2 && r[|r| - 2] == '-' && r[|r| - 1] == StripRut(rut)[|StripRut(rut)| - 1]
  {
    var stripped := StripRut(rut);
    if |stripped| < 2 then rut
    else GroupDigits(stripped[..|stripped| - 1], true) + "-" + stripped[|stripped| - 1..]
  }

  /** Reference grouping: a dot before every block of three digits counted from the right. */
  function ThousandsGrouped(digits: string): string {
    if |digits| <= 3 then digits
    else ThousandsGrouped(digits[..|digits| - 3]) + "." + digits[|digits| - 3..]
  }

  lemma {:induction false} GroupDigitsAppend(s: string, t: string, atStart: bool)
    requires AllDigits(s) && AllDigits(t) && |t| % 3 == 0
    ensures GroupDigits(s + t, atStart) == GroupDigits(s, atStart) + GroupDigits(t, atStart && s == [])
  {
    var st := s + t;
    if s == [] {
      assert st == t;
    } else {
      AllDigitsAppend(s, t);
      DigitPrefixOfDigits(st);
      DigitPrefixOfDigits(s);
      ThreeBlocks(|s|, |t|);
      assert DotBefore(st, atStart) == DotBefore(s, atStart);
      assert st[0] == s[0] && st[1..] == s[1..] + t;
      GroupDigitsAppend(s[1..], t, false);
      calc {
        GroupDigits(st, atStart);
        DotBefore(s, atStart) + [s[0]] + GroupDigits(s[1..] + t, false);
        DotBefore(s, atStart) + [s[0]] + (GroupDigits(s[1..], false) + GroupDigits(t, false));
        (DotBefore(s, atStart) + [s[0]] + GroupDigits(s[1..], false)) + GroupDigits(t, false);
        GroupDigits(s, atStart) + GroupDigits(t, atStart && s == []);
      }
    }
  }

  lemma ThreeBlocks(a: nat, b: nat)
    requires b % 3 == 0
    ensures (a + b) % 3 == a % 3
  {
    var k := b / 3;
    assert b == 3 * k;
  }

  lemma {:induction false} GroupDigitsShort(s: string, atStart: bool)
    requires AllDigits(s) && |s| < 3
    ensures GroupDigits(s, atStart) == s
  {
    if s != [] {
      DigitPrefixOfDigits(s);
      GroupDigitsShort(s[1..], false);
    }
  }

  /** A block of three digits after the first position gets a dot in front of it. */
  lemma GroupDigitsOfBlock(q: string)
    requires AllDigits(q) && |q| == 3
    ensures GroupDigits(q, false) == "." + q
  {
    DigitPrefixOfDigits(q);
    assert DotBefore(q, false) == ".";
    GroupDigitsShort(q[1..], false);
    assert [q[0]] + q[1..] == q;
  }

  /** Up to three digits get no separator at all. */
  lemma GroupDigitsOfFewDigits(digits: string)
    requires AllDigits(digits) && 1 <= |digits| <= 3
    ensures GroupDigits(digits, true) == digits
  {
    DigitPrefixOfDigits(digits);
    assert DotBefore(digits, true) == "";
    GroupDigitsShort(digits[1..], false);
    assert [digits[0]] + digits[1..] == digits;
  }

  /** On a body of digits the regular expression inserts the usual thousands separators. */
  lemma {:induction false} GroupDigitsIsThousands(digits: string)
    requires AllDigits(digits)
    ensures GroupDigits(digits, true) == ThousandsGrouped(digits)
  {
    if digits == [] {
    } else if |digits| <= 3 {
      GroupDigitsOfFewDigits(digits);
    } else {
      var p, q := digits[..|digits| - 3], digits[|digits| - 3..];
      assert AllDigits(p) && AllDigits(q) by {
        assert forall i :: 0 <= i < |p| ==> p[i] == digits[i];
        assert forall i :: 0 <= i < |q| ==> q[i] == digits[|digits| - 3 + i];
      }
      assert digits == p + q;
      GroupDigitsAppend(p, q, true);
      GroupDigitsIsThousands(p);
      GroupDigitsOfBlock(q);
      assert ThousandsGrouped(digits) == ThousandsGrouped(p) + "." + q;
      assert GroupDigits(digits, true) == ThousandsGrouped(p) + ("." + q);
    }
  }

  lemma {:induction false} StripRutOfGroupDigits(body: string, atStart: bool)
    requires IsRutText(body)
    ensures StripRut(GroupDigits(body, atStart)) == body
  {
    if body != [] {
      var dot := DotBefore(body, atStart);
      assert GroupDigits(body, atStart) == dot + ([body[0]] + GroupDigits(body[1..], false));
      StripRutAppend(dot, [body[0]] + GroupDigits(body[1..], false));
      StripRutAppend([body[0]], GroupDigits(body[1..], false));
      StripRutOfGroupDigits(body[1..], false);
      assert StripRut(dot) == [];
      assert StripRut([body[0]]) == [body[0]];
    }
  }

  /** Cleaning a formatted RUT gives back the cleaned input. */
  lemma FormatRutThenClean(rut: string)
    ensures CleanRut(FormatRut(rut)) == CleanRut(rut)
  {
    var stripped := StripRut(rut);
    if |stripped| >= 2 {
      var body, verifier := stripped[..|stripped| - 1], stripped[|stripped| - 1..];
      assert stripped == body + verifier;
      StripRutAppend(GroupDigits(body, true) + "-", verifier);
      StripRutAppend(GroupDigits(body, true), "-");
      StripRutOfGroupDigits(body, true);
      StripRutOfRutText(verifier);
      assert StripRut("-") == [];
      assert StripRut(FormatRut(rut)) == stripped;
    }
  }

  /** A RUT whose body is all digits is printed with the usual thousands separators. */
  lemma FormatRutDigitBody(rut: string)
    requires |StripRut(rut)| >= 2
    requires AllDigits(StripRut(rut)[..|StripRut(rut)| - 1])
    ensures var s := StripRut(rut);
      FormatRut(rut) == ThousandsGrouped(s[..|s| - 1]) + "-" + [s[|s| - 1]]
  {
    var s := StripRut(rut);
    GroupDigitsIsThousands(s[..|s| - 1]);
  }

  // ---------------------------------------------------------------------------
  // validateRUT

  /** The multiplier for the body digit `k` places from the right: 2, 3, 4, 5, 6, 7, 2, ... */
  function Weight(k: nat): nat {
    2 + k % 6
  }

  /** The weighted digit sum of a body of digits. */
  function CheckSum(body: string): nat
    requires AllDigits(body)
  {
    if body == [] then 0
    else DigitValue(body[0]) * Weight(|body| - 1) + CheckSum(body[1..])
  }

  /**
   * `calculatedVerifier` for a finite sum. The middle arm would need `remainder == 1`,
   * which the first arm already takes, so the verifier is always one decimal digit.
   */
  function ComputedVerifier(sum: nat): (v: string)
    ensures |v| == 1 && IsDigit(v[0])
  {
    var remainder := sum % 11;
    if remainder < 2 then NatToString(remainder)
    else if 11 - remainder == 10 then "k"
    else NatToString(11 - remainder)
  }

  /** The usual modulo-11 rule: 11 - r, where 11 reads as 0 and 10 as K. */
  function StandardVerifier(sum: nat): string {
    var v := 11 - sum % 11;
    if v == 11 then "0" else if v == 10 then "k" else NatToString(v)
  }

  /** The code agrees with the usual rule except when the remainder is 1. */
  lemma ComputedVersusStandard(sum: nat)
    ensures ComputedVerifier(sum) == StandardVerifier(sum) <==> sum % 11 != 1
    ensures sum % 11 == 1 ==> ComputedVerifier(sum) == "1" && StandardVerifier(sum) == "k"
  {
    var r := sum % 11;
    if r == 0 {
      assert NatToString(0) == "0";
    } else if r == 1 {
      assert NatToString(1) == "1";
    }
  }

  /** The body of a cleaned RUT (all but the last character). */
  function Body(c: string): string
    requires |c| >= 1
  {
    c[..|c| - 1]
  }

  /**
   * `validateRUT(rut)`: at least two cleaned characters, a body of digits (any other
   * character makes the sum `NaN`), and a verifier equal to the computed one.
   */
  predicate IsValidRut(rut: string) {
    var c := CleanRut(rut);
    && |c| >= 2
    && AllDigits(Body(c))
    && ComputedVerifier(CheckSum(Body(c))) == c[|c| - 1..]
  }

  method ValidateRut(rut: string) returns (valid: bool)
    ensures valid == IsValidRut(rut)
    ensures |CleanRut(rut)| < 2 ==> !valid
  {
    var cleaned := CleanRut(rut);
    if |cleaned| < 2 {
      return false;
    }
    var body := cleaned[..|cleaned| - 1];
    var verifier := cleaned[|cleaned| - 1..];
    var sum := 0;
    var sumIsNaN := false;
    var multiplier := 2;
    var i := |body|;
    while i > 0
      invariant 0 <= i <= |body|
      invariant multiplier == Weight(|body| - i)
      invariant sumIsNaN == !AllDigits(body[i..])
      invariant !sumIsNaN ==> sum == CheckSum(body[i..])
    {
      i := i - 1;
      assert body[i..][1..] == body[i + 1..];
      if IsDigit(body[i]) && !sumIsNaN {
        sum := sum + DigitValue(body[i]) * multiplier;
      } else {
        sumIsNaN := true;
      }
      multiplier := if multiplier == 7 then 2 else multiplier + 1;
    }
    var calculatedVerifier := if sumIsNaN then "NaN" else ComputedVerifier(sum);
    valid := calculatedVerifier == verifier;
  }

  /** A valid RUT ends in a digit: every RUT whose verifier is K is rejected. */
  lemma ValidRutEndsInDigit(rut: string)
    requires IsValidRut(rut)
    ensures var c := CleanRut(rut); IsDigit(c[|c| - 1]) && c[|c| - 1] != 'k'
  {
    var c := CleanRut(rut);
    assert [c[|c| - 1]] == ComputedVerifier(CheckSum(Body(c)));
  }

  /** A `k` inside the body turns the sum into `NaN`, and validation fails. */
  lemma NonDigitBodyRejected(rut: string, i: nat)
    requires var c := CleanRut(rut); |c| >= 2 && i < |c| - 1 && c[i] == 'k'
    ensures !IsValidRut(rut)
  {
    var c := CleanRut(rut);
    assert Body(c)[i] == 'k';
  }

  // ---------------------------------------------------------------------------
  // Aging buckets

  datatype AgingBucket = Current | Days1To30 | Days31To60 | Days61To90 | Over90 {
    /** Position of the bucket from the least to the most overdue. */
    function Rank(): nat {
      match this
      case Current => 0
      case Days1To30 => 1
      case Days31To60 => 2
      case Days61To90 => 3
      case Over90 => 4
    }
  }

  /** The bucket of a number of days overdue; days <= 0 are current. */
  function BucketOf(days: int): (b: AgingBucket)
    ensures b.Rank() == (if days <= 0 then 0 else if days > 90 then 4 else (days - 1) / 30 + 1)
  {
    if days <= 0 then Current
    else if days <= 30 then Days1To30
    else if days <= 60 then Days31To60
    else if days <= 90 then Days61To90
    else Over90
  }

  /**
   * The captions and colours exactly as formatting.ts spells them: its text was saved
   * after a second UTF-8 decoding, so "día" reads as "d\U{C3}\U{AD}a" and each coloured
   * circle as four Latin-1 and Windows-1252 characters, which is what the program returns.
   */
  function BucketLabel(b: AgingBucket): string {
    match b
    case Current => "Al d\U{C3}\U{AD}a"
    case Days1To30 => "1-30 d\U{C3}\U{AD}as"
    case Days31To60 => "31-60 d\U{C3}\U{AD}as"
    case Days61To90 => "61-90 d\U{C3}\U{AD}as"
    case Over90 => "M\U{C3}\U{A1}s de 90 d\U{C3}\U{AD}as"
  }

  function BucketColor(b: AgingBucket): string {
    match b
    case Current => "\U{F0}\U{178}\U{178}\U{A2}"
    case Days1To30 => "\U{F0}\U{178}\U{178}\U{A1}"
    case Days31To60 => "\U{F0}\U{178}\U{178}\U{A0}"
    case Days61To90 => "\U{F0}\U{178}\U{201D}\U{B4}"
    case Over90 => "\U{E2}\U{161}\U{AB}"
  }

  /** `formatAgingBucket`. */
  function FormatAgingBucket(daysOverdue: int): (caption: string)
    ensures caption == BucketLabel(BucketOf(daysOverdue))
  {
    if daysOverdue <= 0 then "Al d\U{C3}\U{AD}a"
    else if daysOverdue <= 30 then "1-30 d\U{C3}\U{AD}as"
    else if daysOverdue <= 60 then "31-60 d\U{C3}\U{AD}as"
    else if daysOverdue <= 90 then "61-90 d\U{C3}\U{AD}as"
    else "M\U{C3}\U{A1}s de 90 d\U{C3}\U{AD}as"
  }

  /** `getAgingColor`. */
  function GetAgingColor(daysOverdue: int): (color: string)
    ensures color == BucketColor(BucketOf(daysOverdue))
  {
    if daysOverdue <= 0 then "\U{F0}\U{178}\U{178}\U{A2}"
    else if daysOverdue <= 30 then "\U{F0}\U{178}\U{178}\U{A1}"
    else if daysOverdue <= 60 then "\U{F0}\U{178}\U{178}\U{A0}"
    else if daysOverdue <= 90 then "\U{F0}\U{178}\U{201D}\U{B4}"
    else "\U{E2}\U{161}\U{AB}"
  }

  /** Label and colour split the days on the same thresholds. */
  lemma LabelAndColorAgree(d1: int, d2: int)
    ensures FormatAgingBucket(d1) == FormatAgingBucket(d2) <==> BucketOf(d1) == BucketOf(d2)
    ensures GetAgingColor(d1) == GetAgingColor(d2) <==> BucketOf(d1) == BucketOf(d2)
  {
  }

  /** More days overdue never lands in an earlier bucket. */
  lemma BucketMonotone(d1: int, d2: int)
    requires d1 <= d2
    ensures BucketOf(d1).Rank() <= BucketOf(d2).Rank()
  {
  }

  // ---------------------------------------------------------------------------
  // truncateText

  /**
   * `truncateText`: text no longer than `maxLength` is returned as is; otherwise the
   * first `maxLength - 3` units (none if that is negative) followed by "...". Lengths and
   * `substring` count UTF-16 code units, so the text is its code units, and a cut may
   * fall between the two halves of a surrogate pair.
   */
  function TruncateText(text: seq<CodeUnit>, maxLength: int): (r: seq<CodeUnit>)
    ensures |text| <= maxLength ==> r == text
    ensures |text| > maxLength ==>
      && |r| == (if maxLength >= 3 then maxLength else 3)
      && r[..|r| - 3] <= text
      && r[|r| - 3..] == Utf16("...")
  {
    if |text| <= maxLength then text
    else text[..if maxLength - 3 < 0 then 0 else maxLength - 3] + Utf16("...")
  }

  /** Two emoji are four code units: with a limit of 3 only the ellipsis is left. */
  lemma TruncateCountsCodeUnits()
    ensures |Utf16("\U{1F600}\U{1F600}")| == 4
    ensures TruncateText(Utf16("\U{1F600}\U{1F600}"), 3) == Utf16("...")
  {
    var emoji := "\U{1F600}\U{1F600}";
    assert emoji[1..] == "\U{1F600}" && emoji[1..][1..] == [];
    assert |Utf16(emoji)| == |Utf16Char('\U{1F600}')| + |Utf16Char('\U{1F600}')|;
  }
}
