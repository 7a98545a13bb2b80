/**
 * The dashboard helpers of client/src/lib/utils.ts: the relative-time shown of a past
 * instant and the two colour lookups. Instants are milliseconds since the epoch.
 */
module ClientUtils {
  import opened Wrappers
  import opened JsText

  /** `Math.floor((now - past) / 1000)`: whole seconds elapsed, rounded down (also when negative). */
  function ElapsedSeconds(nowMs: int, pastMs: int): (seconds: int)
    ensures seconds * 1000 <= nowMs - pastMs < seconds * 1000 + 1000
  {
    (nowMs - pastMs) / 1000
  }

  /** The band an elapsed time falls in: a count of whole units, or older than a week. */
  datatype Span = JustNow | Counted(count: nat, word: string) | OnDate

  function Classify(seconds: int): (span: Span)
    ensures seconds < 60 <==> span == JustNow
    ensures 60 <= seconds < 3600 <==> span.Counted? && span.word == "minute"
    ensures 3600 <= seconds < 86400 <==> span.Counted? && span.word == "hour"
    ensures 86400 <= seconds < 604800 <==> span.Counted? && span.word == "day"
    ensures seconds >= 604800 <==> span == OnDate
    ensures span.Counted? && span.word == "minute" ==> 1 <= span.count <= 59 && span.count * 60 <= seconds < span.count * 60 + 60
    ensures span.Counted? && span.word == "hour" ==> 1 <= span.count <= 23 && span.count * 3600 <= seconds < span.count * 3600 + 3600
    ensures span.Counted? && span.word == "day" ==> 1 <= span.count <= 6 && span.count * 86400 <= seconds < span.count * 86400 + 86400
  {
    if seconds < 60 then JustNow
    else if seconds < 3600 then Counted(seconds / 60, "minute")
    else if seconds < 86400 then Counted(seconds / 3600, "hour")
    else if seconds < 604800 then Counted(seconds / 86400, "day")
    else OnDate
  }

  /** The label shown for a band; older than a week is the locale date, which is not modelled (None). */
  function Label(span: Span): Option<string> {
    match span
    case JustNow => Some("just now")
    case Counted(n, word) => Some(NatToString(n) + " " + word + (if n > 1 then "s" else "") + " ago")
    case OnDate => None
  }

  /**
   * `formatTimeAgo(past)` at the instant `nowMs`. Anything less than a minute ago,
   * including an instant in the future, is "just now"; a week or more is the locale date;
   * everything between is a count of units followed by " ago".
   */
  function FormatTimeAgo(nowMs: int, pastMs: int): (shown: Option<string>)
    ensures nowMs - pastMs < 60000 <==> shown == Some("just now")
    ensures nowMs - pastMs >= 604800000 <==> shown.None?
    ensures 60000 <= nowMs - pastMs < 604800000 ==>
      var text := shown.value; |text| > 4 && text[|text| - 4..] == " ago"
  {
    var span := Classify(ElapsedSeconds(nowMs, pastMs));
    var shown := Label(span);
    assert span.Counted? ==>
      shown.value == (NatToString(span.count) + " " + span.word + (if span.count > 1 then "s" else "")) + " ago";
    shown
  }

  /** The unit word takes a plural `s` exactly when the count is above one. */
  lemma PluralExactlyAboveOne(n: nat, word: string)
    requires word != [] && word[|word| - 1] != 's'
    ensures var shown := Label(Counted(n, word)).value;
      |shown| >= 5 && (shown[|shown| - 5..] == "s ago" <==> n > 1)
  {
    var shown := Label(Counted(n, word)).value;
    var stem := NatToString(n) + " " + word;
    if n > 1 {
      assert shown == stem + "s ago";
      assert shown[|shown| - 5..] == "s ago";
    } else {
      assert shown == stem + " ago";
      assert shown[|shown| - 5] == stem[|stem| - 1] == word[|word| - 1];
    }
  }

  /** The label starts with its count: `parseInt` reads the count back from it. */
  lemma CountReadsBack(n: nat, word: string)
    ensures ParseInt(Label(Counted(n, word)).value) == Some(n)
  {
    var ds := NatToString(n);
    var rest := " " + word + (if n > 1 then "s" else "") + " ago";
    assert Label(Counted(n, word)).value == ds + rest;
    DecimalValueOfNatToString(n);
    ParseIntOfDigitsThen(ds, rest, n);
  }

  // Colour lookups: a fixed table with the gray pair for every other key.

  const Gray := "bg-gray-100 text-gray-800"

  function CategoryColor(category: string): (color: string)
    ensures color == "bg-purple-100 text-purple-800" <==> category == "trend-following"
    ensures color == "bg-blue-100 text-blue-800" <==> category == "mean-reversion" || category == "momentum"
    ensures color == "bg-red-100 text-red-800" <==> category == "scalping"
    ensures color == "bg-green-100 text-green-800" <==> category == "swing"
    ensures color == Gray <==> category !in {"trend-following", "mean-reversion", "momentum", "scalping", "swing"}
  {
    var colors := map["trend-following" := "bg-purple-100 text-purple-800",
                      "mean-reversion" := "bg-blue-100 text-blue-800",
                      "momentum" := "bg-blue-100 text-blue-800",
                      "scalping" := "bg-red-100 text-red-800",
                      "swing" := "bg-green-100 text-green-800"];
    if category in colors then colors[category] else Gray
  }

  function StatusColor(status: string): (color: string)
    ensures color == "bg-green-100 text-green-800" <==> status == "active"
    ensures color == "bg-yellow-100 text-yellow-800" <==> status == "testing"
    ensures color == Gray <==> status != "active" && status != "testing"
  {
    var colors := map["active" := "bg-green-100 text-green-800",
                      "testing" := "bg-yellow-100 text-yellow-800",
                      "archived" := Gray];
    if status in colors then colors[status] else Gray
  }
}
