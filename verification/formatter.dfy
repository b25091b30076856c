/**
 * The alert formatter: turns a decoded Grafana alert into the plain text
 * posted to the chat room. Everything it does sits inside a catch-all, so
 * the formatter itself never fails; a value of the wrong shape produces an
 * error text instead of the alert text.
 */
module Formatter {
  import opened Wrappers
  import opened Json

  /** An exception raised inside the formatter's try block. */
  datatype PyError =
    | NoAttribute(typeName: string, attribute: string)  // AttributeError
    | NotIterable(typeName: string)                     // TypeError

  /** `str(e)` for the exceptions above, in Python's wording. */
  function Explain(e: PyError): string {
    match e
    case NoAttribute(t, a) => "'" + t + "' object has no attribute '" + a + "'"
    case NotIterable(t) => "'" + t + "' object is not iterable"
  }

  const Banner: string := "\U{1F6A8} Grafana Alert"
  const UnknownText: string := "unknown"
  const NoMessageText: string := "No message provided"
  const NotAvailableText: string := "N/A"
  const ResultsTitle: string := "\n\nEvaluation Results:"
  const ErrorPrefix: string := "Error formatting alert: "
  const RawDataLabel: string := "\nRaw data: "

  /** The four fixed lines every well-formed alert text starts with. */
  function Header(status: string, ruleId: string, message: string): string {
    Banner + "\nStatus: " + status + "\nRule ID: " + ruleId + "\nMessage: " + message
  }

  /** The line appended for one evaluation match. */
  function MatchLine(metric: string, value: string): string {
    "\n- " + metric + ": " + value
  }

  /** `v.get(key, default)` where `v` need not be a dict: any other value has no `get`. */
  function PyGet(v: Json, key: string, default: Json): Result<Json, PyError> {
    if v.JObj? then Success(Get(v.fields, key, default))
    else Failure(NoAttribute(TypeName(v), "get"))
  }

  /**
   * The elements `for x in v` visits: a list's items, a string's one-character
   * strings, a dict's keys; any other value raises TypeError.
   */
  function Iterate(v: Json): Result<seq<Json>, PyError> {
    match v
    case JList(xs) => Success(xs)
    case JStr(s) => Success(seq(|s|, i requires 0 <= i < |s| => JStr([s[i]])))
    case JObj(fs) =>
      var ks := Keys(fs);
      Success(seq(|ks|, i requires 0 <= i < |ks| => JStr(ks[i])))
    case _ => Failure(NotIterable(TypeName(v)))
  }

  /** The loop over the matches: `acc` is the text built so far, and each match appends one line. */
  function AppendMatches(acc: string, matches: seq<Json>, show: Json -> string): Result<string, PyError>
    decreases |matches|
  {
    if matches == [] then Success(acc)
    else
      var value :- PyGet(matches[0], "value", JStr(NotAvailableText));
      var metric :- PyGet(matches[0], "metric", JStr(NotAvailableText));
      AppendMatches(acc + MatchLine(Render(metric, show), Render(value, show)), matches[1..], show)
  }

  /** The body of the formatter's try block. */
  function TryFormat(alert: Json, show: Json -> string): Result<string, PyError> {
    if !alert.JObj? then Failure(NoAttribute(TypeName(alert), "get"))
    else
      var fs := alert.fields;
      var header := AlertHeader(fs, show);
      if !HasKey(fs, "evalMatches") then Success(header)
      else
        var matches :- Iterate(Get(fs, "evalMatches", JNull));
        AppendMatches(header + ResultsTitle, matches, show)
  }

  /** The formatter with its catch-all: the alert text, or the error text naming the exception and the raw data. */
  function FormatAlert(alert: Json, show: Json -> string): string {
    match TryFormat(alert, show)
    case Success(text) => text
    case Failure(e) => ErrorPrefix + Explain(e) + RawDataLabel + Render(alert, show)
  }

  // ---------------------------------------------------------------------
  // An independent, declarative description of the formatter's output
  // ---------------------------------------------------------------------

  predicate AllDicts(matches: seq<Json>) {
    forall i :: 0 <= i < |matches| ==> matches[i].JObj?
  }

  /** A value the loop can run over without raising: an iterable whose elements are all dicts. */
  predicate IterableOfDicts(v: Json) {
    match v
    case JList(xs) => AllDicts(xs)
    case JStr(s) => s == ""
    case JObj(fs) => fs == []
    case _ => false
  }

  /** The alerts the formatter handles without reaching its catch-all. */
  predicate Formattable(alert: Json) {
    && alert.JObj?
    && (HasKey(alert.fields, "evalMatches") ==> IterableOfDicts(Get(alert.fields, "evalMatches", JNull)))
  }

  /** The matches of a well-formed `evalMatches` value. */
  function MatchesOf(v: Json): (ms: seq<Json>)
    requires IterableOfDicts(v)
    ensures AllDicts(ms)
  {
    if v.JList? then v.items else []
  }

  /** The position of the first match that is not a dict. */
  function FirstNonDict(matches: seq<Json>): (k: nat)
    requires !AllDicts(matches)
    ensures k < |matches| && !matches[k].JObj?
    ensures forall j :: 0 <= j < k ==> matches[j].JObj?
  {
    if !matches[0].JObj? then 0
    else
      assert !AllDicts(matches[1..]) by {
        var i :| 0 <= i < |matches| && !matches[i].JObj?;
        assert matches[1..][i - 1] == matches[i];
      }
      1 + FirstNonDict(matches[1..])
  }

  /** The line for one match, its metric and value each defaulting to "N/A". */
  function LineOf(m: Json, show: Json -> string): string
    requires m.JObj?
  {
    MatchLine(
      Render(Get(m.fields, "metric", JStr(NotAvailableText)), show),
      Render(Get(m.fields, "value", JStr(NotAvailableText)), show))
  }

  /** One line per match, in list order. */
  function ExpectedLines(matches: seq<Json>, show: Json -> string): (lines: seq<string>)
    requires AllDicts(matches)
    ensures |lines| == |matches|
    ensures forall i :: 0 <= i < |matches| ==> lines[i] == LineOf(matches[i], show)
  {
    if matches == [] then [] else [LineOf(matches[0], show)] + ExpectedLines(matches[1..], show)
  }

  function Concat(ss: seq<string>): string {
    if ss == [] then "" else ss[0] + Concat(ss[1..])
  }

  /** The header of an alert, each field defaulted as the formatter defaults it. */
  function AlertHeader(fields: seq<(string, Json)>, show: Json -> string): string {
    Header(
      Render(Get(fields, "status", JStr(UnknownText)), show),
      Render(Get(fields, "ruleId", JStr(UnknownText)), show),
      Render(Get(fields, "message", JStr(NoMessageText)), show))
  }

  /** The text a well-formed alert is turned into. */
  function ExpectedText(alert: Json, show: Json -> string): string
    requires Formattable(alert)
  {
    var header := AlertHeader(alert.fields, show);
    if HasKey(alert.fields, "evalMatches") then
      header + ResultsTitle + Concat(ExpectedLines(MatchesOf(Get(alert.fields, "evalMatches", JNull)), show))
    else header
  }

  // ---------------------------------------------------------------------
  // Lemmas relating the formatter to the description above
  // ---------------------------------------------------------------------

  /** One turn of the loop over a dict appends that dict's line. */
  lemma AppendMatchesStep(acc: string, matches: seq<Json>, show: Json -> string)
    requires matches != [] && matches[0].JObj?
    ensures AppendMatches(acc, matches, show) == AppendMatches(acc + LineOf(matches[0], show), matches[1..], show)
  {
  }

  /** Over a list of dicts the loop appends exactly the expected lines, one per match. */
  lemma {:induction false} AppendMatchesAllDicts(acc: string, matches: seq<Json>, show: Json -> string)
    requires AllDicts(matches)
    ensures AppendMatches(acc, matches, show) == Success(acc + Concat(ExpectedLines(matches, show)))
    ensures |ExpectedLines(matches, show)| == |matches|
    decreases |matches|
  {
    var lines := ExpectedLines(matches, show);
    if matches != [] {
      var line := LineOf(matches[0], show);
      var rest := ExpectedLines(matches[1..], show);
      assert Concat(lines) == line + Concat(rest);
      AppendMatchesStep(acc, matches, show);
      AppendMatchesAllDicts(acc + line, matches[1..], show);
      assert acc + line + Concat(rest) == acc + (line + Concat(rest));
    } else {
      assert acc + Concat(lines) == acc;
    }
  }

  /** The loop raises AttributeError at the first match that is not a dict, naming its type. */
  lemma {:induction false} AppendMatchesFirstNonDict(acc: string, matches: seq<Json>, k: nat, show: Json -> string)
    requires k < |matches| && !matches[k].JObj?
    requires forall j :: 0 <= j < k ==> matches[j].JObj?
    ensures AppendMatches(acc, matches, show) == Failure(NoAttribute(TypeName(matches[k]), "get"))
    decreases k
  {
    if k > 0 {
      AppendMatchesStep(acc, matches, show);
      AppendMatchesFirstNonDict(acc + LineOf(matches[0], show), matches[1..], k - 1, show);
    }
  }

  /** The loop over `evalMatches` raises exactly when that value is not an iterable of dicts. */
  lemma IterateSucceedsIff(v: Json, acc: string, show: Json -> string)
    ensures (Iterate(v).Success? && AppendMatches(acc, Iterate(v).value, show).Success?) <==> IterableOfDicts(v)
    ensures IterableOfDicts(v) ==> Iterate(v) == Success(MatchesOf(v))
  {
    match v
    case JList(xs) =>
      if AllDicts(xs) {
        AppendMatchesAllDicts(acc, xs, show);
      } else {
        var k := FirstNonDict(xs);
        AppendMatchesFirstNonDict(acc, xs, k, show);
      }
    case JStr(s) =>
      if s != "" {
        AppendMatchesFirstNonDict(acc, Iterate(v).value, 0, show);
      }
    case JObj(fs) =>
      if fs != [] {
        AppendMatchesFirstNonDict(acc, Iterate(v).value, 0, show);
      }
    case _ =>
  }

  /** The exception the formatter's try block raises on an alert it cannot format. */
  function ExpectedError(alert: Json): PyError
    requires !Formattable(alert)
  {
    if !alert.JObj? then NoAttribute(TypeName(alert), "get")
    else
      var em := Get(alert.fields, "evalMatches", JNull);
      match em
      case JList(xs) => NoAttribute(TypeName(xs[FirstNonDict(xs)]), "get")
      case JStr(_) => NoAttribute("str", "get")
      case JObj(_) => NoAttribute("str", "get")
      case _ => NotIterable(TypeName(em))
  }

  /** The try block succeeds exactly on the well-formed alerts, with the expected text, and otherwise raises the expected error. */
  lemma TryFormatMeaning(alert: Json, show: Json -> string)
    ensures TryFormat(alert, show).Success? <==> Formattable(alert)
    ensures Formattable(alert) ==> TryFormat(alert, show) == Success(ExpectedText(alert, show))
    ensures !Formattable(alert) ==> TryFormat(alert, show) == Failure(ExpectedError(alert))
  {
    if alert.JObj? && HasKey(alert.fields, "evalMatches") {
      var fs := alert.fields;
      var em := Get(fs, "evalMatches", JNull);
      var start := AlertHeader(fs, show) + ResultsTitle;
      IterateSucceedsIff(em, start, show);
      if IterableOfDicts(em) {
        AppendMatchesAllDicts(start, MatchesOf(em), show);
      } else if em.JList? {
        AppendMatchesFirstNonDict(start, em.items, FirstNonDict(em.items), show);
      } else if em.JStr? || em.JObj? {
        AppendMatchesFirstNonDict(start, Iterate(em).value, 0, show);
      }
    }
  }

  /**
   * The formatter never fails: a well-formed alert becomes the header, then,
   * when `evalMatches` is present, the results title and one line per match;
   * any other alert becomes the error text naming the exception and the raw data.
   */
  lemma FormatAlertText(alert: Json, show: Json -> string)
    ensures Formattable(alert) ==> FormatAlert(alert, show) == ExpectedText(alert, show)
    ensures !Formattable(alert) ==>
      FormatAlert(alert, show) == ErrorPrefix + Explain(ExpectedError(alert)) + RawDataLabel + Render(alert, show)
  {
    TryFormatMeaning(alert, show);
  }

  /** An alert without `evalMatches` becomes exactly its header, with missing fields defaulted. */
  lemma FormatAlertWithoutMatches(fields: seq<(string, Json)>, show: Json -> string)
    requires !HasKey(fields, "evalMatches")
    ensures FormatAlert(JObj(fields), show) == Header(
      Render(Get(fields, "status", JStr(UnknownText)), show),
      Render(Get(fields, "ruleId", JStr(UnknownText)), show),
      Render(Get(fields, "message", JStr(NoMessageText)), show))
    ensures !HasKey(fields, "status") && !HasKey(fields, "ruleId") && !HasKey(fields, "message") ==>
      FormatAlert(JObj(fields), show) == Header(UnknownText, UnknownText, NoMessageText)
  {
    FormatAlertText(JObj(fields), show);
    if !HasKey(fields, "status") && !HasKey(fields, "ruleId") && !HasKey(fields, "message") {
      assert Get(fields, "status", JStr(UnknownText)) == JStr(UnknownText);
      assert Get(fields, "ruleId", JStr(UnknownText)) == JStr(UnknownText);
      assert Get(fields, "message", JStr(NoMessageText)) == JStr(NoMessageText);
    }
  }

  /**
   * An alert whose `evalMatches` is a list of dicts becomes its header, the
   * results title and as many lines as there are matches, in list order.
   */
  lemma FormatAlertWithMatches(fields: seq<(string, Json)>, matches: seq<Json>, show: Json -> string)
    requires Lookup(fields, "evalMatches") == Some(JList(matches))
    requires AllDicts(matches)
    ensures FormatAlert(JObj(fields), show) ==
      AlertHeader(fields, show) + ResultsTitle + Concat(ExpectedLines(matches, show))
    ensures |ExpectedLines(matches, show)| == |matches|
  {
    FormatAlertText(JObj(fields), show);
  }

  lemma PrefixExtends(p: string, t: string, u: string)
    requires p <= t
    ensures p <= t + u
  {
    assert (t + u)[..|p|] == t[..|p|];
  }

  /** The text starts with the alert banner exactly when the alert is well formed; otherwise it starts with the error prefix. */
  lemma FormatAlertBannerIff(alert: Json, show: Json -> string)
    ensures Banner <= FormatAlert(alert, show) <==> Formattable(alert)
    ensures ErrorPrefix <= FormatAlert(alert, show) <==> !Formattable(alert)
  {
    FormatAlertText(alert, show);
    var text := FormatAlert(alert, show);
    assert Banner[0] != ErrorPrefix[0];
    if Formattable(alert) {
      var fs := alert.fields;
      var status := Render(Get(fs, "status", JStr(UnknownText)), show);
      var ruleId := Render(Get(fs, "ruleId", JStr(UnknownText)), show);
      var message := Render(Get(fs, "message", JStr(NoMessageText)), show);
      var h := AlertHeader(fs, show);
      PrefixExtends(Banner, Banner, "\nStatus: ");
      PrefixExtends(Banner, Banner + "\nStatus: ", status);
      PrefixExtends(Banner, Banner + "\nStatus: " + status, "\nRule ID: ");
      PrefixExtends(Banner, Banner + "\nStatus: " + status + "\nRule ID: ", ruleId);
      PrefixExtends(Banner, Banner + "\nStatus: " + status + "\nRule ID: " + ruleId, "\nMessage: ");
      PrefixExtends(Banner, Banner + "\nStatus: " + status + "\nRule ID: " + ruleId + "\nMessage: ", message);
      assert Banner <= h;
      if HasKey(fs, "evalMatches") {
        PrefixExtends(Banner, h, ResultsTitle);
        PrefixExtends(Banner, h + ResultsTitle, Concat(ExpectedLines(MatchesOf(Get(fs, "evalMatches", JNull)), show)));
      }
      assert text[0] == Banner[0];
    } else {
      var e := Explain(ExpectedError(alert));
      PrefixExtends(ErrorPrefix, ErrorPrefix, e);
      PrefixExtends(ErrorPrefix, ErrorPrefix + e, RawDataLabel);
      PrefixExtends(ErrorPrefix, ErrorPrefix + e + RawDataLabel, Render(alert, show));
      assert text[0] == ErrorPrefix[0];
    }
  }
}
