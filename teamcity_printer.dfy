/**
 * TeamCityPrinter: reports scenario results as TeamCity service messages,
 * one line each, of the form "###teamcity[<kind> <key>='<value>' ...]". Only
 * CR and LF are escaped in values (as "|r" and "|n"); names are written as
 * they are. A C# `null` string is `None`, and String.Format writes it as the
 * empty string.
 *
 * A message is a value (its kind and its attributes) and `Render` is the line
 * written for it; the printer's output is the sequence of messages written.
 */
module TeamCityPrinting {
  import opened Wrappers
  import opened Testing
  import opened Strings

  datatype MessageKind = TestStarted | TestFailed | TestFinished | TestSuiteStarted | TestSuiteFinished

  function KindName(kind: MessageKind): string
  {
    match kind
    case TestStarted => "testStarted"
    case TestFailed => "testFailed"
    case TestFinished => "testFinished"
    case TestSuiteStarted => "testSuiteStarted"
    case TestSuiteFinished => "testSuiteFinished"
  }

  datatype AttributeKey = Name | MessageText | Details | Duration

  function KeyName(key: AttributeKey): string
  {
    match key
    case Name => "name"
    case MessageText => "message"
    case Details => "details"
    case Duration => "duration"
  }

  datatype Attribute = Attribute(key: AttributeKey, value: string)

  datatype ServiceMessage = ServiceMessage(kind: MessageKind, attributes: seq<Attribute>)

  const ServiceMessagePrefix: string := "###teamcity["

  /** string.Format("###teamcity[{0} {1}]", kind, attributes) */
  function ServiceMessageText(kind: string, attributes: string): string
  {
    ServiceMessagePrefix + kind + " " + attributes + "]"
  }

  /** "<key>='<value>'", separated by single spaces. */
  function RenderAttributes(attributes: seq<Attribute>): string
  {
    if attributes == [] then ""
    else
      var a := attributes[0];
      var text := KeyName(a.key) + "='" + a.value + "'";
      if |attributes| == 1 then text else text + " " + RenderAttributes(attributes[1..])
  }

  /** The line written for a message. */
  function Render(m: ServiceMessage): string
  {
    ServiceMessageText(KindName(m.kind), RenderAttributes(m.attributes))
  }

  /** Reads a service message back into its kind and attributes: the kind ends at the first space. */
  function ParseServiceMessage(line: string): (r: Option<(string, string)>)
    ensures r.Some? ==> ' ' !in r.value.0 && line == ServiceMessageText(r.value.0, r.value.1)
  {
    var n := |ServiceMessagePrefix|;
    if |line| < n + 1 || line[..n] != ServiceMessagePrefix || line[|line| - 1] != ']' then None
    else
      var inner := line[n..|line| - 1];
      match IndexOf(inner, ' ')
      case None => None
      case Some(i) =>
        assert inner == inner[..i] + " " + inner[i + 1..];
        assert line == line[..n] + inner + "]";
        Some((inner[..i], inner[i + 1..]))
  }

  /** A service message whose kind has no space reads back as the kind and attributes it was built from. */
  lemma ParseServiceMessageRoundTrip(kind: string, attributes: string)
    requires ' ' !in kind
    ensures ParseServiceMessage(ServiceMessageText(kind, attributes)) == Some((kind, attributes))
  {
    var line := ServiceMessageText(kind, attributes);
    var n := |ServiceMessagePrefix|;
    var inner := kind + [' '] + attributes;
    assert line == ServiceMessagePrefix + inner + "]";
    assert line[..n] == ServiceMessagePrefix;
    assert line[|line| - 1] == ']';
    assert line[n..|line| - 1] == inner;
    IndexOfAfterPrefix(kind, ' ', attributes);
    assert inner[..|kind|] == kind && inner[|kind| + 1..] == attributes;
  }

  /** Every rendered message reads back as its kind's name and its rendered attributes. */
  lemma ParseRendered(m: ServiceMessage)
    ensures ParseServiceMessage(Render(m)) == Some((KindName(m.kind), RenderAttributes(m.attributes)))
  {
    var k := KindName(m.kind);
    assert ' ' !in k by {
      forall i | 0 <= i < |k| ensures k[i] != ' ' {
      }
    }
    ParseServiceMessageRoundTrip(k, RenderAttributes(m.attributes));
  }

  /** String.Format's rendering of a string argument: "" for null. */
  function Arg(s: Option<string>): (r: string)
    ensures s.None? ==> r == ""
    ensures s.Some? ==> r == s.value
  {
    if s.Some? then s.value else ""
  }

  /** FormatNewLines: CR becomes "|r", then LF becomes "|n"; null stays null. */
  function FormatNewLines(text: Option<string>): (r: Option<string>)
    ensures r.None? <==> text.None?
    ensures r.Some? ==> '\r' !in r.value && '\n' !in r.value
    ensures r.Some? && '\r' !in text.value && '\n' !in text.value ==> r.value == text.value
  {
    if text.None? then None
    else
      var noCR := Replace(text.value, '\r', "|r");
      ReplaceKeepsAbsent(noCR, '\n', "|n", '\r');
      Some(Replace(noCR, '\n', "|n"))
  }

  /** Reads "|r" and "|n" back as CR and LF; every other character stands for itself. */
  function UnescapeNewLines(s: string): string
  {
    if |s| >= 2 && s[0] == '|' && s[1] == 'r' then "\r" + UnescapeNewLines(s[2..])
    else if |s| >= 2 && s[0] == '|' && s[1] == 'n' then "\n" + UnescapeNewLines(s[2..])
    else if s == [] then []
    else [s[0]] + UnescapeNewLines(s[1..])
  }

  /** The escape of one character. */
  function EscapeChar(c: char): string
  {
    if c == '\r' then "|r" else if c == '\n' then "|n" else [c]
  }

  lemma EscapeFirstChar(t: string)
    requires t != []
    ensures Replace(Replace(t, '\r', "|r"), '\n', "|n")
         == EscapeChar(t[0]) + Replace(Replace(t[1..], '\r', "|r"), '\n', "|n")
  {
    var first := if t[0] == '\r' then "|r" else [t[0]];
    assert Replace(t, '\r', "|r") == first + Replace(t[1..], '\r', "|r");
    ReplaceAppend(first, Replace(t[1..], '\r', "|r"), '\n', "|n");
    if t[0] == '\n' {
      assert Replace(first, '\n', "|n") == "|n" + Replace([], '\n', "|n");
    }
  }

  /**
   * FormatNewLines loses nothing on text without '|': reading its escapes
   * back gives the original text.
   */
  lemma {:induction false} FormatNewLinesRoundTrip(t: string)
    requires '|' !in t
    ensures UnescapeNewLines(FormatNewLines(Some(t)).value) == t
    decreases |t|
  {
    if t != [] {
      var rest := Replace(Replace(t[1..], '\r', "|r"), '\n', "|n");
      EscapeFirstChar(t);
      FormatNewLinesRoundTrip(t[1..]);
      var e := EscapeChar(t[0]);
      if t[0] == '\r' || t[0] == '\n' {
        assert (e + rest)[2..] == rest;
      } else {
        assert (e + rest)[1..] == rest;
      }
      assert t == [t[0]] + t[1..];
    }
  }

  /** Started(name) */
  function StartedMessage(name: Option<string>): (m: ServiceMessage)
    ensures m.kind == TestStarted && m.attributes == [Attribute(Name, Arg(name))]
  {
    ServiceMessage(TestStarted, [Attribute(Name, Arg(name))])
  }

  /** The exception Failed reports: the given one, or a fresh System.Exception for null. */
  function ReportedException(exception: Option<Exception>): (e: Exception)
    ensures exception.Some? ==> e == exception.value
    ensures exception.None? ==> e == Exception(BaseException, DefaultExceptionMessage)
  {
    if exception.Some? then exception.value else Exception(BaseException, DefaultExceptionMessage)
  }

  /**
   * Failed(name, exception): the exception's message and its text, both with
   * line breaks escaped, so neither value ever holds a line break.
   */
  function FailedMessage(name: Option<string>, exception: Option<Exception>): (m: ServiceMessage)
    ensures m.kind == TestFailed
    ensures var e := ReportedException(exception);
      m.attributes == [Attribute(Name, Arg(name)),
                       Attribute(MessageText, Arg(FormatNewLines(Some(e.message)))),
                       Attribute(Details, Arg(FormatNewLines(Some(ExceptionText(e)))))]
    ensures SingleLine(m.attributes[1].value) && SingleLine(m.attributes[2].value)
  {
    var e := ReportedException(exception);
    ServiceMessage(TestFailed, [Attribute(Name, Arg(name)),
                                Attribute(MessageText, Arg(FormatNewLines(Some(e.message)))),
                                Attribute(Details, Arg(FormatNewLines(Some(ExceptionText(e)))))])
  }

  /** The duration Finished reports: whole milliseconds, or -1 when there is none. */
  function ReportedDuration(duration: Option<nat>): (ms: int)
    ensures duration.Some? ==> ms == duration.value
    ensures duration.None? ==> ms == -1
  {
    if duration.Some? then duration.value else -1
  }

  /** Finished(name, duration) */
  function FinishedMessage(name: Option<string>, duration: Option<nat>): (m: ServiceMessage)
    ensures m.kind == TestFinished
    ensures m.attributes == [Attribute(Name, Arg(name)), Attribute(Duration, IntToString(ReportedDuration(duration)))]
    ensures duration.Some? ==> m.attributes[1].value == NatToString(duration.value)
    ensures duration.None? ==> m.attributes[1].value == "-1"
  {
    ServiceMessage(TestFinished, [Attribute(Name, Arg(name)), Attribute(Duration, IntToString(ReportedDuration(duration)))])
  }

  /** SuiteStarted(name) */
  function SuiteStartedMessage(name: Option<string>): (m: ServiceMessage)
    ensures m.kind == TestSuiteStarted && m.attributes == [Attribute(Name, Arg(name))]
  {
    ServiceMessage(TestSuiteStarted, [Attribute(Name, Arg(name))])
  }

  /** SuiteFinished(name) */
  function SuiteFinishedMessage(name: Option<string>): (m: ServiceMessage)
    ensures m.kind == TestSuiteFinished && m.attributes == [Attribute(Name, Arg(name))]
  {
    ServiceMessage(TestSuiteFinished, [Attribute(Name, Arg(name))])
  }

  /** Started, SuiteStarted and SuiteFinished write the name as their only attribute. */
  lemma NameOnlyMessages(name: Option<string>)
    ensures Render(StartedMessage(name)) == ServiceMessageText("testStarted", "name='" + Arg(name) + "'")
    ensures Render(SuiteStartedMessage(name)) == ServiceMessageText("testSuiteStarted", "name='" + Arg(name) + "'")
    ensures Render(SuiteFinishedMessage(name)) == ServiceMessageText("testSuiteFinished", "name='" + Arg(name) + "'")
  {
  }

  /** A call of one of the five message builders, with its arguments. */
  datatype Report =
    | Started(name: Option<string>)
    | Failed(name: Option<string>, exception: Option<Exception>)
    | Finished(name: Option<string>, duration: Option<nat>)
    | SuiteStarted(name: Option<string>)
    | SuiteFinished(name: Option<string>)

  /** The message a report builds. */
  function MessageOf(r: Report): ServiceMessage
  {
    match r
    case Started(name) => StartedMessage(name)
    case Failed(name, exception) => FailedMessage(name, exception)
    case Finished(name, duration) => FinishedMessage(name, duration)
    case SuiteStarted(name) => SuiteStartedMessage(name)
    case SuiteFinished(name) => SuiteFinishedMessage(name)
  }

  /** The line written for a report. */
  function Line(r: Report): string
  {
    Render(MessageOf(r))
  }

  predicate SingleLine(s: string)
  {
    '\r' !in s && '\n' !in s
  }

  predicate SingleLineValues(attributes: seq<Attribute>)
  {
    forall i :: 0 <= i < |attributes| ==> SingleLine(attributes[i].value)
  }

  lemma KindNameIsSingleLine(kind: MessageKind)
    ensures SingleLine(KindName(kind))
  {
    var k := KindName(kind);
    forall i | 0 <= i < |k| ensures k[i] != '\r' && k[i] != '\n' {
    }
  }

  lemma KeyNameIsSingleLine(key: AttributeKey)
    ensures SingleLine(KeyName(key))
  {
    var k := KeyName(key);
    forall i | 0 <= i < |k| ensures k[i] != '\r' && k[i] != '\n' {
    }
  }

  /** Attributes whose values hold no line break render on one line. */
  lemma {:induction false} RenderAttributesIsSingleLine(attributes: seq<Attribute>)
    requires SingleLineValues(attributes)
    ensures SingleLine(RenderAttributes(attributes))
  {
    if attributes != [] {
      KeyNameIsSingleLine(attributes[0].key);
      assert SingleLine(attributes[0].value);
      RenderAttributesIsSingleLine(attributes[1..]);
    }
  }

  /** A message whose values hold no line break is one line. */
  lemma RenderIsSingleLine(m: ServiceMessage)
    requires SingleLineValues(m.attributes)
    ensures SingleLine(Render(m))
  {
    KindNameIsSingleLine(m.kind);
    RenderAttributesIsSingleLine(m.attributes);
  }

  /** A failure report is one line whenever the scenario name is, whatever the exception says. */
  lemma FailedIsSingleLine(name: Option<string>, exception: Option<Exception>)
    requires SingleLine(Arg(name))
    ensures SingleLine(Line(Failed(name, exception)))
  {
    var e := ReportedException(exception);
    var message := Arg(FormatNewLines(Some(e.message)));
    var details := Arg(FormatNewLines(Some(ExceptionText(e))));
    var m := ServiceMessage(TestFailed, [Attribute(Name, Arg(name)), Attribute(MessageText, message), Attribute(Details, details)]);
    assert m == FailedMessage(name, exception);
    assert SingleLine(message) && SingleLine(details);
    assert SingleLineValues(m.attributes);
    RenderIsSingleLine(m);
  }

  /** A finish report is one line whenever the scenario name is. */
  lemma FinishedIsSingleLine(name: Option<string>, duration: Option<nat>)
    requires SingleLine(Arg(name))
    ensures SingleLine(Line(Finished(name, duration)))
  {
    var ms := ReportedDuration(duration);
    var digits := if ms < 0 then NatToString(-ms) else NatToString(ms);
    assert SingleLine(digits) by {
      forall i | 0 <= i < |digits| ensures digits[i] != '\r' && digits[i] != '\n' {
        assert '0' <= digits[i] <= '9';
      }
    }
    var text := IntToString(ms);
    assert SingleLine(text) by {
      if ms < 0 {
        assert text == "-" + digits;
      }
    }
    var m := FinishedMessage(name, duration);
    assert SingleLineValues(m.attributes);
    RenderIsSingleLine(m);
  }

  /** PrintResult's messages: testStarted, testFailed only for a failed result, then testFinished. */
  function ResultMessages(result: ScenarioResult): (reports: seq<Report>)
    ensures |reports| == if result.passed then 2 else 3
    ensures reports[0] == Started(result.name)
    ensures reports[|reports| - 1] == Finished(result.name, result.duration)
    ensures !result.passed ==> reports[1] == Failed(result.name, AsException(result.results))
  {
    [Started(result.name)]
    + (if result.passed then [] else [Failed(result.name, AsException(result.results))])
    + [Finished(result.name, result.duration)]
  }

  class TeamCityPrinter {
    /** The reports written to the output, one line each (see `Line`). */
    var output: seq<Report>
    var flushes: nat
    var disposed: bool
    /** How many times the output writer has been disposed. */
    var outputDisposals: nat

    constructor ()
      ensures output == [] && flushes == 0 && !disposed && outputDisposals == 0
    {
      output := [];
      flushes := 0;
      disposed := false;
      outputDisposals := 0;
    }

    method Flush()
      modifies this`flushes
      ensures flushes == old(flushes) + 1
    {
      flushes := flushes + 1;
    }

    /** PrintCategoryHeader(Type): testSuiteStarted with the type's full name. */
    method PrintCategoryHeader(foundOn: Category)
      modifies this`output
      ensures output == old(output) + [SuiteStarted(Some(foundOn.fullName))]
    {
      output := output + [SuiteStarted(Some(foundOn.fullName))];
    }

    /** PrintCategoryFooter(Type): testSuiteFinished with the type's full name. */
    method PrintCategoryFooter(foundOn: Category)
      modifies this`output
      ensures output == old(output) + [SuiteFinished(Some(foundOn.fullName))]
    {
      output := output + [SuiteFinished(Some(foundOn.fullName))];
    }

    /** PrintResult: the result's messages, then a flush. */
    method PrintResult(result: ScenarioResult)
      modifies this`output, this`flushes
      ensures output == old(output) + ResultMessages(result)
      ensures flushes == old(flushes) + 1
    {
      output := output + [Started(result.name)];
      if !result.passed {
        output := output + [Failed(result.name, AsException(result.results))];
      }
      output := output + [Finished(result.name, result.duration)];
      flushes := flushes + 1;
    }

    /** Dispose: the writer is disposed on the first call only. */
    method Dispose()
      modifies this`disposed, this`outputDisposals
      ensures disposed
      ensures outputDisposals == if old(disposed) then old(outputDisposals) else old(outputDisposals) + 1
    {
      if disposed {
        return;
      }
      disposed := true;
      outputDisposals := outputDisposals + 1;
    }
  }

  /** A passing and a failing result under one category; the printer is disposed twice. */
  method PrintCategory(passing: ScenarioResult, failing: ScenarioResult, foundOn: Category)
    returns (reports: seq<Report>, flushes: nat, disposals: nat)
    requires passing.passed && !failing.passed
    ensures |reports| == 7
    ensures reports[0] == SuiteStarted(Some(foundOn.fullName)) && reports[6] == SuiteFinished(Some(foundOn.fullName))
    ensures reports[3] == Started(failing.name) && reports[4] == Failed(failing.name, AsException(failing.results))
    ensures flushes == 2 && disposals == 1
  {
    var printer := new TeamCityPrinter();
    printer.PrintCategoryHeader(foundOn);
    printer.PrintResult(passing);
    printer.PrintResult(failing);
    printer.PrintCategoryFooter(foundOn);
    reports, flushes := printer.output, printer.flushes;
    printer.Dispose();
    printer.Dispose();
    disposals := printer.outputDisposals;
  }
}
