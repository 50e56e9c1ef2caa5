/**
 * The legacy validating reporter (module `rstview.reporter`): a docutils
 * reporter that keeps every diagnostic instead of reporting it.
 */
module Reporter {
  import opened Wrappers
  import opened Texts
  import opened Values
  import opened Templates
  import opened Settings
  import opened Docutils

  /** The line a kept diagnostic formats with: its `line` keyword, 0 when it has none. */
  function LineOf(error: SystemMessage): (v: Value)
    ensures "line" in error.kwargs ==> v == error.kwargs["line"]
    ensures "line" !in error.kwargs ==> v == IntV(0)
  {
    Get(error.kwargs, "line", IntV(0))
  }

  /** `format_parsing_errors`: the template filled with the diagnostic's level, line and message. */
  function FormatParsingErrors(error: SystemMessage, template: Template): (s: string)
    ensures "line" !in error.kwargs && template == ErrorTemplate ==> s == "Line 0 : " + error.message
    ensures "line" in error.kwargs && template == ErrorTemplate ==>
              s == "Line " + Str(error.kwargs["line"]) + " : " + error.message
  {
    ErrorTemplateFormat(IntToString(error.level), Str(LineOf(error)), error.message);
    assert Str(IntV(0)) == "0";
    Format(template, IntToString(error.level), Str(LineOf(error)), error.message)
  }

  /** `SilentReporter`: keeps every diagnostic it is given, whatever its level. */
  class SilentReporter {
    var messages: seq<SystemMessage>

    constructor ()
      ensures messages == []
    {
      messages := [];
    }

    /**
   * `system_message`: appends the call's arguments; earlier entries are kept.
   * The method keeps Python's name, so the record it appends is written
   * with its module, `Docutils.SystemMessage`.
   */
    method SystemMessage(level: int, message: string, children: seq<string>, kwargs: map<string, Value>)
      modifies this
      ensures messages == old(messages) + [Docutils.SystemMessage(level, message, children, kwargs)]
    {
      messages := messages + [Docutils.SystemMessage(level, message, children, kwargs)];
    }
  }

  /** Whether `SourceReporter` swallows an exception the parser raised. */
  predicate Swallowed(e: PyException) {
    e == AttributeError || e == TypeError
  }

  /**
   * `SourceReporter`: parses `source` with a `SilentReporter` and returns
   * what it kept. An `AttributeError` or `TypeError` from the parser still
   * returns the diagnostics kept before it; any other exception propagates.
   * `settingKey` is accepted and not used, as in the source.
   */
  method SourceReporter(source: string, settingKey: string, parse: string -> ParserRun)
      returns (r: Result<seq<SystemMessage>, PyException>)
    ensures parse(source).raised.None? ==> r == Success(parse(source).emitted)
    ensures parse(source).raised.Some? && Swallowed(parse(source).raised.value) ==>
              r == Success(parse(source).emitted)
    ensures parse(source).raised.Some? && !Swallowed(parse(source).raised.value) ==>
              r == Failure(parse(source).raised.value)
  {
    var reporter := new SilentReporter();
    var run := parse(source);
    var i := 0;
    while i < |run.emitted|
      invariant 0 <= i <= |run.emitted|
      invariant reporter.messages == run.emitted[..i]
    {
      var m := run.emitted[i];
      reporter.SystemMessage(m.level, m.message, m.children, m.kwargs);
      assert run.emitted[..i + 1] == run.emitted[..i] + [m];
      i := i + 1;
    }
    assert run.emitted[..i] == run.emitted;
    match run.raised
    case None =>
      r := Success(reporter.messages);
    case Some(e) =>
      if Swallowed(e) {
        r := Success(reporter.messages);
      } else {
        r := Failure(e);
      }
  }

  /** Every diagnostic is kept, also those below WARNING_LEVEL. */
  method KeepsInfoDiagnostics(source: string, parse: string -> ParserRun)
      returns (r: Result<seq<SystemMessage>, PyException>)
    requires parse(source) == ParserRun([SystemMessage(1, "info", [], map[])], None)
    ensures r == Success([SystemMessage(1, "info", [], map[])])
  {
    r := SourceReporter(source, "default", parse);
  }

  /** The diagnostic `(2, m, (), {'line': 1})` formats as `"Line 1 : " + m`. */
  lemma FormatLineOne(m: string)
    ensures FormatParsingErrors(SystemMessage(2, m, [], map["line" := IntV(1)]), ErrorTemplate) == "Line 1 : " + m
  {
    assert Str(IntV(1)) == "1";
  }

  /** A translated template `"Line é {lineno} : {message}"`, split into its pieces. */
  const TranslatedTemplate: Template := [Text("Line é "), Slot(Lineno), Text(" : "), Slot(Message)]

  /** With the translated template, `(2, m, (), {'line': 1})` formats as `"Line é 1 : " + m`. */
  lemma FormatLineOneTranslated(m: string)
    ensures FormatParsingErrors(SystemMessage(2, m, [], map["line" := IntV(1)]), TranslatedTemplate)
            == "Line é 1 : " + m
  {
    var rest := ErrorTemplate[1..];
    assert ErrorTemplate == [Text("Line ")] + rest;
    assert TranslatedTemplate == [Text("Line é ")] + rest;
    var e := SystemMessage(2, m, [], map["line" := IntV(1)]);
    var code, line := IntToString(2), Str(IntV(1));
    assert line == "1";
    ErrorTemplateFormat(code, line, m);
    FormatAppend([Text("Line ")], rest, code, line, m);
    FormatAppend([Text("Line é ")], rest, code, line, m);
    assert Format(rest, code, line, m) == "1 : " + m;
  }
}
