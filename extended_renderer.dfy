/**
 * `RstExtendedRenderer` (module `rstview.parser`): a renderer that also
 * validates. While it parses, the process-wide docutils entry points
 * `Reporter.system_message` and `ErrorOutput.write` are rebound so that
 * warnings and errors are recorded on the renderer and nothing is printed.
 */
module ExtendedRenderer {
  import opened Wrappers
  import opened Texts
  import opened Values
  import opened Templates
  import opened Settings
  import opened Registry
  import opened Docutils
  import opened BasicRenderer

  /** One recorded diagnostic: `(line or None, level, message)`. */
  datatype Record = Record(line: Value, level: int, message: string)

  /** The record the rebound `system_message` keeps for a diagnostic. */
  function ToRecord(m: SystemMessage): (r: Record)
    ensures r.level == m.level && r.message == m.message
    ensures r.line == (if "line" in m.kwargs then m.kwargs["line"] else NoneV)
  {
    Record(Get(m.kwargs, "line", NoneV), m.level, m.message)
  }

  /** Whether a diagnostic is recorded: its level is at least WARNING_LEVEL. */
  predicate Recorded(m: SystemMessage) {
    m.level >= WarningLevel
  }

  /** The records kept for a stream of diagnostics, in emission order. */
  function Collected(emitted: seq<SystemMessage>): (r: seq<Record>)
    ensures |r| <= |emitted|
    decreases |emitted|
  {
    if emitted == [] then []
    else
      var last := emitted[|emitted| - 1];
      Collected(emitted[..|emitted| - 1]) + (if Recorded(last) then [ToRecord(last)] else [])
  }

  /** The positions, ascending, of the diagnostics that are recorded. */
  function RecordedPositions(emitted: seq<SystemMessage>): (p: seq<nat>)
    decreases |emitted|
  {
    if emitted == [] then []
    else
      var n := |emitted| - 1;
      RecordedPositions(emitted[..n]) + (if Recorded(emitted[n]) then [n] else [])
  }

  /**
   * The records are exactly the recorded diagnostics, in emission order:
   * the j-th record comes from the p[j]-th diagnostic, positions ascend,
   * and every diagnostic at or above WARNING_LEVEL has its position in p.
   */
  lemma {:induction false} CollectedExactly(emitted: seq<SystemMessage>)
    ensures var p := RecordedPositions(emitted);
      && |p| == |Collected(emitted)|
      && (forall j :: 0 <= j < |p| ==> p[j] < |emitted| && Recorded(emitted[p[j]])
                                        && Collected(emitted)[j] == ToRecord(emitted[p[j]]))
      && (forall i, j :: 0 <= i < j < |p| ==> p[i] < p[j])
      && (forall k :: 0 <= k < |emitted| && Recorded(emitted[k]) ==> k in p)
    decreases |emitted|
  {
    if emitted != [] {
      var n := |emitted| - 1;
      var front := emitted[..n];
      CollectedExactly(front);
      var p := RecordedPositions(emitted);
      var q := RecordedPositions(front);
      assert p == q + (if Recorded(emitted[n]) then [n] else []);
      assert forall k :: 0 <= k < n ==> front[k] == emitted[k];
    }
  }

  /** Collecting a concatenation collects each part in turn. */
  lemma {:induction false} CollectedAppend(a: seq<SystemMessage>, b: seq<SystemMessage>)
    ensures Collected(a + b) == Collected(a) + Collected(b)
    decreases |b|
  {
    if b == [] {
      assert a + b == a;
    } else {
      var n := |b| - 1;
      assert (a + b)[..|a + b| - 1] == a + b[..n];
      CollectedAppend(a, b[..n]);
    }
  }

  /** Nothing is recorded exactly when every diagnostic is below WARNING_LEVEL. */
  lemma {:induction false} CollectedEmptyIff(emitted: seq<SystemMessage>)
    ensures Collected(emitted) == [] <==> forall k :: 0 <= k < |emitted| ==> emitted[k].level < WarningLevel
    decreases |emitted|
  {
    if emitted != [] {
      var n := |emitted| - 1;
      CollectedEmptyIff(emitted[..n]);
      assert forall k :: 0 <= k < n ==> emitted[..n][k] == emitted[k];
    }
  }

  /** `format_parsing_error`: the template filled with the record's level, line and message. */
  function FormatParsingError(error: Record, template: Template): (s: string)
    ensures template == ErrorTemplate ==> s == "Line " + Str(error.line) + " : " + error.message
  {
    ErrorTemplateFormat(IntToString(error.level), Str(error.line), error.message);
    Format(template, IntToString(error.level), Str(error.line), error.message)
  }

  /**
   * The process-wide docutils entry points the renderer rebinds: whether
   * `Reporter.system_message` and `ErrorOutput.write` are the renderer's
   * replacements (true) or docutils' originals (false).
   */
  class DocutilsHooks {
    var systemMessagePatched: bool
    var writePatched: bool

    constructor ()
      ensures !systemMessagePatched && !writePatched
    {
      systemMessagePatched, writePatched := false, false;
    }
  }

  class RstExtendedRenderer {
    /** The records of the last parse. */
    var messages: seq<Record>
    /** Whether `parse` has been called; before that `messages` does not exist. */
    var parsed: bool

    constructor ()
      ensures messages == [] && !parsed
    {
      messages, parsed := [], false;
    }

    /** `is_valid`: no record was kept by the last parse. */
    predicate IsValid()
      reads this
      requires parsed
    {
      messages == []
    }

    /** `get_messages`: every record formatted, in the same order. */
    function GetMessages(template: Template): (r: seq<string>)
      reads this
      requires parsed
      ensures |r| == |messages|
      ensures forall i :: 0 <= i < |r| ==> r[i] == FormatParsingError(messages[i], template)
    {
      seq(|messages|, i requires 0 <= i < |messages| reads this => FormatParsingError(messages[i], template))
    }

    /** Valid exactly when there is no formatted message, whatever the template. */
    lemma IsValidIffNoMessages(template: Template)
      requires parsed
      ensures IsValid() <==> GetMessages(template) == []
    {
      if !IsValid() {
        assert |GetMessages(template)| > 0;
      }
    }

    /** The replacement `system_message`: records a diagnostic at or above WARNING_LEVEL. */
    method SystemMessageHook(m: SystemMessage)
      modifies this`messages
      ensures messages == old(messages) + (if Recorded(m) then [ToRecord(m)] else [])
    {
      if m.level >= WarningLevel {
        messages := messages + [ToRecord(m)];
      }
    }

    /** Delivers each diagnostic to the replacement `system_message`, in order. */
    method Deliver(emitted: seq<SystemMessage>)
      modifies this`messages
      ensures messages == old(messages) + Collected(emitted)
    {
      var i := 0;
      while i < |emitted|
        invariant 0 <= i <= |emitted|
        invariant messages == old(messages) + Collected(emitted[..i])
      {
        SystemMessageHook(emitted[i]);
        assert emitted[..i + 1][..i] == emitted[..i];
        i := i + 1;
      }
      assert emitted[..i] == emitted;
    }

    /**
     * `parse`, as written: empties `messages`, rebinds both hooks, runs the
     * basic parse, and rebinds the originals afterwards. The rebinding back
     * is straight-line code, so a failing parse leaves the hooks replaced.
     */
    method Parse(site: RstConfigSite, hooks: DocutilsHooks, publish: Publisher, parserWriter: string, silent: Value,
                 source: string, settingKey: string := "default", bodyOnly: bool := true,
                 initialHeaderLevel: Value := NoneV)
      returns (r: Result<Rendered, ParseError>)
      modifies this, hooks
      ensures parsed
      ensures !site.HasName(settingKey) ==>
                r == Failure(ConfigFailure(ConfigNotRegistered(settingKey))) && messages == []
      ensures site.HasName(settingKey) ==>
                var pub := publish(source, ResolvedOptions(site.registry[settingKey], initialHeaderLevel, silent),
                                   GetWriterOption(parserWriter));
                r == SelectOutput(pub.parts, bodyOnly) && messages == Collected(pub.emitted)
      ensures r.Success? ==> !hooks.systemMessagePatched && !hooks.writePatched
      ensures r.Failure? ==> hooks.systemMessagePatched && hooks.writePatched
    {
      messages, parsed := [], true;
      hooks.systemMessagePatched, hooks.writePatched := true, true;
      var emitted;
      r, emitted := BasicRenderer.Parse(site, publish, parserWriter, silent, source, settingKey, bodyOnly,
                                        initialHeaderLevel);
      Deliver(emitted);
      if r.Failure? {
        return;
      }
      hooks.systemMessagePatched, hooks.writePatched := false, false;
    }

    /** `parse` with the rebinding back done on every exit path, as a try/finally would. */
    method ParseRestoringHooks(site: RstConfigSite, hooks: DocutilsHooks, publish: Publisher, parserWriter: string,
                               silent: Value, source: string, settingKey: string := "default",
                               bodyOnly: bool := true, initialHeaderLevel: Value := NoneV)
      returns (r: Result<Rendered, ParseError>)
      modifies this, hooks
      ensures parsed
      ensures !site.HasName(settingKey) ==>
                r == Failure(ConfigFailure(ConfigNotRegistered(settingKey))) && messages == []
      ensures site.HasName(settingKey) ==>
                var pub := publish(source, ResolvedOptions(site.registry[settingKey], initialHeaderLevel, silent),
                                   GetWriterOption(parserWriter));
                r == SelectOutput(pub.parts, bodyOnly) && messages == Collected(pub.emitted)
      ensures !hooks.systemMessagePatched && !hooks.writePatched
    {
      messages, parsed := [], true;
      hooks.systemMessagePatched, hooks.writePatched := true, true;
      var emitted;
      r, emitted := BasicRenderer.Parse(site, publish, parserWriter, silent, source, settingKey, bodyOnly,
                                        initialHeaderLevel);
      Deliver(emitted);
      hooks.systemMessagePatched, hooks.writePatched := false, false;
    }
  }

  /** The as-written `parse` leaves both hooks replaced when the configuration is unknown. */
  method UnknownConfigurationLeavesHooksPatched(site: RstConfigSite, publish: Publisher, source: string)
      returns (r: Result<Rendered, ParseError>, hooks: DocutilsHooks)
    requires !site.HasName("nope")
    ensures r.Failure?
    ensures hooks.systemMessagePatched && hooks.writePatched
  {
    hooks := new DocutilsHooks();
    var renderer := new RstExtendedRenderer();
    r := renderer.Parse(site, hooks, publish, ParserWriter, BoolV(false), source, "nope");
  }

  /** The corrected `parse` rebinds the originals on that same call. */
  method UnknownConfigurationRestoresHooks(site: RstConfigSite, publish: Publisher, source: string)
      returns (r: Result<Rendered, ParseError>, hooks: DocutilsHooks)
    requires !site.HasName("nope")
    ensures r.Failure?
    ensures !hooks.systemMessagePatched && !hooks.writePatched
  {
    hooks := new DocutilsHooks();
    var renderer := new RstExtendedRenderer();
    r := renderer.ParseRestoringHooks(site, hooks, publish, ParserWriter, BoolV(false), source, "nope");
  }

  /** A renderer reused on a second document reports only that document's diagnostics. */
  method ReuseReportsOnlyLastParse(site: RstConfigSite, hooks: DocutilsHooks, publish: Publisher,
                                   first: string, second: string)
      returns (renderer: RstExtendedRenderer)
    requires site.HasName("default")
    modifies hooks
    ensures renderer.parsed
    ensures renderer.messages ==
              Collected(publish(second, ResolvedOptions(site.registry["default"], NoneV, BoolV(false)),
                                GetWriterOption(ParserWriter)).emitted)
  {
    renderer := new RstExtendedRenderer();
    var r1 := renderer.Parse(site, hooks, publish, ParserWriter, BoolV(false), first);
    var r2 := renderer.Parse(site, hooks, publish, ParserWriter, BoolV(false), second);
  }

  /** The record `(1, 2, m)` formats as `"Line 1 : " + m` under the default template. */
  lemma FormatLineOne(m: string)
    ensures FormatParsingError(Record(IntV(1), 2, m), ErrorTemplate) == "Line 1 : " + m
  {
    assert Str(IntV(1)) == "1";
  }

  /** A record without a line keeps `None`, which formats as `"None"`. */
  lemma FormatWithoutLine(m: string)
    ensures FormatParsingError(Record(NoneV, 2, m), ErrorTemplate) == "Line None : " + m
  {
  }

  /** A warning on line 1 is kept with that line, level and message. */
  lemma WarningIsRecorded(m: string)
    ensures Collected([SystemMessage(2, m, [], map["line" := IntV(1)])]) == [Record(IntV(1), 2, m)]
  {
    var e := [SystemMessage(2, m, [], map["line" := IntV(1)])];
    assert e[..0] == [];
  }
}
