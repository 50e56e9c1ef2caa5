/**
 * `RstBasicRenderer` (module `rstview.parser`): resolves a named
 * configuration into docutils options and renders a source with them.
 * The renderer holds no state; its operations are module-level here.
 */
module BasicRenderer {
  import opened Wrappers
  import opened Values
  import opened Registry
  import opened Settings
  import opened Docutils

  const ReportLevelKey: string := "report_level"
  const HeaderLevelKey: string := "initial_header_level"

  /** The `report_level` that silences every diagnostic. */
  const SilentReportLevel: int := 5

  /**
   * The options `get_options` gives docutils for the stored configuration
   * `config`. Layers, later ones winning: the configuration, then
   * `report_level` 5 when `silent` is truthy, then `initialHeaderLevel` when
   * it is truthy, then the security policy.
   */
  function ResolvedOptions(config: Params, initialHeaderLevel: Value, silent: Value): (r: Params)
    ensures r.Keys == config.Keys + ParserSecurity.Keys
                      + (if Truthy(silent) then {ReportLevelKey} else {})
                      + (if Truthy(initialHeaderLevel) then {HeaderLevelKey} else {})
    ensures forall k :: k in ParserSecurity ==> r[k] == ParserSecurity[k]
    ensures Truthy(initialHeaderLevel) ==> r[HeaderLevelKey] == initialHeaderLevel
    ensures Truthy(silent) ==> r[ReportLevelKey] == IntV(SilentReportLevel)
    ensures forall k :: k in config && k !in ParserSecurity
                        && !(k == ReportLevelKey && Truthy(silent))
                        && !(k == HeaderLevelKey && Truthy(initialHeaderLevel))
                        ==> r[k] == config[k]
  {
    var quiet := if Truthy(silent) then config[ReportLevelKey := IntV(SilentReportLevel)] else config;
    var headed := if Truthy(initialHeaderLevel) then quiet[HeaderLevelKey := initialHeaderLevel] else quiet;
    headed + ParserSecurity
  }

  /**
   * `get_options`: copies the configuration registered under `name` and
   * updates the copy in place, layer by layer. The registry is only read.
   * `silent` comes first because its default is a setting, not a constant.
   */
  method GetOptions(site: RstConfigSite, silent: Value, name: string, initialHeaderLevel: Value := NoneV)
    returns (r: Result<Params, ConfigError>)
    ensures !site.HasName(name) ==> r == Failure(ConfigNotRegistered(name))
    ensures site.HasName(name) ==> r == Success(ResolvedOptions(site.registry[name], initialHeaderLevel, silent))
  {
    var stored := site.GetParameters(name);
    if stored.Failure? {
      return Failure(stored.error);
    }
    // A map is a value, so this copy cannot share state with the stored set.
    var parserSettings := stored.value;
    if Truthy(silent) {
      parserSettings := parserSettings[ReportLevelKey := IntV(SilentReportLevel)];
    }
    if Truthy(initialHeaderLevel) {
      parserSettings := parserSettings[HeaderLevelKey := initialHeaderLevel];
    }
    parserSettings := parserSettings + ParserSecurity;
    r := Success(parserSettings);
  }

  /** `get_writer_option`: the semantic HTML5 writer for `"html5"`, else `writer_name "html4css1"`. */
  function GetWriterOption(parserWriter: string): (w: WriterOption)
    ensures w.SemanticHtml5Writer? <==> parserWriter == "html5"
    ensures !w.SemanticHtml5Writer? ==> w == WriterName("html4css1")
  {
    if parserWriter == "html5" then SemanticHtml5Writer else WriterName("html4css1")
  }

  /** What `parse` returns: the `fragment` part alone, or all the parts. */
  datatype Rendered = Fragment(html: string) | AllParts(parts: Parts)

  /** Why `parse` fails: an unknown configuration, or a missing part (`KeyError`). */
  datatype ParseError = ConfigFailure(config: ConfigError) | KeyError(key: string)

  /** The `body_only` choice: one shape or the other, never both. */
  function SelectOutput(parts: Parts, bodyOnly: bool): (r: Result<Rendered, ParseError>)
    ensures r.Failure? <==> bodyOnly && "fragment" !in parts
    ensures r.Failure? ==> r.error == KeyError("fragment")
    ensures r.Success? ==> (r.value.Fragment? <==> bodyOnly)
    ensures r.Success? && bodyOnly ==> r.value.html == parts["fragment"]
    ensures r.Success? && !bodyOnly ==> r.value.parts == parts
  {
    if bodyOnly then
      (if "fragment" in parts then Success(Fragment(parts["fragment"])) else Failure(KeyError("fragment")))
    else Success(AllParts(parts))
  }

  /**
   * `parse`: resolves the options of `settingKey`, publishes `source` with
   * them and the writer `parserWriter` selects, and picks the output.
   * `emitted` is what docutils sent to `Reporter.system_message` meanwhile
   * (nothing when the configuration is unknown, since docutils is not called).
   */
  method Parse(site: RstConfigSite, publish: Publisher, parserWriter: string, silent: Value, source: string,
               settingKey: string := "default", bodyOnly: bool := true, initialHeaderLevel: Value := NoneV)
    returns (r: Result<Rendered, ParseError>, emitted: seq<SystemMessage>)
    ensures !site.HasName(settingKey) ==>
              r == Failure(ConfigFailure(ConfigNotRegistered(settingKey))) && emitted == []
    ensures site.HasName(settingKey) ==>
              var pub := publish(source, ResolvedOptions(site.registry[settingKey], initialHeaderLevel, silent),
                                 GetWriterOption(parserWriter));
              r == SelectOutput(pub.parts, bodyOnly) && emitted == pub.emitted
  {
    var options := GetOptions(site, silent, settingKey, initialHeaderLevel);
    if options.Failure? {
      return Failure(ConfigFailure(options.error)), [];
    }
    var pub := publish(source, options.value, GetWriterOption(parserWriter));
    r := SelectOutput(pub.parts, bodyOnly);
    emitted := pub.emitted;
  }

  /** A truthy header level replaces the configured one; `None` and `0` leave it. */
  lemma HeaderOverride(config: Params, silent: Value, level: int)
    requires HeaderLevelKey in config && level != 0
    ensures ResolvedOptions(config, IntV(level), silent)[HeaderLevelKey] == IntV(level)
    ensures ResolvedOptions(config, NoneV, silent)[HeaderLevelKey] == config[HeaderLevelKey]
    ensures ResolvedOptions(config, IntV(0), silent) == ResolvedOptions(config, NoneV, silent)
  {
  }

  /** Without `silent`, `report_level` is whatever the configuration had, absent if it had none. */
  lemma ReportLevelFromConfig(config: Params, initialHeaderLevel: Value, silent: Value)
    requires !Truthy(silent)
    ensures ReportLevelKey in ResolvedOptions(config, initialHeaderLevel, silent) <==> ReportLevelKey in config
    ensures ReportLevelKey in config ==>
              ResolvedOptions(config, initialHeaderLevel, silent)[ReportLevelKey] == config[ReportLevelKey]
  {
  }

  /** No configuration can lift the security policy, not even one that sets its keys. */
  lemma SecurityCannotBeOverridden(config: Params, initialHeaderLevel: Value, silent: Value)
    ensures ResolvedOptions(config, initialHeaderLevel, silent)["halt_level"] == IntV(6)
    ensures ResolvedOptions(config, initialHeaderLevel, silent)["enable_exit"] == IntV(0)
  {
  }

  /** The `default` configuration resolved in silent mode. */
  lemma DefaultSilentOptions()
    ensures ResolvedOptions(DefaultConfig, NoneV, BoolV(true)) == map[
              "initial_header_level" := IntV(3), "file_insertion_enabled" := BoolV(false),
              "raw_enabled" := BoolV(false), "language_code" := StrV("en"),
              "footnote_references" := StrV("superscript"), "doctitle_xform" := BoolV(false),
              "report_level" := IntV(5), "enable_exit" := IntV(0), "halt_level" := IntV(6)]
  {
  }

  /** The `default` configuration resolved with header level 5 and no silence. */
  lemma DefaultHeaderOptions()
    ensures ResolvedOptions(DefaultConfig, IntV(5), BoolV(false)) == map[
              "initial_header_level" := IntV(5), "file_insertion_enabled" := BoolV(false),
              "raw_enabled" := BoolV(false), "language_code" := StrV("en"),
              "footnote_references" := StrV("superscript"), "doctitle_xform" := BoolV(false),
              "enable_exit" := IntV(0), "halt_level" := IntV(6)]
  {
  }

  /** The default writer setting selects the semantic HTML5 writer. */
  lemma DefaultWriterIsHtml5()
    ensures GetWriterOption(ParserWriter) == SemanticHtml5Writer
  {
  }

  /**
   * `parse(source)` with every default, on a registry seeded at start-up
   * with the settings' configurations (as `rstview/discover.py` does): the `fragment` part of what docutils
   * renders with the resolved `default` configuration and the HTML5 writer.
   */
  method ParseWithDefaults(site: RstConfigSite, publish: Publisher, silent: Value, source: string)
      returns (r: Result<Rendered, ParseError>)
    modifies site
    ensures site.registry == old(site.registry) + ParserFilterSettings
    ensures var pub := publish(source, ResolvedOptions(DefaultConfig, NoneV, silent), SemanticHtml5Writer);
            r == SelectOutput(pub.parts, true)
  {
    site.Update(ParserFilterSettings);
    var emitted;
    r, emitted := Parse(site, publish, ParserWriter, silent, source);
  }
}
