/** The application's default settings (module `rstview.settings`). */
module Settings {
  import opened Values
  import opened Templates

  /** Parameters applied on top of every resolved option set; they must not be changed. */
  const ParserSecurity: Params := map["halt_level" := IntV(6), "enable_exit" := IntV(0)]

  /** The language part of the locale given to docutils. */
  const ParserLanguageCode: string := "en"

  /** Which writer renders HTML: `"html5"` selects the semantic writer, anything else `html4css1`. */
  const ParserWriter: string := "html5"

  /** The unsafe directives (file inclusion, raw passthrough) are off unless a project enables them. */
  const ParserEnableFileInsertion: bool := false
  const ParserEnableRawInsertion: bool := false

  /** The `default` configuration. */
  const DefaultConfig: Params := map[
    "initial_header_level" := IntV(3),
    "file_insertion_enabled" := BoolV(ParserEnableFileInsertion),
    "raw_enabled" := BoolV(ParserEnableRawInsertion),
    "language_code" := StrV(ParserLanguageCode),
    "footnote_references" := StrV("superscript"),
    "doctitle_xform" := BoolV(false)
  ]

  /** The named configurations the settings provide. */
  const ParserFilterSettings: map<string, Params> := map["default" := DefaultConfig]

  /** `"Line {lineno} : {message}"`. */
  const ErrorTemplate: Template := [Text("Line "), Slot(Lineno), Text(" : "), Slot(Message)]

  /** The security policy is exactly `{halt_level: 6, enable_exit: 0}`. */
  lemma SecurityPolicyExact()
    ensures ParserSecurity.Keys == {"halt_level", "enable_exit"}
    ensures ParserSecurity["halt_level"] == IntV(6) && ParserSecurity["enable_exit"] == IntV(0)
  {
  }

  /** The default configuration turns file insertion and raw insertion off. */
  lemma DefaultConfigIsSafe()
    ensures DefaultConfig["file_insertion_enabled"] == BoolV(false)
    ensures DefaultConfig["raw_enabled"] == BoolV(false)
  {
  }

  /** The rest of the default configuration. */
  lemma DefaultConfigValues()
    ensures DefaultConfig.Keys == {"initial_header_level", "file_insertion_enabled", "raw_enabled",
                                   "language_code", "footnote_references", "doctitle_xform"}
    ensures DefaultConfig["initial_header_level"] == IntV(3)
    ensures DefaultConfig["language_code"] == StrV("en")
    ensures DefaultConfig["footnote_references"] == StrV("superscript")
    ensures DefaultConfig["doctitle_xform"] == BoolV(false)
  {
  }

  /** The default template renders as `"Line " + lineno + " : " + message`. */
  lemma {:induction false} ErrorTemplateFormat(code: string, lineno: string, message: string)
    ensures Format(ErrorTemplate, code, lineno, message) == "Line " + lineno + " : " + message
  {
    var t := ErrorTemplate;
    assert t[1..][1..][1..][1..] == [];
    assert Format(t[1..][1..][1..], code, lineno, message) == message;
    assert Format(t[1..][1..], code, lineno, message) == " : " + message;
    assert Format(t[1..], code, lineno, message) == lineno + " : " + message;
  }
}
