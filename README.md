# rstview configuration registry and validating renderer, in Dafny

rstview renders reStructuredText to HTML through docutils, with named
parser configurations kept in a process-wide registry. This project models
the part of rstview around the docutils call:

- the **configuration registry** `RstConfigSite` (a class whose map of
  configuration name to parameter set is updated in place);
- the **option resolver** `get_options`, which copies a stored configuration
  and layers silence, a header-level override and the security policy on it;
- the **render pipeline** `parse`: writer choice and the `body_only` choice
  between the `fragment` part and all parts;
- the **validator** `RstExtendedRenderer`, which rebinds docutils'
  `Reporter.system_message` and `ErrorOutput.write`, records every
  diagnostic at or above docutils' WARNING_LEVEL as `(line or None, level,
  message)` and formats them with the error template;
- the **legacy reporter** `SilentReporter` / `SourceReporter` /
  `format_parsing_errors`;
- the **default settings**: security policy, default configuration, writer and
  error template.

docutils itself is not modelled. `publish_parts` is a function parameter
(`Docutils.Publisher`) returning the document parts and the diagnostics it
sent to `Reporter.system_message`, in emission order; the parser used by
`SourceReporter` is a function parameter returning the diagnostics it emitted
and the exception it stopped with. The Django setting `RSTVIEW_PARSER_WRITER`
and the `silent` flag are explicit parameters.

Files: `wrappers.dfy` (Option / Result / Outcome), `texts.dfy` (Python's
`str(int)` and `str` ordering, sorted listing of names), `values.dfy` (option
values, truthiness, `str()`), `templates.dfy` (error templates),
`settings.dfy`, `registry.dfy`, `docutils.dfy` (the boundary types),
`basic_renderer.dfy`, `extended_renderer.dfy`, `reporter.dfy`.

## Model

| member | source | states |
|---|---|---|
| `Registry.RstConfigSite.constructor` | rstview/registry.py:52-53 | a registry built without `initial` is empty |
| `Registry.RstConfigSite.WithInitial` | rstview/registry.py:52-53 | a registry built with `initial` holds exactly those configurations |
| `Registry.RstConfigSite.Reset` | rstview/registry.py:55-59 | afterwards the registry is empty, whatever it held |
| `Registry.RstConfigSite.GetRegistry` | rstview/registry.py:61-68 | returns the current mapping |
| `Registry.RstConfigSite.GetNames` | rstview/registry.py:70-78 | lists every registered name exactly once (as many names as keys, membership both ways), in strictly ascending Python string order |
| `Texts.SortedNames` | rstview/registry.py:78 | `sorted()` of a set of names: same elements, same count, strictly ascending |
| `Texts.SortedNamesUnique` | rstview/registry.py:78 | any strictly ascending listing of a set is the sorted one, so the order is fully determined |
| `Texts.LeastExists` | rstview/registry.py:78 | every finite non-empty set of names has a least one under Python's string order |
| `Texts.BelowTotal` | rstview/registry.py:78 | Python's string order relates any two different strings |
| `Texts.BelowTransitive` | rstview/registry.py:78 | Python's string order is transitive |
| `Texts.BelowAsymmetric` | rstview/registry.py:78 | Python's string order is asymmetric |
| `Texts.BelowIrreflexive` | rstview/registry.py:78 | no string is below itself |
| `Registry.NamesSorted` | project_test/tests/test_001_01_registry.py:45-56 | names `foo` and `bar` are listed as `["bar", "foo"]` |
| `Registry.RstConfigSite.HasName` | rstview/registry.py:80-87 | the membership test `has_name`: whether the name is a key of the registry, with no side effect |
| `Registry.RstConfigSite.HasNameIffListed` | rstview/registry.py:80-87 | `has_name` is true exactly for the names `GetNames` lists |
| `Registry.HasNameCaseSensitive` | project_test/tests/test_001_01_registry.py:59-73 | with only `foo` registered, `foo` is found and `Foo` is not |
| `Registry.RstConfigSite.GetParameters` | rstview/registry.py:89-102 | fails with ConfigNotRegistered(name) exactly when the name is absent, else returns the stored set unchanged |
| `Registry.ErrorMessage` | rstview/registry.py:99-118 | the text each registry exception carries, with the name quoted |
| `Registry.RstConfigSite.Register` | rstview/registry.py:104-120 | a present name fails with ConfigAlreadyRegistered and the registry is unchanged; otherwise the registry becomes old[name := value] |
| `Registry.RstConfigSite.Unregister` | rstview/registry.py:122-135 | an absent name fails with ConfigNotRegistered and the registry is unchanged; otherwise exactly that name is removed and every other entry keeps its value |
| `Registry.RstConfigSite.Update` | rstview/registry.py:137-146 | never fails; keys become old keys plus given keys, values come from the given map where it has them, otherwise from the old registry |
| `Registry.RegisterThenUnregister` | rstview/registry.py:104-135 | registering a fresh name and unregistering it restores the registry |
| `Registry.RepeatedCallsFail` | project_test/tests/test_001_01_registry.py:90-124 | the second of two registers of a name returns ConfigAlreadyRegistered, the second of two unregisters returns ConfigNotRegistered, and the name ends absent |
| `Settings.SecurityPolicyExact` | rstview/settings.py:7-10 | the security policy is exactly `{halt_level: 6, enable_exit: 0}` |
| `Settings.DefaultConfigIsSafe` | rstview/settings.py:20-32 | the default configuration turns file insertion and raw insertion off |
| `Settings.DefaultConfigValues` | rstview/settings.py:28-37 | the default configuration's keys and its header level 3, language `en`, superscript footnote references and `doctitle_xform` false |
| `Settings.ErrorTemplateFormat` | rstview/settings.py:46 | the default template renders as `"Line " + lineno + " : " + message` |
| `Values.Truthy` | rstview/parser.py:86-90 | the tests `if silent:` and `if initial_header_level:` are false exactly for `None`, `False`, `0` and `""` |
| `BasicRenderer.ResolvedOptions` | rstview/parser.py:81-93 | keys are the configuration's plus the policy's plus `report_level` when silent plus `initial_header_level` when a truthy level is given; policy keys carry policy values; silent forces `report_level` 5; a truthy level replaces the configured one; every other key keeps its configured value |
| `BasicRenderer.GetOptions` | rstview/parser.py:62-93 | an unregistered name fails with ConfigNotRegistered; otherwise the result is the resolved options of the stored set (the registry is only read); the header level defaults to `None` |
| `BasicRenderer.HeaderOverride` | rstview/parser.py:89-90 | a non-zero level replaces the configured header level; `None` or `0` leave the configured one, and give the same options |
| `BasicRenderer.ReportLevelFromConfig` | rstview/parser.py:86-87 | without `silent`, `report_level` is present exactly when the configuration has it, with its value |
| `BasicRenderer.SecurityCannotBeOverridden` | rstview/parser.py:92 | whatever the configuration, header level or silence, `halt_level` is 6 and `enable_exit` 0 |
| `BasicRenderer.DefaultSilentOptions` | project_test/tests/test_001_04_settings.py:16-26 | the default configuration resolved silently is exactly the nine expected options |
| `BasicRenderer.DefaultHeaderOptions` | project_test/tests/test_001_04_settings.py:78-88 | the default configuration resolved with header level 5 is exactly the eight expected options |
| `BasicRenderer.GetWriterOption` | rstview/parser.py:95-110 | `"html5"` selects the semantic HTML5 writer, any other value `writer_name "html4css1"` |
| `BasicRenderer.DefaultWriterIsHtml5` | rstview/settings.py:18 | the default writer setting selects the semantic HTML5 writer |
| `BasicRenderer.SelectOutput` | rstview/parser.py:144-147 | with `body_only` the result is the `fragment` part (KeyError when missing), without it all the parts; never both shapes |
| `BasicRenderer.Parse` | rstview/parser.py:112-147 | an unknown configuration fails with ConfigNotRegistered before docutils is called; otherwise docutils gets the resolved options and the selected writer, and the output is chosen from its parts; the configuration defaults to `default`, `body_only` to true and the header level to `None` |
| `BasicRenderer.ParseWithDefaults` | project_test/tests/test_002_parser_base.py:11-17 | on a registry seeded with the settings' configurations, `parse(source)` returns the `fragment` part of what docutils renders with the resolved `default` configuration and the HTML5 writer |
| `ExtendedRenderer.ToRecord` | rstview/parser.py:233-238 | a record keeps the diagnostic's level and message and its `line` keyword, `None` when it has none |
| `ExtendedRenderer.Collected` | rstview/parser.py:226-240 | never more records than diagnostics |
| `ExtendedRenderer.Recorded` | rstview/parser.py:233 | the filter `level >= WARNING_LEVEL` that decides whether a diagnostic is recorded |
| `ExtendedRenderer.CollectedExactly` | rstview/parser.py:233-238 | the records are exactly the diagnostics at or above WARNING_LEVEL, in emission order: each record comes from such a diagnostic, positions ascend, and no such diagnostic is missed |
| `ExtendedRenderer.CollectedAppend` | rstview/parser.py:226-240 | collecting two streams one after the other gives the concatenation of their records |
| `ExtendedRenderer.CollectedEmptyIff` | rstview/parser.py:233 | no record is kept exactly when every diagnostic is below WARNING_LEVEL |
| `ExtendedRenderer.WarningIsRecorded` | project_test/tests/test_002_parser_base.py:128-145 | a level-2 diagnostic on line 1 is kept as `(1, 2, m)` |
| `ExtendedRenderer.FormatParsingError` | rstview/parser.py:184-201 | under the default template a record formats as `"Line " + str(line) + " : " + message` |
| `ExtendedRenderer.FormatLineOne` | project_test/tests/test_002_parser_base.py:191-197 | the record `(1, 2, m)` formats as `"Line 1 : " + m` |
| `ExtendedRenderer.FormatWithoutLine` | rstview/parser.py:195-201 | a record without a line formats as `"Line None : " + m` (no default of 0 here) |
| `Texts.DecimalRoundTrip` | rstview/parser.py:197-201 | the decimal text a line number or level is formatted with reads back as that number |
| `ExtendedRenderer.DocutilsHooks.constructor` | rstview/parser.py:36-37 | initially both docutils entry points are the originals |
| `ExtendedRenderer.RstExtendedRenderer.constructor` | rstview/parser.py:150-174 | a new renderer has no records and has not parsed |
| `ExtendedRenderer.RstExtendedRenderer.IsValid` | rstview/parser.py:175-182 | `is_valid`, after a parse: no record was kept |
| `ExtendedRenderer.RstExtendedRenderer.GetMessages` | rstview/parser.py:262-269 | after a parse, one formatted message per record, in record order |
| `ExtendedRenderer.RstExtendedRenderer.IsValidIffNoMessages` | rstview/parser.py:175-182 | after a parse, valid exactly when `get_messages` gives no message, whatever the template |
| `ExtendedRenderer.RstExtendedRenderer.SystemMessageHook` | rstview/parser.py:226-240 | appends the record of a diagnostic at or above WARNING_LEVEL and nothing otherwise |
| `ExtendedRenderer.RstExtendedRenderer.Deliver` | rstview/parser.py:226-240 | delivering a stream appends exactly its collected records |
| `ExtendedRenderer.RstExtendedRenderer.Parse` | rstview/parser.py:203-260 | the same defaults as the basic parse; records are reset first; the result is the basic parse's; the records are exactly the collected ones of what docutils emitted (none for an unknown configuration); hooks are rebound to the originals only on success and stay replaced on failure |
| `ExtendedRenderer.RstExtendedRenderer.ParseRestoringHooks` | rstview/parser.py:203-260 | same result and records as `Parse`, with both hooks rebound to the originals on every path |
| `ExtendedRenderer.UnknownConfigurationLeavesHooksPatched` | rstview/parser.py:249-258 | an unknown configuration makes the as-written parse fail with both hooks still replaced |
| `ExtendedRenderer.UnknownConfigurationRestoresHooks` | rstview/parser.py:249-258 | with the corrected parse the same call leaves both hooks original |
| `ExtendedRenderer.ReuseReportsOnlyLastParse` | rstview/parser.py:223-224 | a renderer used twice holds only the second document's records |
| `Reporter.LineOf` | rstview/reporter.py:32 | the line a diagnostic formats with is its `line` keyword, or 0 when it has none |
| `Reporter.FormatParsingErrors` | rstview/reporter.py:16-34 | under the default template a diagnostic formats with its `line` keyword, or with 0 when it has none |
| `Reporter.FormatLineOne` | project_test/tests/test_003_reporter.py:20-32 | `(2, m, (), {'line': 1})` formats as `"Line 1 : " + m` |
| `Reporter.FormatLineOneTranslated` | project_test/tests/test_003_reporter.py:35-50 | under the template `"Line é {lineno} : {message}"`, `(2, m, (), {'line': 1})` formats as `"Line é 1 : " + m` |
| `Reporter.SilentReporter.constructor` | rstview/reporter.py:44-49 | a new reporter has kept nothing |
| `Reporter.SilentReporter.SystemMessage` | rstview/reporter.py:51-52 | appends exactly one `(level, message, children, kwargs)` entry at the end, whatever the level |
| `Reporter.Swallowed` | rstview/reporter.py:101-109 | the exceptions `SourceReporter` swallows: AttributeError and TypeError, and no other |
| `Reporter.SourceReporter` | rstview/reporter.py:55-109 | returns every diagnostic the parser emitted, in order, when it finished or stopped with AttributeError or TypeError; any other exception propagates |
| `Reporter.KeepsInfoDiagnostics` | rstview/reporter.py:51-52 | a diagnostic below WARNING_LEVEL is kept too |
| `Values.Str` | rstview/parser.py:197-201 | `str()` of an integer value is its decimal digits without a leading zero (a `-` first when negative), of a string value the string itself |
| `Templates.Format` | rstview/parser.py:197-201 | definition of `str.format` on a split template: each piece in order, literal text as it is, each field replaced by its value |
| `Templates.FormatAppend` | rstview/reporter.py:29-34 | formatting a template made of two parts gives the two parts' texts one after the other, so templates sharing a tail format alike after their first piece |

## Left out

- docutils (`publish_parts`, `Reporter`, `ErrorOutput`, `parsers.rst.Parser`, `OptionParser`, the HTML5 writer module `rstview.html5writer`) is not part of this model: it appears only as function parameters, so the concrete HTML and the concrete diagnostics of a given markup (for instance `"Lorem **ipsum** salace"`) cannot be stated.
- Exceptions raised inside `publish_parts` are not modelled; the only failures of `parse` are an unknown configuration and a missing `fragment` part.
- `smart_str` encoding of the source is not modelled: sources are Dafny strings.
- Python's `str.format` is not parsed: templates are given already split into text and the fields `code`, `lineno`, `message`; a template naming an unknown field (a KeyError in Python) cannot be written.
- Reporter.FormatParsingErrors: the `{source}` field (the keyword dict itself) is not offered to the template.
- Registry.RstConfigSite.GetRegistry: returns the map as a value; in Python the caller gets the live dict, and `initial` is stored without a copy, so later changes to it show in the registry. Value semantics also make the deep copy in `get_options` trivially alias-free.
- Option values are `None`, booleans, integers and strings; nested dictionaries, floats, lazy translation strings, and Python's `False == 0` equality are not modelled. The registry test that stores `42` or `True` as a whole configuration is represented with parameter sets.
- Extra keyword arguments to `get_options` (a TypeError in Python) are not modelled.
- The default of `silent` is `settings.RSTVIEW_PARSER_SILENT`, read once when `rstview.parser` is imported and not defined in the settings module: `silent` is always an explicit parameter.
- The two rebound docutils hooks are modelled as two flags; what other threads observe while they are replaced, and the stale replacement that keeps feeding an old renderer after a failed parse, are not modelled.
- RstExtendedRenderer.IsValid: requires a previous `parse`; before it Python raises AttributeError because `messages` does not exist yet.
- RstExtendedRenderer.GetMessages: requires a previous `parse`, for the same reason; the AttributeError itself is not modelled.
- BasicRenderer.GetOptions, BasicRenderer.Parse, RstExtendedRenderer.Parse: `silent` is a positional parameter placed before the source and the configuration name, so the parameters with defaults come last; the order of Python's keyword arguments is not kept.
- `get_messages` returns a lazy `map` object in Python 3; here it is a sequence.
- `SilentReporter`'s constructor arguments go to docutils' `Reporter` and are not modelled; child nodes are kept as text, and the `None` that `system_message` returns is not modelled. The option object `SourceReporter` builds for docutils (tab width, PEP and RFC references) belongs to the `parse` parameter.
- `build_output` (a file write), `rstview/discover.py` (import-driven discovery), the views and template tags, the Pygments settings and the global instance `rstview_registry` (here: whichever registry is passed) are outside the modelled core.

## Findings

| source | as written | input that shows it | evidently intended | confidence | as-written member | corrected member |
|---|---|---|---|---|---|---|
| rstview/parser.py:249-258 | the original hooks are rebound after `super().parse(...)` in straight-line code, so any exception from that call leaves `Reporter.system_message` and `ErrorOutput.write` replaced process-wide | `RstExtendedRenderer().parse(source, setting_key="nope")` with `nope` unregistered raises ConfigNotRegistered and returns with both hooks still replaced; later renders print nothing and feed the old renderer's records | the hooks are rebound on every exit path (try/finally): the originals are kept "to safely turn back to them" (rstview/parser.py:34-35) and `parse` is documented to "parse source then *unmonkey*" (rstview/parser.py:207-208) | medium, not executed | `ExtendedRenderer.UnknownConfigurationLeavesHooksPatched` | `ExtendedRenderer.RstExtendedRenderer.ParseRestoringHooks` |
