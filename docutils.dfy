/**
 * The boundary with docutils, which is not part of this model. Its
 * publisher and its parser are passed to the modelled code as functions;
 * this module holds the shapes of what they take and give back.
 */
module Docutils {
  import opened Wrappers
  import opened Values

  /** `docutils.utils.Reporter.WARNING_LEVEL`: the severity of a warning. */
  const WarningLevel: int := 2

  /**
   * One call the parser makes to `Reporter.system_message(level, message,
   * *children, **kwargs)`. Child nodes are kept as their text.
   */
  datatype SystemMessage = SystemMessage(level: int, message: string, children: seq<string>, kwargs: map<string, Value>)

  /** The writer argument given to `publish_parts`. */
  datatype WriterOption = SemanticHtml5Writer | WriterName(name: string)

  /** The parts of a rendered document (`fragment`, `body`, `whole`, `title`, ...). */
  type Parts = map<string, string>

  /**
   * What one `publish_parts` call yields: its parts, and the diagnostics it
   * sent through `Reporter.system_message`, in emission order.
   */
  datatype Publication = Publication(parts: Parts, emitted: seq<SystemMessage>)

  /** `publish_parts(source, settings_overrides, writer)`. */
  type Publisher = (string, Params, WriterOption) -> Publication

  /** The kinds of Python exception the code tells apart. */
  datatype PyException = AttributeError | TypeError | OtherException(name: string)

  /**
   * One run of `docutils.parsers.rst.Parser().parse` on a document: the
   * diagnostics it emitted before it stopped, and the exception it stopped
   * with, if any.
   */
  datatype ParserRun = ParserRun(emitted: seq<SystemMessage>, raised: Option<PyException>)
}
