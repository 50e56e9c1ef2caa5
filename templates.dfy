/**
 * Error-message templates. A template is kept already split into literal
 * text and the named fields the code substitutes (`{code}`, `{lineno}`,
 * `{message}`); `Format` is what `str.format` does with such a template.
 */
module Templates {

  datatype Field = Code | Lineno | Message

  datatype Piece = Text(text: string) | Slot(field: Field)

  type Template = seq<Piece>

  function FieldValue(f: Field, code: string, lineno: string, message: string): string
  {
    match f
    case Code => code
    case Lineno => lineno
    case Message => message
  }

  /** The template with every field replaced by its value. */
  function Format(t: Template, code: string, lineno: string, message: string): string
    decreases |t|
  {
    if t == [] then ""
    else
      (match t[0]
       case Text(text) => text
       case Slot(f) => FieldValue(f, code, lineno, message))
      + Format(t[1..], code, lineno, message)
  }

  /** Formatting a template made of two parts formats each part in turn. */
  lemma {:induction false} FormatAppend(t: Template, u: Template, code: string, lineno: string, message: string)
    ensures Format(t + u, code, lineno, message) == Format(t, code, lineno, message) + Format(u, code, lineno, message)
    decreases |t|
  {
    if t == [] {
      assert t + u == u;
    } else {
      assert (t + u)[1..] == t[1..] + u;
      FormatAppend(t[1..], u, code, lineno, message);
    }
  }
}
