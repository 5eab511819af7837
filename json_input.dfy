/** What `json.loads(line)` yields for a log line, as far as the
    classifiers look at it: the decoder is outside the model and its result
    is an input. */
module JsonInput {
  import opened Wrappers

  /** The `message` entry of a decoded object: missing, a string, a list or
      an object (kept as the strings a Python `in` test can find in it: the
      string elements of the list, the keys of the object), or a number,
      boolean or `null`. */
  datatype MessageField = Absent | Text(text: string) | Container(items: seq<string>) | Scalar

  /** Decoding fails, yields a value that is not an object, or yields an
      object. */
  datatype Json = Invalid | NonObject | Object(message: MessageField)

  /** `log_entry.get('message', '')` when it is a string; `None` when the
      decoding or the `.get` raises, or when the message is not a string and
      a regular expression search on it raises. */
  function MessageText(json: Json): (r: Option<string>)
    ensures r.Some? <==> json.Object? && (json.message.Absent? || json.message.Text?)
    ensures json.Object? && json.message.Absent? ==> r == Some("")
    ensures json.Object? && json.message.Text? ==> r == Some(json.message.text)
  {
    match json
    case Object(Absent) => Some("")
    case Object(Text(t)) => Some(t)
    case _ => None
  }
}
