/** Python values as the catalogue service sees them: JSON data returned by
    the toolbox tools or sent in a request body, Python's truthiness, the
    outcome of one tool call and the exceptions the handlers can run into. */
module Values {

  datatype Option<+T> = None | Some(value: T)

  datatype Result<+T, +E> = Ok(value: T) | Err(error: E)

  /** A decoded JSON value (`None`, `bool`, `int`, `float`, `str`, `list`,
      `dict`). Object keys are strings, as JSON requires. */
  datatype Json =
    | JNull
    | JBool(b: bool)
    | JInt(i: int)
    | JFloat(f: real)
    | JStr(s: string)
    | JList(items: seq<Json>)
    | JObj(fields: map<string, Json>)

  type Dict = map<string, Json>

  /** Python's `bool(v)`: `None`, `False`, zero, and empty strings, lists and
      dicts are false. */
  predicate Truthy(v: Json) {
    match v
    case JNull => false
    case JBool(b) => b
    case JInt(i) => i != 0
    case JFloat(f) => f != 0.0
    case JStr(s) => s != []
    case JList(items) => items != []
    case JObj(fields) => fields != map[]
  }

  /** `d.get(key, default)` */
  function Get(d: Dict, key: string, default: Json): (r: Json) {
    if key in d then d[key] else default
  }

  /** An exception raised by the interpreter itself (not by a tool). */
  datatype PyError =
    | KeyError(key: string)  // `d[key]` on a dict without `key`
    | TypeError              // subscript, item assignment, `**`, iteration or `len` on the wrong type
    | AttributeError         // `.get` on a value that is not a dict

  /** What `toolbox.load_tool(name).invoke(args)` did: it raised (carrying
      `str(e)`), or it returned a value. */
  datatype ToolOutcome = Raised(message: string) | Returned(raw: Json)

  /** A call to a tool that writes: `load_tool(name)` raised before anything
      was sent, or the tool was invoked with the payload, with that outcome.
      (For a read, both failures are caught alike and `ToolOutcome` is
      enough.) */
  datatype WriteCall = NotLoaded(message: string) | Invoked(outcome: ToolOutcome)

  /** The exception caught by a handler's outer `except`, whose `str(e)` is
      sent back as `details`. */
  datatype Fault = ToolFailed(message: string) | PythonFailed(error: PyError)

  /** The result of `json.loads(text)`: a value, or a `JSONDecodeError`. */
  datatype Decoded = Decoded(value: Json) | DecodeError(message: string)
}
