/** The two helpers that turn a raw tool result into usable data, and the
    "first element of a non-empty list" extraction every single-record fetch
    applies after decoding. */
module Normalize {
  import opened Values
  import opened Config

  /** `safe_decode_data`: a string is decoded as JSON text and a decode
      failure gives `None`; any other value passes through untouched. */
  function SafeDecodeData(env: Env, data: Json): (r: Json)
    ensures !data.JStr? ==> r == data
    ensures data.JStr? && env.loads(data.s).DecodeError? ==> r == JNull
    ensures data.JStr? && env.loads(data.s).Decoded? ==> r == env.loads(data.s).value
  {
    match data
    case JStr(text) =>
      (match env.loads(text)
       case Decoded(v) => v
       case DecodeError(_) => JNull)
    case _ => data
  }

  /** `lst[0] if isinstance(lst, list) and lst else None` */
  function FirstElement(v: Json): (r: Json) {
    if v.JList? && v.items != [] then v.items[0] else JNull
  }

  /** One guarded fetch of a single record: the call, the decode and the
      extraction run inside a `try` whose handler leaves the record `None`. */
  function FetchRecord(env: Env, call: ToolOutcome): (r: Json)
    ensures call.Raised? ==> r == JNull
    ensures r != JNull ==> call.Returned?
  {
    match call
    case Raised(_) => JNull
    case Returned(raw) => FirstElement(SafeDecodeData(env, raw))
  }

  /** The value the record is extracted from. */
  ghost function DecodedResult(env: Env, call: ToolOutcome): (r: Json)
    requires call.Returned?
  {
    SafeDecodeData(env, call.raw)
  }

  /** The record is the head of the decoded value exactly when that value is
      a non-empty list; a raised call, an undecodable string, a non-list and
      an empty list all give no record. */
  lemma FetchRecordIsHeadOfDecodedList(env: Env, call: ToolOutcome)
    ensures call.Returned? && DecodedResult(env, call).JList? && DecodedResult(env, call).items != [] ==>
              FetchRecord(env, call) == DecodedResult(env, call).items[0]
    ensures !(call.Returned? && DecodedResult(env, call).JList? && DecodedResult(env, call).items != []) ==>
              FetchRecord(env, call) == JNull
  {
  }

  /** A list sent as JSON text and the same list sent as a value give the
      same record: decoding is transparent to the extraction. */
  lemma FetchRecordTextTransparent(env: Env, text: string, items: seq<Json>)
    requires env.loads(text) == Decoded(JList(items))
    ensures FetchRecord(env, Returned(JStr(text))) == FetchRecord(env, Returned(JList(items)))
    ensures items != [] ==> FetchRecord(env, Returned(JStr(text))) == items[0]
  {
  }

  /** `safe_load_tool_result`: a string is decoded (the decoded value is
      returned whatever its type, and a decode failure gives `[]`); any other
      value is kept only if it is a list. */
  function SafeLoadToolResult(env: Env, result: Json): (r: Json)
    ensures !result.JStr? ==> r.JList?
    ensures result.JList? ==> r == result
    ensures !result.JStr? && !result.JList? ==> r == JList([])
    ensures result.JStr? && env.loads(result.s).DecodeError? ==> r == JList([])
    ensures result.JStr? && env.loads(result.s).Decoded? ==> r == env.loads(result.s).value
  {
    match result
    case JStr(text) =>
      (match env.loads(text)
       case Decoded(v) => v
       case DecodeError(_) => JList([]))
    case JList(_) => result
    case _ => JList([])
  }
}
