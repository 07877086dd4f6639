/** `run_etl_to_bigquery`: read the interaction totals and hand them to the
    ranking store's merge tool, reporting how many were processed. */
module Etl {
  import opened Values

  /** What `POST /etl/run` answers. */
  datatype EtlReply =
    | NothingToTransfer             // 200: "No interaction data to transfer."
    | Transferred(processed: nat)   // 200: `products_processed`
    | EtlFailed(fault: Fault)       // 500: "ETL orchestration failed."

  /** The reply, and the summary handed to the merge tool when it was
      invoked (it is not when loading the tool failed). */
  datatype EtlRun = EtlRun(reply: EtlReply, merged: Option<Json>)

  /** `len(v)`: the number of characters, items or keys; `None` where `len`
      raises a TypeError. For a sized value the length is positive exactly
      when the value is truthy. */
  function PyLen(v: Json): (r: Option<nat>)
    ensures r.Some? <==> v.JStr? || v.JList? || v.JObj?
    ensures r.Some? ==> (r.value > 0 <==> Truthy(v))
  {
    match v
    case JStr(s) => Some(|s|)
    case JList(items) => Some(|items|)
    case JObj(fields) => Some(|fields|)
    case _ => None
  }

  /** `POST /etl/run`. The summary is used as the tool returned it (it is
      not decoded); the count is taken after the merge call. */
  function RunEtl(summaryCall: ToolOutcome, mergeCall: WriteCall): (r: EtlRun)
    ensures r.reply.Transferred? ==>
      && summaryCall.Returned? && mergeCall.Invoked? && mergeCall.outcome.Returned?
      && r.merged == Some(summaryCall.raw)
      && PyLen(summaryCall.raw) == Some(r.reply.processed)
      && r.reply.processed > 0
    ensures r.reply == NothingToTransfer <==> summaryCall.Returned? && !Truthy(summaryCall.raw)
    ensures r.merged.Some? <==> summaryCall.Returned? && Truthy(summaryCall.raw) && mergeCall.Invoked?
    ensures r.merged.Some? ==> r.merged == Some(summaryCall.raw)
    ensures summaryCall.Raised? ==> r.reply == EtlFailed(ToolFailed(summaryCall.message))
    ensures summaryCall.Returned? && Truthy(summaryCall.raw) ==>
      r.reply == match mergeCall
        case NotLoaded(message) => EtlFailed(ToolFailed(message))
        case Invoked(Raised(message)) => EtlFailed(ToolFailed(message))
        case Invoked(Returned(_)) =>
          if PyLen(summaryCall.raw).Some? then Transferred(PyLen(summaryCall.raw).value)
          else EtlFailed(PythonFailed(TypeError))
  {
    match summaryCall
    case Raised(message) => EtlRun(EtlFailed(ToolFailed(message)), None)
    case Returned(summary) =>
      if !Truthy(summary) then EtlRun(NothingToTransfer, None)
      else
        match mergeCall
        case NotLoaded(message) => EtlRun(EtlFailed(ToolFailed(message)), None)
        case Invoked(Raised(message)) => EtlRun(EtlFailed(ToolFailed(message)), Some(summary))
        case Invoked(Returned(_)) =>
          match PyLen(summary)
          case Some(n) => EtlRun(Transferred(n), Some(summary))
          case None => EtlRun(EtlFailed(PythonFailed(TypeError)), Some(summary))
  }

  /** A non-empty list of totals that merges cleanly reports one processed
      product per row. */
  lemma ProcessedCountsRows(rows: seq<Json>, mergeResponse: Json)
    requires rows != []
    ensures RunEtl(Returned(JList(rows)), Invoked(Returned(mergeResponse))) ==
      EtlRun(Transferred(|rows|), Some(JList(rows)))
  {
  }

  /** A summary returned as JSON text is not decoded: the count reported is
      the number of characters of the text, not the number of rows it holds. */
  lemma TextSummaryCountsCharacters(text: string, mergeResponse: Json)
    requires text != []
    ensures RunEtl(Returned(JStr(text)), Invoked(Returned(mergeResponse))).reply == Transferred(|text|)
  {
  }

  /** A truthy summary that has no length is still handed to the merge tool,
      and only then does the count fail. */
  lemma UnsizedSummaryFailsAfterMerge(summary: Json, mergeResponse: Json)
    requires Truthy(summary) && !summary.JStr? && !summary.JList? && !summary.JObj?
    ensures RunEtl(Returned(summary), Invoked(Returned(mergeResponse))) ==
      EtlRun(EtlFailed(PythonFailed(TypeError)), Some(summary))
  {
  }
}
