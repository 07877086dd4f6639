/** `track_user_view`: validation of a view event and the record handed to
    the interaction store's insert tool. */
module Tracking {
  import opened Values

  const DefaultUserId := JStr("User")
  const ViewDetails := JStr("User viewed this product.")

  /** What `POST /track/view` answers. */
  datatype TrackReply =
    | Tracked(insertedId: Json)      // 201: "Interaction tracked successfully (via MongoDB)."
    | MissingProductId               // 400: "product_id is required for tracking."
    | InsertFailed(details: string)  // 500: "Failed to record user interaction."
    | Unhandled(error: PyError)      // the body is not a dict: `data.get` raises, Flask answers 500

  /** The reply, and the event record sent (as JSON text) to the insert
      tool when the handler got as far as invoking it: the record is built
      only after the tool has been loaded. */
  datatype TrackRun = TrackRun(reply: TrackReply, sent: Option<Dict>)

  /** The record of one view; `timestamp` is the UTC ISO-8601 time read by
      the handler, supplied here by the caller of the model. */
  function ViewEvent(userId: Json, productId: Json, timestamp: string): (r: Dict) {
    map["user_id" := userId, "product_id" := productId, "details" := ViewDetails, "timestamp" := JStr(timestamp)]
  }

  /** `POST /track/view` */
  function TrackUserView(body: Json, timestamp: string, insert: WriteCall): (r: TrackRun)
    ensures !body.JObj? ==> r == TrackRun(Unhandled(AttributeError), None)
    ensures body.JObj? && !Truthy(Get(body.fields, "product_id", JNull)) ==>
      r == TrackRun(MissingProductId, None)
    ensures r.sent.Some? <==> body.JObj? && Truthy(Get(body.fields, "product_id", JNull)) && insert.Invoked?
    ensures r.sent.Some? ==>
      && r.sent.value.Keys == {"user_id", "product_id", "details", "timestamp"}
      && r.sent.value["user_id"] == (if "user_id" in body.fields then body.fields["user_id"] else DefaultUserId)
      && r.sent.value["product_id"] == body.fields["product_id"]
      && r.sent.value["details"] == ViewDetails
      && r.sent.value["timestamp"] == JStr(timestamp)
    ensures body.JObj? && Truthy(Get(body.fields, "product_id", JNull)) ==>
      r.reply == match insert
        case NotLoaded(message) => InsertFailed(message)
        case Invoked(Raised(message)) => InsertFailed(message)
        case Invoked(Returned(id)) => Tracked(id)
  {
    if !body.JObj? then TrackRun(Unhandled(AttributeError), None)
    else
      var userId := Get(body.fields, "user_id", DefaultUserId);
      var productId := Get(body.fields, "product_id", JNull);
      if !Truthy(productId) then TrackRun(MissingProductId, None)
      else
        match insert
        case NotLoaded(message) => TrackRun(InsertFailed(message), None)
        case Invoked(outcome) =>
          var event := ViewEvent(userId, productId, timestamp);
          match outcome
          case Returned(id) => TrackRun(Tracked(id), Some(event))
          case Raised(message) => TrackRun(InsertFailed(message), Some(event))
  }
}
