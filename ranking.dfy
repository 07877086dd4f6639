/** `get_top_5_products`: resolve the ranking rows read from the ranking
    store into core records, in ranking order, skipping rows whose core
    record cannot be fetched. */
module Ranking {
  import opened Values
  import opened Config
  import opened Normalize

  /** What `GET /analytics/top5` answers. */
  datatype TopReply =
    | NoViews                              // 200: "No views recorded in BigQuery for ranking."
    | Ranked(products: seq<Dict>)          // 200: the resolved products
    | RankingUndecodable(details: string)  // 500: "Error decoding JSON response from BigQuery tool."
    | QueryFailed(fault: Fault)            // 500: "BigQuery Analytics query failed."

  /** The core record of one row, decoded and extracted inline; any failure
      (the call, or a `JSONDecodeError`) is caught by the row's own
      `except` and leaves no record. It is the same normalisation as every
      other single-record fetch. */
  function RowRecord(env: Env, call: ToolOutcome): (r: Json)
    ensures r == FetchRecord(env, call)
  {
    match call
    case Raised(_) => JNull
    case Returned(raw) =>
      var response := if raw.JStr? then env.loads(raw.s) else Decoded(raw);
      match response
      case DecodeError(_) => JNull
      case Decoded(v) => if Truthy(v) && v.JList? && |v.items| > 0 then v.items[0] else JNull
  }

  /** A row that names a product and whose core fetch yields a record. */
  predicate HasRecord(env: Env, row: Json, coreTool: Json -> ToolOutcome) {
    row.JObj? && "product_id" in row.fields && Truthy(RowRecord(env, coreTool(row.fields["product_id"])))
  }

  /** `f"{gcs_base_url}/thumbnails/{sku}.jpg"` */
  function Thumbnail(env: Env, sku: Json): (r: Json) {
    JStr(TopBaseUrl(env) + "/thumbnails/" + Show(env, sku) + ".jpg")
  }

  /** What one iteration does with a row. */
  datatype Step = Skip | Keep(product: Dict) | Abort(error: PyError)

  /** One iteration of the loop. `top_item['product_id']`,
      `top_item['interaction_score']`, the item assignments into the record
      and `product['sku']` all run outside the row's `try`, so their errors
      abort the whole response; only the fetch itself is guarded. */
  function ResolveRow(env: Env, row: Json, coreTool: Json -> ToolOutcome): (r: Step)
    ensures r.Skip? <==> row.JObj? && "product_id" in row.fields && !HasRecord(env, row, coreTool)
    ensures r.Keep? ==> HasRecord(env, row, coreTool)
    ensures r.Keep? ==> "total_views" in r.product && "image_url" in r.product
  {
    if !row.JObj? then Abort(TypeError)
    else if "product_id" !in row.fields then Abort(KeyError("product_id"))
    else
      var core := RowRecord(env, coreTool(row.fields["product_id"]));
      if !Truthy(core) then Skip
      else if "interaction_score" !in row.fields then Abort(KeyError("interaction_score"))
      else if !core.JObj? then Abort(TypeError)
      else if "sku" !in core.fields then Abort(KeyError("sku"))
      else
        var scored := core.fields["total_views" := row.fields["interaction_score"]];
        Keep(scored["image_url" := Thumbnail(env, core.fields["sku"])])
  }

  /** A kept row is its core record with the row's score as `total_views`
      and the thumbnail of its sku as `image_url`; every other field of the
      record is unchanged. */
  lemma KeptRowIsAnnotatedRecord(env: Env, row: Json, coreTool: Json -> ToolOutcome)
    requires ResolveRow(env, row, coreTool).Keep?
    ensures var p := ResolveRow(env, row, coreTool).product;
      var core := RowRecord(env, coreTool(row.fields["product_id"]));
      && core.JObj? && "sku" in core.fields && "interaction_score" in row.fields
      && p.Keys == core.fields.Keys + {"total_views", "image_url"}
      && p["total_views"] == row.fields["interaction_score"]
      && p["image_url"] == Thumbnail(env, core.fields["sku"])
      && forall k :: k in core.fields && k != "total_views" && k != "image_url" ==> p[k] == core.fields[k]
  {
  }

  /** What each iteration does with each row. */
  function RowSteps(env: Env, rows: seq<Json>, coreTool: Json -> ToolOutcome): (steps: seq<Step>)
    ensures |steps| == |rows|
    ensures forall j :: 0 <= j < |rows| ==> steps[j] == ResolveRow(env, rows[j], coreTool)
  {
    seq(|rows|, j requires 0 <= j < |rows| => ResolveRow(env, rows[j], coreTool))
  }

  /** The loop, given what each iteration does: the kept products in row
      order, or the first error that escapes an iteration. */
  function Collect(steps: seq<Step>): (r: Result<seq<Dict>, PyError>) {
    if steps == [] then Ok([])
    else
      match steps[0]
      case Abort(e) => Err(e)
      case Skip => Collect(steps[1..])
      case Keep(p) => Prepend([p], Collect(steps[1..]))
  }

  function Prepend(done: seq<Dict>, rest: Result<seq<Dict>, PyError>): (r: Result<seq<Dict>, PyError>) {
    match rest
    case Ok(ps) => Ok(done + ps)
    case Err(e) => Err(e)
  }

  /** Everything the loop returns comes from the steps: each product from a
      kept step, an error from an aborting one. */
  lemma {:induction false} CollectDrawsFromSteps(steps: seq<Step>)
    ensures var r := Collect(steps);
      && (r.Ok? ==> |r.value| <= |steps| && forall k :: 0 <= k < |r.value| ==> Keep(r.value[k]) in steps)
      && (r.Err? ==> Abort(r.error) in steps)
  {
    if steps != [] {
      CollectDrawsFromSteps(steps[1..]);
      var r := Collect(steps);
      if r.Ok? && steps[0].Keep? {
        var rest := Collect(steps[1..]).value;
        forall k | 1 <= k < |r.value|
          ensures Keep(r.value[k]) in steps
        {
          assert r.value[k] == rest[k - 1];
          assert Keep(rest[k - 1]) in steps[1..];
        }
      }
    }
  }

  /** The loop over the ranking rows. */
  function RankedProducts(env: Env, rows: seq<Json>, coreTool: Json -> ToolOutcome): (r: Result<seq<Dict>, PyError>)
    ensures r.Ok? ==> |r.value| <= |rows|
    ensures r.Ok? ==> forall k :: 0 <= k < |r.value| ==>
      "total_views" in r.value[k] && "image_url" in r.value[k] &&
      exists j :: 0 <= j < |rows| && HasRecord(env, rows[j], coreTool) && ResolveRow(env, rows[j], coreTool) == Keep(r.value[k])
    ensures r.Err? ==> exists j :: 0 <= j < |rows| && ResolveRow(env, rows[j], coreTool) == Abort(r.error)
  {
    CollectDrawsFromSteps(RowSteps(env, rows, coreTool));
    Collect(RowSteps(env, rows, coreTool))
  }

  /** What `for top_item in top5_response` visits. A list gives its items.
      A dict or a string gives strings (keys, characters), and subscripting
      a string with 'product_id' raises a TypeError, so only an empty one
      gets through; any other value is not iterable. */
  function RankingRows(v: Json): (r: Result<seq<Json>, PyError>)
    ensures v.JList? ==> r == Ok(v.items)
    ensures !v.JList? ==> (r == Ok([]) <==> v == JObj(map[]) || v == JStr([]))
    ensures r.Err? ==> r.error == TypeError
  {
    match v
    case JList(items) => Ok(items)
    case JObj(fields) => if fields == map[] then Ok([]) else Err(TypeError)
    case JStr(s) => if s == [] then Ok([]) else Err(TypeError)
    case _ => Err(TypeError)
  }

  /** `GET /analytics/top5`. Only a falsy raw response means "no views"; a
      string is decoded after that test. */
  function TopProducts(env: Env, rankingCall: ToolOutcome, coreTool: Json -> ToolOutcome): (r: TopReply)
    ensures r == NoViews <==> rankingCall.Returned? && !Truthy(rankingCall.raw)
    ensures r.RankingUndecodable? ==> rankingCall.Returned? && rankingCall.raw.JStr?
  {
    match rankingCall
    case Raised(message) => QueryFailed(ToolFailed(message))
    case Returned(raw) =>
      if !Truthy(raw) then NoViews
      else
        var response := if raw.JStr? then env.loads(raw.s) else Decoded(raw);
        match response
        case DecodeError(message) => RankingUndecodable(message)
        case Decoded(v) =>
          match RankingRows(v)
          case Err(e) => QueryFailed(PythonFailed(e))
          case Ok(rows) =>
            match RankedProducts(env, rows, coreTool)
            case Err(e) => QueryFailed(PythonFailed(e))
            case Ok(ps) => Ranked(ps)
  }

  /** The for-loop over the rows. */
  method ResolveRows(env: Env, rows: seq<Json>, coreTool: Json -> ToolOutcome) returns (r: Result<seq<Dict>, PyError>)
    ensures r == RankedProducts(env, rows, coreTool)
  {
    ghost var steps := RowSteps(env, rows, coreTool);
    var topProductsList: seq<Dict> := [];
    var i := 0;
    assert steps[i..] == steps;
    assert Prepend([], Collect(steps)) == Collect(steps) by {
      if Collect(steps).Ok? {
        assert [] + Collect(steps).value == Collect(steps).value;
      }
    }
    while i < |rows|
      invariant 0 <= i <= |rows|
      invariant Prepend(topProductsList, Collect(steps[i..])) == Collect(steps)
    {
      assert steps[i..][0] == ResolveRow(env, rows[i], coreTool);
      assert steps[i..][1..] == steps[i + 1..];
      match ResolveRow(env, rows[i], coreTool) {
        case Abort(e) =>
          assert Collect(steps[i..]) == Err(e);
          return Err(e);
        case Skip =>
        case Keep(product) =>
          if Collect(steps[i + 1..]).Ok? {
            var later := Collect(steps[i + 1..]).value;
            assert topProductsList + ([product] + later) == (topProductsList + [product]) + later;
          }
          topProductsList := topProductsList + [product];
      }
      i := i + 1;
    }
    assert steps[i..] == [];
    assert topProductsList + [] == topProductsList;
    r := Ok(topProductsList);
  }

  /** `GET /analytics/top5` */
  method GetTop5Products(env: Env, rankingCall: ToolOutcome, coreTool: Json -> ToolOutcome) returns (reply: TopReply)
    ensures reply == TopProducts(env, rankingCall, coreTool)
  {
    if rankingCall.Raised? {
      return QueryFailed(ToolFailed(rankingCall.message));
    }
    var top5Response := rankingCall.raw;
    if !Truthy(top5Response) {
      return NoViews;
    }
    if top5Response.JStr? {
      match env.loads(top5Response.s) {
        case DecodeError(message) =>
          return RankingUndecodable(message);
        case Decoded(v) =>
          top5Response := v;
      }
    }
    var visited := RankingRows(top5Response);
    if visited.Err? {
      return QueryFailed(PythonFailed(visited.error));
    }
    var resolved := ResolveRows(env, visited.value, coreTool);
    match resolved {
      case Err(e) =>
        reply := QueryFailed(PythonFailed(e));
      case Ok(products) =>
        reply := Ranked(products);
    }
  }

  /** `ps` is the selection of the kept steps at the increasing indices
      `idx`. */
  ghost predicate SelectsKept(steps: seq<Step>, ps: seq<Dict>, idx: seq<nat>) {
    && |idx| == |ps|
    && (forall k :: 0 <= k < |idx| ==> idx[k] < |steps| && steps[idx[k]] == Keep(ps[k]))
    && (forall k, l :: 0 <= k < l < |idx| ==> idx[k] < idx[l])
    && (forall j :: 0 <= j < |steps| ==> (steps[j].Keep? <==> j in idx))
  }

  /** The indices of `rest`, each one higher: the positions of the same
      rows once one row is put in front. */
  lemma Shifted(rest: seq<nat>) returns (shifted: seq<nat>)
    ensures |shifted| == |rest|
    ensures forall k :: 0 <= k < |rest| ==> shifted[k] == rest[k] + 1
    ensures 0 !in shifted
    ensures forall j: nat :: j in rest <==> j + 1 in shifted
  {
    shifted := seq(|rest|, k requires 0 <= k < |rest| => rest[k] + 1);
    forall j: nat
      ensures j in rest <==> j + 1 in shifted
    {
      if j in rest {
        var k :| 0 <= k < |rest| && rest[k] == j;
        assert shifted[k] == j + 1;
      }
      if j + 1 in shifted {
        var k :| 0 <= k < |shifted| && shifted[k] == j + 1;
        assert rest[k] == j;
      }
    }
  }

  /** A skipped first step leaves the selection of the other steps,
      shifted. */
  lemma SelectsAfterSkip(steps: seq<Step>, ps: seq<Dict>, rest: seq<nat>) returns (idx: seq<nat>)
    requires steps != [] && steps[0] == Skip
    requires SelectsKept(steps[1..], ps, rest)
    ensures SelectsKept(steps, ps, idx)
  {
    idx := Shifted(rest);
    forall j | 1 <= j < |steps|
      ensures steps[j].Keep? <==> j in idx
    {
      assert steps[1..][j - 1] == steps[j];
      assert j - 1 in rest <==> j in idx;
    }
  }

  /** `idx` is 0 followed by each index of `rest` plus one. */
  ghost predicate InFront(idx: seq<nat>, rest: seq<nat>) {
    && |idx| == |rest| + 1
    && idx[0] == 0
    && forall k :: 0 <= k < |rest| ==> idx[k + 1] == rest[k] + 1
  }

  lemma KeptInFrontProducts(steps: seq<Step>, p: Dict, ps: seq<Dict>, rest: seq<nat>, idx: seq<nat>)
    requires steps != [] && steps[0] == Keep(p)
    requires SelectsKept(steps[1..], ps, rest) && InFront(idx, rest)
    ensures forall k :: 0 <= k < |idx| ==> idx[k] < |steps| && steps[idx[k]] == Keep(([p] + ps)[k])
  {
    forall k | 1 <= k < |idx|
      ensures idx[k] < |steps| && steps[idx[k]] == Keep(([p] + ps)[k])
    {
      assert idx[k] == rest[k - 1] + 1 && ([p] + ps)[k] == ps[k - 1];
      assert steps[1..][rest[k - 1]] == steps[idx[k]];
    }
  }

  lemma KeptInFrontOrder(rest: seq<nat>, idx: seq<nat>)
    requires forall k, l :: 0 <= k < l < |rest| ==> rest[k] < rest[l]
    requires InFront(idx, rest)
    ensures forall k, l :: 0 <= k < l < |idx| ==> idx[k] < idx[l]
  {
    forall k, l | 0 <= k < l < |idx|
      ensures idx[k] < idx[l]
    {
      assert idx[l] == rest[l - 1] + 1;
      if k > 0 {
        assert idx[k] == rest[k - 1] + 1;
      }
    }
  }

  lemma KeptInFrontMembers(steps: seq<Step>, ps: seq<Dict>, rest: seq<nat>, idx: seq<nat>)
    requires steps != [] && steps[0].Keep?
    requires SelectsKept(steps[1..], ps, rest) && InFront(idx, rest)
    ensures forall j :: 0 <= j < |steps| ==> (steps[j].Keep? <==> j in idx)
  {
    forall j | 1 <= j < |steps|
      ensures steps[j].Keep? <==> j in idx
    {
      assert steps[1..][j - 1] == steps[j];
      if j - 1 in rest {
        var k :| 0 <= k < |rest| && rest[k] == j - 1;
        assert idx[k + 1] == j;
      }
      if j in idx {
        var k :| 0 <= k < |idx| && idx[k] == j;
        assert rest[k - 1] == j - 1;
      }
    }
  }

  /** A kept first step is selected at index 0, before the shifted
      selection of the other steps. */
  lemma SelectsAfterKeep(steps: seq<Step>, p: Dict, ps: seq<Dict>, rest: seq<nat>) returns (idx: seq<nat>)
    requires steps != [] && steps[0] == Keep(p)
    requires SelectsKept(steps[1..], ps, rest)
    ensures SelectsKept(steps, [p] + ps, idx)
  {
    idx := [0] + seq(|rest|, k requires 0 <= k < |rest| => rest[k] + 1);
    KeptInFrontProducts(steps, p, ps, rest, idx);
    KeptInFrontOrder(rest, idx);
    KeptInFrontMembers(steps, ps, rest, idx);
  }

  /** A successful loop keeps exactly the kept steps, in order, and meets
      no aborting step on the way. */
  lemma {:induction false} CollectIsOrderedSelection(steps: seq<Step>) returns (idx: seq<nat>)
    requires Collect(steps).Ok?
    ensures SelectsKept(steps, Collect(steps).value, idx)
    ensures forall j :: 0 <= j < |steps| ==> !steps[j].Abort?
  {
    if steps == [] {
      idx := [];
    } else {
      var rest := CollectIsOrderedSelection(steps[1..]);
      assert forall j :: 1 <= j < |steps| ==> steps[j] == steps[1..][j - 1];
      var restPs := Collect(steps[1..]).value;
      match steps[0]
      case Skip =>
        idx := SelectsAfterSkip(steps, restPs, rest);
      case Keep(p) =>
        idx := SelectsAfterKeep(steps, p, restPs, rest);
    }
  }

  /** A successful ranking is an order-preserving selection of the rows: the
      returned indices are increasing, each names the row its product came
      from, and a row is selected exactly when its core fetch yields a
      record. */
  lemma RankedIsOrderedSelection(env: Env, rows: seq<Json>, coreTool: Json -> ToolOutcome) returns (idx: seq<nat>)
    requires RankedProducts(env, rows, coreTool).Ok?
    ensures var ps := RankedProducts(env, rows, coreTool).value;
      && |idx| == |ps|
      && (forall k :: 0 <= k < |idx| ==> idx[k] < |rows| && ResolveRow(env, rows[idx[k]], coreTool) == Keep(ps[k]))
      && (forall k, l :: 0 <= k < l < |idx| ==> idx[k] < idx[l])
      && (forall j :: 0 <= j < |rows| ==> (HasRecord(env, rows[j], coreTool) <==> j in idx))
  {
    var steps := RowSteps(env, rows, coreTool);
    idx := CollectIsOrderedSelection(steps);
    forall j | 0 <= j < |rows|
      ensures HasRecord(env, rows[j], coreTool) <==> j in idx
    {
      assert steps[j] == ResolveRow(env, rows[j], coreTool);
    }
  }

  /** The steps of consecutive runs of rows are the runs of their steps. */
  lemma RowStepsSplit(env: Env, pre: seq<Json>, row: Json, post: seq<Json>, coreTool: Json -> ToolOutcome)
    ensures RowSteps(env, pre + [row] + post, coreTool) ==
      RowSteps(env, pre, coreTool) + [ResolveRow(env, row, coreTool)] + RowSteps(env, post, coreTool)
    ensures RowSteps(env, pre + post, coreTool) == RowSteps(env, pre, coreTool) + RowSteps(env, post, coreTool)
  {
  }

  /** Dropping a skipped step does not change what the loop returns. */
  lemma {:induction false} SkipIsInvisible(pre: seq<Step>, post: seq<Step>)
    ensures Collect(pre + [Skip] + post) == Collect(pre + post)
  {
    if pre == [] {
      assert pre + [Skip] + post == [Skip] + post;
      assert ([Skip] + post)[1..] == post;
      assert pre + post == post;
    } else {
      SkipIsInvisible(pre[1..], post);
      assert (pre + [Skip] + post)[1..] == pre[1..] + [Skip] + post;
      assert (pre + post)[1..] == pre[1..] + post;
    }
  }

  /** Removing a row whose core record is missing does not change the
      result: such rows are silently omitted. */
  lemma SkippedRowIsInvisible(env: Env, pre: seq<Json>, row: Json, post: seq<Json>, coreTool: Json -> ToolOutcome)
    requires ResolveRow(env, row, coreTool).Skip?
    ensures RankedProducts(env, pre + [row] + post, coreTool) == RankedProducts(env, pre + post, coreTool)
  {
    RowStepsSplit(env, pre, row, post, coreTool);
    SkipIsInvisible(RowSteps(env, pre, coreTool), RowSteps(env, post, coreTool));
  }

  /** The first aborting step decides the loop's error. */
  lemma {:induction false} AbortStopsCollect(pre: seq<Step>, e: PyError, post: seq<Step>)
    requires forall k :: 0 <= k < |pre| ==> !pre[k].Abort?
    ensures Collect(pre + [Abort(e)] + post) == Err(e)
  {
    if pre == [] {
      assert pre + [Abort(e)] + post == [Abort(e)] + post;
    } else {
      AbortStopsCollect(pre[1..], e, post);
      assert (pre + [Abort(e)] + post)[1..] == pre[1..] + [Abort(e)] + post;
    }
  }

  /** A row whose processing raises outside the guarded fetch fails the
      whole ranking, whatever follows it. */
  lemma AbortingRowFailsRanking(env: Env, pre: seq<Json>, row: Json, post: seq<Json>, coreTool: Json -> ToolOutcome)
    requires forall k :: 0 <= k < |pre| ==> !ResolveRow(env, pre[k], coreTool).Abort?
    requires ResolveRow(env, row, coreTool).Abort?
    ensures RankedProducts(env, pre + [row] + post, coreTool) == Err(ResolveRow(env, row, coreTool).error)
  {
    RowStepsSplit(env, pre, row, post, coreTool);
    AbortStopsCollect(RowSteps(env, pre, coreTool), ResolveRow(env, row, coreTool).error, RowSteps(env, post, coreTool));
  }

  /** A core record without a sku is not skipped: it fails the whole
      response with a KeyError. */
  lemma SkulessRecordFailsResponse(env: Env, pre: seq<Json>, row: Json, post: seq<Json>, coreTool: Json -> ToolOutcome)
    requires forall k :: 0 <= k < |pre| ==> !ResolveRow(env, pre[k], coreTool).Abort?
    requires HasRecord(env, row, coreTool) && "interaction_score" in row.fields
    requires var core := RowRecord(env, coreTool(row.fields["product_id"])); core.JObj? && "sku" !in core.fields
    ensures TopProducts(env, Returned(JList(pre + [row] + post)), coreTool) == QueryFailed(PythonFailed(KeyError("sku")))
  {
    AbortingRowFailsRanking(env, pre, row, post, coreTool);
  }

  /** A ranking sent as the text of an empty list is not "no views": it is
      an empty ranking. */
  lemma EmptyRankingTextIsEmptyRanking(env: Env, text: string, coreTool: Json -> ToolOutcome)
    requires text != [] && env.loads(text) == Decoded(JList([]))
    ensures TopProducts(env, Returned(JStr(text)), coreTool) == Ranked([])
  {
  }
}
