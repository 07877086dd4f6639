/** Single-product reconciliation: the merge/fallback policy between the
    core (AlloyDB) record and the details (MongoDB) record, the image
    enrichment of the merged product, and the two handlers that share it,
    `get_product` and `get_product_by_id`. */
module Reconciliation {
  import opened Values
  import opened Config
  import opened Normalize

  const PartialNote := "PARTIAL MODE: MongoDB details missing."
  const FallbackNote := "FALLBACK MODE: Core data synthesized from MongoDB details."
  const SynthSku := "SYNTH-001"
  const SynthStock := JInt(999)
  /** The sku assumed when a merged product has none. */
  const NoSku := JStr("N/A")

  /** The outcome of the merge step. */
  datatype Merge =
    | Merged(product: Dict)
    | BothMissing            // Scenario D
    | MergeRaised(error: PyError)  // a record that is not a dict reached `**` or `.get`

  /** `{} if not raw else raw` */
  function OrEmpty(raw: Json): (r: Json) {
    if Truthy(raw) then raw else JObj(map[])
  }

  /** `synth_core`: the core fields made up from a details record. */
  function SynthCore(env: Env, details: Dict): (r: Dict)
    ensures r.Keys == {"product_id", "name", "price", "sku", "stock", "source_note"}
    ensures r["name"].JStr? && "MongoDB Product: " <= r["name"].s
    ensures "sku" !in details ==> Truthy(r["sku"]) && r["sku"] != NoSku
    ensures r["price"] == PlaceholderPrice && r["stock"] == SynthStock
  {
    map[
      "product_id" := Get(details, "product_id", JNull),
      "name" := JStr("MongoDB Product: " + Show(env, Get(details, "category", JStr("Generic")))),
      "price" := PlaceholderPrice,
      "sku" := Get(details, "sku", JStr(SynthSku)),
      "stock" := SynthStock,
      "source_note" := JStr(FallbackNote)
    ]
  }

  /** The four scenarios, tried in order: core present (merged with the
      details, which win on every shared key), core absent but details
      present (a synthesized core overlaid by the details), both absent. */
  function Reconcile(env: Env, rawCore: Json, rawDetails: Json): (r: Merge)
    ensures r.Merged? && Truthy(rawCore) ==> rawCore.JObj? && rawCore.fields.Keys <= r.product.Keys
    ensures r.Merged? && !Truthy(rawCore) ==>
      && Truthy(rawDetails) && rawDetails.JObj?
      && {"product_id", "name", "price", "sku", "stock", "source_note"} <= r.product.Keys
    ensures r.Merged? && Truthy(rawDetails) ==>
      rawDetails.JObj? && forall k :: k in rawDetails.fields ==> k in r.product && r.product[k] == rawDetails.fields[k]
    ensures r.Merged? && !Truthy(rawDetails) ==>
      "source_note" in r.product && r.product["source_note"] == JStr(PartialNote)
  {
    var core := OrEmpty(rawCore);
    var details := OrEmpty(rawDetails);
    if Truthy(core) then
      if !core.JObj? || !details.JObj? then MergeRaised(TypeError)
      else
        var full := core.fields + details.fields;
        if Truthy(details) then Merged(full)
        else Merged(full["source_note" := JStr(PartialNote)])
    else if Truthy(details) then
      if !details.JObj? then MergeRaised(AttributeError)
      else Merged(SynthCore(env, details.fields) + details.fields)
    else BothMissing
  }

  /** Scenario A: both records present. Every details key carries the
      details value, every other core key keeps its core value, and nothing
      else is added. */
  lemma DetailsTakePrecedence(env: Env, core: Dict, details: Dict)
    requires core != map[] && details != map[]
    ensures Reconcile(env, JObj(core), JObj(details)).Merged?
    ensures var p := Reconcile(env, JObj(core), JObj(details)).product;
      && p.Keys == core.Keys + details.Keys
      && (forall k :: k in details ==> p[k] == details[k])
      && (forall k :: k in core && k !in details ==> p[k] == core[k])
  {
  }

  /** Scenario C: only the core record. The product is the core record with
      the partial-mode note, and no details field is invented. */
  lemma CoreOnlyIsPartial(env: Env, core: Dict, rawDetails: Json)
    requires core != map[] && !Truthy(rawDetails)
    ensures Reconcile(env, JObj(core), rawDetails) == Merged(core["source_note" := JStr(PartialNote)])
    ensures Reconcile(env, JObj(core), rawDetails).product.Keys == core.Keys + {"source_note"}
  {
  }

  /** With the core record present, the merge step writes the partial note
      exactly when the details record is missing; otherwise the product is
      the plain overlay and this step adds no note of its own. */
  lemma PartialNoteExactlyWhenDetailsMissing(env: Env, core: Dict, rawDetails: Json)
    requires core != map[]
    requires !Truthy(rawDetails) || rawDetails.JObj?
    ensures Reconcile(env, JObj(core), rawDetails).Merged?
    ensures !Truthy(rawDetails) ==>
      Reconcile(env, JObj(core), rawDetails).product["source_note"] == JStr(PartialNote)
    ensures Truthy(rawDetails) ==>
      Reconcile(env, JObj(core), rawDetails).product == core + rawDetails.fields
  {
  }

  /** Scenario B: only the details record. The details keys win over a
      synthesized core whose name comes from the category (or "Generic"),
      whose price, stock and note are the placeholders, and whose sku is the
      details sku or SYNTH-001 — so the product always has a sku. */
  lemma FallbackSynthesizesCore(env: Env, rawCore: Json, details: Dict)
    requires !Truthy(rawCore) && details != map[]
    ensures Reconcile(env, rawCore, JObj(details)).Merged?
    ensures var p := Reconcile(env, rawCore, JObj(details)).product;
      && p.Keys == details.Keys + {"product_id", "name", "price", "sku", "stock", "source_note"}
      && (forall k :: k in details ==> p[k] == details[k])
      && ("name" !in details ==>
            p["name"] == JStr("MongoDB Product: " +
              if "category" in details then Show(env, details["category"]) else "Generic"))
      && ("price" !in details ==> p["price"] == PlaceholderPrice)
      && ("stock" !in details ==> p["stock"] == SynthStock)
      && ("source_note" !in details ==> p["source_note"] == JStr(FallbackNote))
      && ("product_id" !in details ==> p["product_id"] == JNull)
      && p["sku"] == (if "sku" in details then details["sku"] else JStr(SynthSku))
  {
  }

  /** Scenario D happens exactly when neither record is present. */
  lemma BothMissingExactlyWhenNoRecord(env: Env, rawCore: Json, rawDetails: Json)
    ensures Reconcile(env, rawCore, rawDetails) == BothMissing <==> !Truthy(rawCore) && !Truthy(rawDetails)
  {
  }

  /** The merge raises exactly when a present record is not a dict. */
  lemma MergeRaisesExactlyOnNonDict(env: Env, rawCore: Json, rawDetails: Json)
    ensures Reconcile(env, rawCore, rawDetails).MergeRaised? <==>
      (Truthy(rawCore) && !rawCore.JObj?) || (Truthy(rawDetails) && !rawDetails.JObj?)
  {
  }

  /** The final enrichment: `image_url` is built from the sku unless the sku
      is falsy or the "N/A" placeholder, in which case it is the fallback
      image; `fallback_url` is always the fallback image. */
  function Enrich(env: Env, product: Dict): (r: Dict)
    ensures r.Keys == product.Keys + {"image_url", "fallback_url"}
    ensures r["fallback_url"] == FallbackImageUrl(env)
    ensures forall k :: k in product && k != "image_url" && k != "fallback_url" ==> r[k] == product[k]
  {
    var sku := Get(product, "sku", NoSku);
    var image := if Truthy(sku) && sku != NoSku then ImageUrl(env, GcsBaseUrl(env), sku) else FallbackImageUrl(env);
    product["image_url" := image]["fallback_url" := FallbackImageUrl(env)]
  }

  /** The image URL is the bucket path of a usable sku, and the fallback for
      a missing, empty or "N/A" sku. */
  lemma EnrichedImageUrl(env: Env, product: Dict)
    ensures "sku" in product && Truthy(product["sku"]) && product["sku"] != NoSku ==>
      Enrich(env, product)["image_url"] == JStr(GcsBaseUrl(env) + "/" + Show(env, product["sku"]) + ".jpg")
    ensures "sku" !in product || !Truthy(product["sku"]) || product["sku"] == NoSku ==>
      Enrich(env, product)["image_url"] == FallbackImageUrl(env)
  {
  }

  /** Enriching an enriched product changes nothing. */
  lemma EnrichIdempotent(env: Env, product: Dict)
    ensures Enrich(env, Enrich(env, product)) == Enrich(env, product)
  {
    var once := Enrich(env, product);
    assert Get(once, "sku", NoSku) == Get(product, "sku", NoSku);
    assert once["image_url"] == Enrich(env, once)["image_url"];
  }

  /** A details-only record without a sku ends with the synthesized sku,
      which is a usable sku: its image is a bucket path, not the fallback. */
  lemma SynthesizedSkuGetsBucketImage(env: Env, rawCore: Json, details: Dict)
    requires !Truthy(rawCore) && details != map[] && "sku" !in details
    ensures Reconcile(env, rawCore, JObj(details)).Merged?
    ensures Enrich(env, Reconcile(env, rawCore, JObj(details)).product)["image_url"] ==
      ImageUrl(env, GcsBaseUrl(env), JStr(SynthSku))
  {
    FallbackSynthesizesCore(env, rawCore, details);
  }

  /** With the fallback variable set, both image fields are strings. */
  lemma EnrichedUrlsAreStrings(env: Env, product: Dict)
    requires env.fallbackVar.Some?
    ensures Enrich(env, product)["image_url"].JStr? && Enrich(env, product)["fallback_url"].JStr?
  {
  }

  /** What a single-product handler answers. */
  datatype ProductReply =
    | Product(product: Dict)     // 200: the enriched product
    | NotFound(productId: Json)  // 404: "Product ID {id} not found in any data store."
    | MissingProductId           // 400: "product_id is required."
    | Unhandled(error: PyError)  // an exception escapes the handler: Flask answers 500

  /** Steps 1-4 shared verbatim by both handlers: the two isolated fetches,
      the merge and the enrichment. */
  function ResolveProduct(env: Env, productId: Json, coreCall: ToolOutcome, detailsCall: ToolOutcome): (r: ProductReply)
    ensures r.Product? ==> "image_url" in r.product && "fallback_url" in r.product && r.product["fallback_url"] == FallbackImageUrl(env)
    ensures r.NotFound? ==> r.productId == productId
    ensures !r.MissingProductId?
  {
    match Reconcile(env, FetchRecord(env, coreCall), FetchRecord(env, detailsCall))
    case Merged(p) => Product(Enrich(env, p))
    case BothMissing => NotFound(productId)
    case MergeRaised(e) => Unhandled(e)
  }

  /** `GET /products/<product_id>` */
  function GetProduct(env: Env, productId: string, coreCall: ToolOutcome, detailsCall: ToolOutcome): (r: ProductReply)
    ensures r.NotFound? ==> r.productId == JStr(productId)
    ensures !r.MissingProductId?
  {
    ResolveProduct(env, JStr(productId), coreCall, detailsCall)
  }

  /** `POST /product_by_id`: `product_id` comes from the JSON body and is
      required; a body that is not a dict fails at `data.get`. */
  function GetProductById(env: Env, body: Json, coreCall: ToolOutcome, detailsCall: ToolOutcome): (r: ProductReply)
    ensures !body.JObj? ==> r == Unhandled(AttributeError)
    ensures r.MissingProductId? <==> body.JObj? && !Truthy(Get(body.fields, "product_id", JNull))
    ensures r.NotFound? ==> r.productId == body.fields["product_id"]
  {
    if !body.JObj? then Unhandled(AttributeError)
    else
      var productId := Get(body.fields, "product_id", JNull);
      if !Truthy(productId) then MissingProductId
      else ResolveProduct(env, productId, coreCall, detailsCall)
  }

  /** Both handlers answer the same for the same non-empty product id. */
  lemma ByIdReducesToGetProduct(env: Env, body: Dict, productId: string, coreCall: ToolOutcome, detailsCall: ToolOutcome)
    requires "product_id" in body && body["product_id"] == JStr(productId) && productId != ""
    ensures GetProductById(env, JObj(body), coreCall, detailsCall) == GetProduct(env, productId, coreCall, detailsCall)
  {
  }

  /** A missing or falsy `product_id` is rejected whatever the stores hold. */
  lemma ByIdRequiresProductId(env: Env, body: Dict, coreCall: ToolOutcome, detailsCall: ToolOutcome)
    requires !Truthy(Get(body, "product_id", JNull))
    ensures GetProductById(env, JObj(body), coreCall, detailsCall) == MissingProductId
  {
  }

  /** The 404 answer echoes the id and happens exactly when neither fetch
      yields a record; a failed fetch on one side never hides the other. */
  lemma NotFoundExactlyWhenBothFetchesMiss(env: Env, productId: string, coreCall: ToolOutcome, detailsCall: ToolOutcome)
    ensures GetProduct(env, productId, coreCall, detailsCall) == NotFound(JStr(productId)) <==>
      !Truthy(FetchRecord(env, coreCall)) && !Truthy(FetchRecord(env, detailsCall))
  {
  }
}
