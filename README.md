# style-hub product service — a Dafny model

`app.py` is a Flask service that serves a clothing catalogue. Its data is spread over three stores reached through toolbox tools:

- the core store (AlloyDB), which holds sku, price and stock;
- the details store (MongoDB), which holds flexible catalogue details and user interactions;
- the ranking store (BigQuery).

This project models the decision code inside the service's route handlers. It is written as Dafny over an abstract JSON value. A tool call that reads appears as its outcome: it either raised, or it returned a raw value. A tool call that writes also says whether loading the tool failed before anything was sent.

| module | file | models |
|---|---|---|
| `Values` | values.dfy | JSON values, Python truthiness, `dict.get`, tool outcomes and write calls, the interpreter's own exceptions |
| `Config` | config.dfy | the bucket and fallback-image variables, the two image URL roots, `json.loads` and `str()` as parameters |
| `Normalize` | normalize.dfy | `safe_decode_data`, `safe_load_tool_result`, the guarded single-record fetch |
| `Reconciliation` | reconciliation.dfy | the four-scenario merge/fallback, the image enrichment, `get_product` and `get_product_by_id` |
| `Catalog` | catalog.dfy | `list_products`: the two per-source loops and the concatenated catalogue |
| `Tracking` | tracking.dfy | `track_user_view`: validation and the event record |
| `Etl` | etl.dfy | `run_etl_to_bigquery`: the empty short-circuit and the processed count |
| `Ranking` | ranking.dfy | `get_top_5_products`: the per-row loop over the ranking |

How the model is built:

- Every handler answers with a datatype whose constructors carry the HTTP status in a comment.
- An exception that escapes a handler is named (`KeyError`, `TypeError`, `AttributeError`). The model follows the order in which Python evaluates the statements. For example, the right-hand side of an item assignment is evaluated before the target is checked.
- The two loops that append to a list (`list_products` and the top-N loop) are methods with `while` loops. Each is proved equal to a recursive function.
- The single-product path has no loop. It builds a fresh local dict and assigns into it, which is modelled as map updates inside functions.

Some of what `app.py` does differs from what one might expect of such a service. The model follows `app.py`:

- One might expect the recorded view event to carry an event kind. It has none: `event_type` is assigned but never stored (app.py:258, 268-273).
- One might expect an empty ETL run to report zero products processed. It answers only a message (app.py:401-402).
- One might expect `products_processed` to count the rows of the summary. It is `len` of the summary as the tool returned it, undecoded, so a summary returned as JSON text reports its number of characters (app.py:399, 417).
- One might expect every returned product to carry non-null image fields. When `FALLBACK_IMAGE_URL` is unset, `fallback_url` is `None`, and so is `image_url` whenever the fallback branch is taken (app.py:16, 132-137, 194-201, 225-231).
- One might expect a details-only product without a sku to show the fallback image. It gets the synthesized sku `SYNTH-001`, which is truthy and not `N/A`, so its image is a bucket path (app.py:118, 132-133).
- One might expect a top-N row whose core record cannot be used to be skipped. A core record without `sku` aborts the whole ranking response instead (app.py:492, 502).

## Model

| member | source | states |
|---|---|---|
| Normalize.SafeDecodeData | app.py:35-42 | a non-string passes through unchanged; a string decodes to its JSON value, or to `None` when decoding fails |
| Normalize.FetchRecord | app.py:71-82 | a raised fetch gives no record, and any record comes from a returned call |
| Normalize.FetchRecordIsHeadOfDecodedList | app.py:79 | the record is the first element exactly when the decoded value is a non-empty list; otherwise it is `None` |
| Normalize.FetchRecordTextTransparent | app.py:76-79 | a list sent as JSON text and the same list sent as a value give the same record |
| Normalize.SafeLoadToolResult | app.py:163-170 | a list is kept; any other non-string gives `[]`; a string gives its decoded value, whatever its type, or `[]` when decoding fails |
| Reconciliation.SynthCore | app.py:114-121 | the synthesized core has exactly the six fields; its name starts with `MongoDB Product: `; price and stock are the placeholders; without a details sku its sku is usable (truthy and not `N/A`) |
| Reconciliation.Reconcile | app.py:99-126 | a merged product keeps every core key when the core record is present, has all six synthesized fields otherwise, carries every details value unchanged when details are present, and has the partial note when they are not |
| Reconciliation.DetailsTakePrecedence | app.py:100-105 | with both records present, the keys are the union; every details key carries its details value, and every other core key keeps its core value |
| Reconciliation.CoreOnlyIsPartial | app.py:103-108 | with only the core record present, the product is that record plus the partial-mode note |
| Reconciliation.PartialNoteExactlyWhenDetailsMissing | app.py:107-108 | with the core record present, the note is written when details are missing; otherwise the product is exactly the overlay |
| Reconciliation.FallbackSynthesizesCore | app.py:110-122 | with only the details record present, it sets: the name from the category (or `Generic`), price 39.99, stock 999, the fallback note, and the sku from the details or `SYNTH-001`; details keys override all of these |
| Reconciliation.BothMissingExactlyWhenNoRecord | app.py:124-126 | the not-found scenario happens exactly when both records are falsy |
| Reconciliation.MergeRaisesExactlyOnNonDict | app.py:100-122 | the merge raises exactly when a present record is not a dict |
| Reconciliation.Enrich | app.py:129-137 | it adds `image_url` and `fallback_url`, `fallback_url` is the fallback image, and every other key is unchanged |
| Reconciliation.EnrichedImageUrl | app.py:130-137 | `image_url` is the bucket path of the sku when the sku is truthy and not `N/A`; otherwise it is the fallback image |
| Reconciliation.EnrichIdempotent | app.py:129-137 | enriching an enriched product changes nothing |
| Reconciliation.SynthesizedSkuGetsBucketImage | app.py:118-133 | a details-only product without a sku gets the bucket image of `SYNTH-001` |
| Reconciliation.EnrichedUrlsAreStrings | app.py:16 | with the fallback variable set, both image fields are strings |
| Reconciliation.ResolveProduct | app.py:70-140 | a product always carries both image fields; not-found echoes the id; the missing-id answer never comes from here |
| Reconciliation.GetProduct | app.py:60-140 | not-found echoes the path id; this route never answers missing-id |
| Reconciliation.GetProductById | app.py:293-384 | a non-dict body raises `AttributeError`; the 400 answer comes exactly when `product_id` is falsy; not-found echoes the body's id |
| Reconciliation.ByIdReducesToGetProduct | app.py:293-384 | for the same non-empty id, both handlers give the same answer |
| Reconciliation.ByIdRequiresProductId | app.py:299-304 | a missing or falsy `product_id` gives 400, whatever the stores hold |
| Reconciliation.NotFoundExactlyWhenBothFetchesMiss | app.py:124-126 | 404 comes exactly when neither guarded fetch yields a record |
| Catalog.ListingImages | app.py:194-201 | the item gains `image_url` and `fallback_url`; `fallback_url` is the fallback image; a truthy sku gives the bucket path, and otherwise `image_url` equals `fallback_url`; other keys unchanged |
| Catalog.Listing | app.py:189-233 | one item: its keys gain source, image and fallback fields (and name and price for details items); the source label; the details name and price; `image_url` is the bucket path of a truthy sku, with no `N/A` test, and otherwise the fallback image; other keys unchanged |
| Catalog.Listed | app.py:189-203 | no more items come out than went in, and each is tagged with its source |
| Catalog.Contribution | app.py:185-212 | a source contributes something only when its call returned and loaded as a list |
| Catalog.CatalogOf | app.py:239-243 | 500 exactly when neither source contributes; otherwise the catalogue is core items followed by details items |
| Catalog.AppendSource | app.py:214-233 | the loop appends exactly the listings of the source's items, stopping at the first non-dict item |
| Catalog.AddSource | app.py:185-212 | one source's guarded block appends exactly that source's contribution |
| Catalog.ListProducts | app.py:175-243 | the handler answers `CatalogOf` of the two calls |
| Catalog.ListedIsDictPrefix | app.py:189-206 | a source contributes the listings of its longest prefix of dict items, in order |
| Catalog.ListedAllExactlyWhenAllDicts | app.py:189-203 | every item is listed exactly when every item is a dict |
| Catalog.CatalogOfDictLists | app.py:182-243 | for two lists of dicts, the catalogue is all core items in order, then all details items in order; its length is the sum |
| Catalog.ListingIsolation | app.py:205-237 | a failed core call does not hide the details items: they are all listed, tagged as details |
| Catalog.ListingImageVersusEnrich | app.py:194-195 | a listed core item gets the same image as single-product enrichment, except that the sku `N/A` gets a bucket path in the listing |
| Tracking.TrackUserView | app.py:248-289 | a non-dict body raises; a falsy `product_id` gives 400 and nothing is sent; the event is sent exactly when `product_id` is truthy and the insert tool loaded; it has exactly four keys: `user_id` (defaulting to `User`), the body's `product_id`, the fixed `details` text and the timestamp; the reply follows the load and insert outcome |
| Etl.RunEtl | app.py:387-422 | nothing to transfer exactly when the summary is falsy; the merge tool is invoked with the summary exactly when the summary is truthy and the merge tool loaded; a raised read, a load failure or a raised merge fails the run with that message; after a clean merge the run reports the summary's length, which is positive, or fails with `TypeError` when the summary has no length |
| Etl.PyLen | app.py:417 | `len` is defined exactly on strings, lists and dicts, and there it is positive exactly when the value is truthy |
| Etl.ProcessedCountsRows | app.py:417 | a non-empty list of totals reports one processed product per row |
| Etl.TextSummaryCountsCharacters | app.py:399-417 | a summary returned as non-empty JSON text reports the number of characters of the text as processed |
| Etl.UnsizedSummaryFailsAfterMerge | app.py:412-417 | a truthy summary without a length is still merged, and only then does the count fail |
| Ranking.RowRecord | app.py:456-471 | the top-N loop's inline fetch is the same normalisation as the single-record fetch |
| Ranking.ResolveRow | app.py:451-498 | a row is skipped exactly when it names a product whose fetch yields no record; a kept row has a record |
| Ranking.KeptRowIsAnnotatedRecord | app.py:487-492 | a kept product is its core record with `total_views` set to the score and `image_url` set to the thumbnail of its sku; other fields unchanged |
| Ranking.CollectDrawsFromSteps | app.py:451-498 | each product the loop returns comes from a kept row and each error from an aborting row; there are no more products than rows |
| Ranking.RankedProducts | app.py:451-498 | a successful ranking has at most one product per row, and each product carries `total_views` and `image_url` and comes from a row with a core record; an error comes from a row that raised it |
| Ranking.ResolveRows | app.py:451-498 | the loop returns the kept products in row order, or the first error raised outside the guarded fetch |
| Ranking.RankingRows | app.py:451 | iterating a list visits its items; an empty dict or string visits nothing; iterating anything else fails with `TypeError` |
| Ranking.TopProducts | app.py:437-449 | "no views" comes exactly when the raw response is falsy; the decode error comes only for a string response |
| Ranking.GetTop5Products | app.py:426-503 | the handler answers `TopProducts` of its inputs |
| Ranking.RankedIsOrderedSelection | app.py:451-498 | a successful ranking selects rows at increasing indices, each product comes from its row, and a row is selected exactly when its fetch yields a record |
| Ranking.SkippedRowIsInvisible | app.py:463-471 | removing a row without a core record does not change the result |
| Ranking.AbortingRowFailsRanking | app.py:451-502 | a row that raises outside the guarded fetch fails the whole ranking, whatever follows it |
| Ranking.SkulessRecordFailsResponse | app.py:492 | a core record without a sku fails the response with `KeyError('sku')` |
| Ranking.EmptyRankingTextIsEmptyRanking | app.py:437-451 | a ranking sent as the text of an empty list is an empty ranking, not "no views" |
| Config.TopBaseUrlAgreesWhenBucketSet | app.py:442 | the top-N image root equals `GCS_BASE_URL` exactly when the bucket variable is set |

## Left out

- Flask routing, the two template pages, `jsonify` and the HTTP status codes (app.py:44-56, 508-511). Replies are datatypes, and each constructor's comment gives the status code and message.
- Building `ToolboxClient`, `load_tool`/`invoke`, and loading the environment at startup (app.py:8-31). Each read is a `ToolOutcome` parameter, or a function parameter for the per-row fetch in top-N. Each write is a `WriteCall` parameter. The two environment variables are fields of `Env`.
- The internals of `json.loads` and `json.dumps`, and the text `str()` gives for a non-string value. These are library code; `Env.loads` and `Env.format` stand for them. `json.dumps` of the event record cannot fail on a JSON value, so it is not modelled.
- `request.json` failing on a body that is not JSON. The body is modelled as an already parsed JSON value.
- The clock read for the event timestamp (app.py:272). The timestamp is a parameter.
- The category statistics route (app.py:144-160). It passes the tool's answer through without any logic.
- The BigQuery MERGE behind the ETL write. Its idempotence happens in the remote store; the model records only which summary was handed to the merge tool.
- `print` logging.
- Floating-point values. The price 39.99 is a constant, and no arithmetic is done on it.
- The commented-out details fetch in top-N (app.py:473-485, 494-496). It is dead code.
- Exception message texts. An exception raised by the interpreter is modelled by its kind; a tool failure carries its message.
- The insertion order of dict keys. A dict is a map.
- In-place updates and aliasing. The listing and top-N loops assign into dicts that come straight from a tool result and are never shared, so each dict is modelled as a value and the loop appends the updated value.
