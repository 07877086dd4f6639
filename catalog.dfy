/** `list_products`: the catalog listing that concatenates the core and the
    details catalogs, tagging and enriching every item on its own. The two
    sources are never merged by product id. */
module Catalog {
  import opened Values
  import opened Config
  import opened Normalize
  import Reconciliation

  datatype Origin = Core | Details

  /** The `source` label of each catalog. */
  function SourceLabel(origin: Origin): (r: string) {
    match origin
    case Core => "AlloyDB (Core)"
    case Details => "MongoDB (Details)"
  }

  /** The keys the loop body writes into an item. */
  function WrittenKeys(origin: Origin): (r: set<string>) {
    {"source", "image_url", "fallback_url"} + if origin == Details then {"name", "price"} else {}
  }

  /** The image fields of a listing item; unlike the single-product
      enrichment, only the sku's truthiness is tested. */
  function ListingImages(env: Env, product: Dict, sku: Json): (r: Dict)
    ensures r.Keys == product.Keys + {"image_url", "fallback_url"}
    ensures r["fallback_url"] == FallbackImageUrl(env)
    ensures Truthy(sku) ==> r["image_url"] == ImageUrl(env, GcsBaseUrl(env), sku)
    ensures !Truthy(sku) ==> r["image_url"] == r["fallback_url"]
    ensures forall k :: k in product && k != "image_url" && k != "fallback_url" ==> r[k] == product[k]
  {
    var image := if Truthy(sku) then ImageUrl(env, GcsBaseUrl(env), sku) else FallbackImageUrl(env);
    product["image_url" := image]["fallback_url" := FallbackImageUrl(env)]
  }

  /** The loop body for one dict item: the sku is read first, a details item
      gets its category as name and the placeholder price, and both get
      their source label and image fields. */
  function Listing(env: Env, origin: Origin, product: Dict): (r: Dict)
    ensures r.Keys == product.Keys + WrittenKeys(origin)
    ensures r["source"] == JStr(SourceLabel(origin))
    ensures r["fallback_url"] == FallbackImageUrl(env)
    ensures origin == Details ==> r["name"] == Get(product, "category", JNull) && r["price"] == PlaceholderPrice
    ensures var sku := Get(product, "sku", JNull);
      r["image_url"] == if Truthy(sku) then ImageUrl(env, GcsBaseUrl(env), sku) else FallbackImageUrl(env)
    ensures forall k :: k in product && k !in WrittenKeys(origin) ==> r[k] == product[k]
  {
    var sku := Get(product, "sku", JNull);
    match origin
    case Core =>
      ListingImages(env, product["source" := JStr(SourceLabel(Core))], sku)
    case Details =>
      var named := product["name" := Get(product, "category", JNull)]["price" := PlaceholderPrice];
      ListingImages(env, named["source" := JStr(SourceLabel(Details))], sku)
  }

  /** The for-loop over one source's items. The first item that is not a
      dict makes `.get` raise; the source's `except` swallows it, so the
      items already appended stay and the rest are dropped. */
  function Listed(env: Env, origin: Origin, items: seq<Json>): (r: seq<Dict>)
    ensures |r| <= |items|
    ensures forall k :: 0 <= k < |r| ==> "source" in r[k] && r[k]["source"] == JStr(SourceLabel(origin))
  {
    if items == [] || !items[0].JObj? then []
    else [Listing(env, origin, items[0].fields)] + Listed(env, origin, items[1..])
  }

  /** What one source adds: nothing when its call raised, when the loaded
      value is not a list (iterating a dict or a string visits strings,
      whose `.get` raises; other values are not iterable — both caught), or
      else the listed items. */
  function Contribution(env: Env, origin: Origin, call: ToolOutcome): (r: seq<Dict>)
    ensures r != [] ==> call.Returned? && SafeLoadToolResult(env, call.raw).JList?
  {
    match call
    case Raised(_) => []
    case Returned(raw) =>
      var loaded := SafeLoadToolResult(env, raw);
      if loaded.JList? then Listed(env, origin, loaded.items) else []
  }

  /** What `GET /products` answers. */
  datatype CatalogReply =
    | Catalog(products: seq<Dict>)  // 200: the concatenated catalog
    | NoProducts                    // 500: "No products loaded from any source."

  /** The listing: core items then details items; an error only when both
      contribute nothing. */
  function CatalogOf(env: Env, coreCall: ToolOutcome, detailsCall: ToolOutcome): (r: CatalogReply)
    ensures r == NoProducts <==> Contribution(env, Core, coreCall) == [] && Contribution(env, Details, detailsCall) == []
    ensures r.Catalog? ==> r.products == Contribution(env, Core, coreCall) + Contribution(env, Details, detailsCall)
  {
    var all := Contribution(env, Core, coreCall) + Contribution(env, Details, detailsCall);
    if all == [] then NoProducts else Catalog(all)
  }

  /** One step of the loop: a dict item is listed before the rest. */
  lemma ListedDict(env: Env, origin: Origin, items: seq<Json>)
    requires items != [] && items[0].JObj?
    ensures Listed(env, origin, items) == [Listing(env, origin, items[0].fields)] + Listed(env, origin, items[1..])
  {
  }

  /** One source's loop: append the tagged items to the catalog built so far,
      stopping at the first item that is not a dict. */
  method AppendSource(env: Env, origin: Origin, products: seq<Json>, catalog: seq<Dict>) returns (extended: seq<Dict>)
    ensures extended == catalog + Listed(env, origin, products)
  {
    extended := catalog;
    var i := 0;
    // `.get` on an item that is not a dict raises, ending the loop
    while i < |products| && products[i].JObj?
      invariant 0 <= i <= |products|
      invariant extended + Listed(env, origin, products[i..]) == catalog + Listed(env, origin, products)
    {
      var listing := Listing(env, origin, products[i].fields);
      assert products[i..][1..] == products[i + 1..];
      ListedDict(env, origin, products[i..]);
      ghost var rest := Listed(env, origin, products[i + 1..]);
      assert (extended + [listing]) + rest == extended + ([listing] + rest);
      extended := extended + [listing];
      i := i + 1;
    }
    assert Listed(env, origin, products[i..]) == [];
  }

  /** One source's guarded block: the call, the load, and the loop. */
  method AddSource(env: Env, origin: Origin, call: ToolOutcome, catalog: seq<Dict>) returns (extended: seq<Dict>)
    ensures extended == catalog + Contribution(env, origin, call)
  {
    extended := catalog;
    assert catalog + [] == catalog;
    if call.Returned? {
      var products := SafeLoadToolResult(env, call.raw);
      if products.JList? {
        extended := AppendSource(env, origin, products.items, catalog);
      }
    }
  }

  /** `GET /products` */
  method ListProducts(env: Env, coreCall: ToolOutcome, detailsCall: ToolOutcome) returns (reply: CatalogReply)
    ensures reply == CatalogOf(env, coreCall, detailsCall)
  {
    var finalCatalog := AddSource(env, Core, coreCall, []);
    finalCatalog := AddSource(env, Details, detailsCall, finalCatalog);
    assert finalCatalog == Contribution(env, Core, coreCall) + Contribution(env, Details, detailsCall);
    if finalCatalog == [] {
      reply := NoProducts;
    } else {
      reply := Catalog(finalCatalog);
    }
  }

  /** The k-th listed item is the listing of the k-th item, a dict. */
  lemma {:induction false} ListedAt(env: Env, origin: Origin, items: seq<Json>, k: nat)
    requires k < |Listed(env, origin, items)|
    ensures items[k].JObj? && Listed(env, origin, items)[k] == Listing(env, origin, items[k].fields)
    decreases k
  {
    ListedDict(env, origin, items);
    if k > 0 {
      ListedAt(env, origin, items[1..], k - 1);
    }
  }

  /** The listing stops only at the end or at an item that is not a dict. */
  lemma {:induction false} ListedStops(env: Env, origin: Origin, items: seq<Json>)
    ensures |Listed(env, origin, items)| < |items| ==> !items[|Listed(env, origin, items)|].JObj?
  {
    if items != [] && items[0].JObj? {
      ListedStops(env, origin, items[1..]);
      ListedDict(env, origin, items);
    }
  }

  /** A source contributes exactly the listings of its longest prefix of
      dict items, in order. */
  lemma ListedIsDictPrefix(env: Env, origin: Origin, items: seq<Json>)
    ensures var r := Listed(env, origin, items);
      && (forall k :: 0 <= k < |r| ==> items[k].JObj? && r[k] == Listing(env, origin, items[k].fields))
      && (|r| < |items| ==> !items[|r|].JObj?)
  {
    forall k | 0 <= k < |Listed(env, origin, items)|
      ensures items[k].JObj? && Listed(env, origin, items)[k] == Listing(env, origin, items[k].fields)
    {
      ListedAt(env, origin, items, k);
    }
    ListedStops(env, origin, items);
  }

  /** Every item is listed exactly when every item is a dict. */
  lemma ListedAllExactlyWhenAllDicts(env: Env, origin: Origin, items: seq<Json>)
    ensures |Listed(env, origin, items)| == |items| <==> forall k :: 0 <= k < |items| ==> items[k].JObj?
  {
    ListedIsDictPrefix(env, origin, items);
  }

  /** Two sources returning lists of dicts: the catalog is every core item in
      order followed by every details item in order, each tagged with its
      origin, and its length is the sum of the two. */
  lemma CatalogOfDictLists(env: Env, cs: seq<Json>, ds: seq<Json>)
    requires forall k :: 0 <= k < |cs| ==> cs[k].JObj?
    requires forall k :: 0 <= k < |ds| ==> ds[k].JObj?
    requires cs != [] || ds != []
    ensures CatalogOf(env, Returned(JList(cs)), Returned(JList(ds))).Catalog?
    ensures var ps := CatalogOf(env, Returned(JList(cs)), Returned(JList(ds))).products;
      && |ps| == |cs| + |ds|
      && (forall k :: 0 <= k < |cs| ==> ps[k] == Listing(env, Core, cs[k].fields))
      && (forall k :: 0 <= k < |ds| ==> ps[|cs| + k] == Listing(env, Details, ds[k].fields))
  {
    ListedIsDictPrefix(env, Core, cs);
    ListedIsDictPrefix(env, Details, ds);
    ListedAllExactlyWhenAllDicts(env, Core, cs);
    ListedAllExactlyWhenAllDicts(env, Details, ds);
  }

  /** A core catalog that fails entirely does not hide the details catalog:
      the listing is exactly the details items, tagged as such. */
  lemma ListingIsolation(env: Env, message: string, ds: seq<Json>)
    requires ds != [] && forall k :: 0 <= k < |ds| ==> ds[k].JObj?
    ensures CatalogOf(env, Raised(message), Returned(JList(ds))).Catalog?
    ensures var ps := CatalogOf(env, Raised(message), Returned(JList(ds))).products;
      && |ps| == |ds|
      && forall k :: 0 <= k < |ps| ==> ps[k]["source"] == JStr(SourceLabel(Details))
  {
    ListedAllExactlyWhenAllDicts(env, Details, ds);
  }

  /** A listed core item gets the same image as the single-product
      enrichment, except for the sku "N/A", which the listing turns into a
      bucket path where the single-product view uses the fallback. */
  lemma ListingImageVersusEnrich(env: Env, product: Dict)
    ensures Get(product, "sku", JNull) != Reconciliation.NoSku ==>
      Listing(env, Core, product)["image_url"] == Reconciliation.Enrich(env, product)["image_url"]
    ensures Get(product, "sku", JNull) == Reconciliation.NoSku ==>
      && Listing(env, Core, product)["image_url"] == ImageUrl(env, GcsBaseUrl(env), Reconciliation.NoSku)
      && Reconciliation.Enrich(env, product)["image_url"] == FallbackImageUrl(env)
  {
  }
}
