/** Process-wide configuration read once at startup, the two library calls
    the handlers depend on (left abstract), and the image URL roots. */
module Config {
  import opened Values

  /** The environment the handlers run in. `loads` stands for `json.loads`
      and `format` for the text an f-string substitutes for a value that is
      not a string (`str(v)`); both are library code outside this model. */
  datatype Env = Env(
    bucketVar: Option<string>,    // os.getenv('GCS_PRODUCT_BUCKET')
    fallbackVar: Option<string>,  // os.getenv('FALLBACK_IMAGE_URL')
    loads: string -> Decoded,
    format: Json -> string)

  const StorageRoot := "https://storage.googleapis.com/"

  /** Placeholder price given to synthesized and details-only products. */
  const PlaceholderPrice := JFloat(39.99)

  /** `GCS_BASE_URL`: the bucket variable, defaulting to 'placeholder-bucket'. */
  function GcsBaseUrl(env: Env): (r: string) {
    StorageRoot + match env.bucketVar
      case Some(bucket) => bucket
      case None => "placeholder-bucket"
  }

  /** The root the top-N handler builds itself from the bucket variable with
      no default, so that an unset variable is formatted as "None". */
  function TopBaseUrl(env: Env): (r: string) {
    StorageRoot + match env.bucketVar
      case Some(bucket) => bucket
      case None => "None"
  }

  /** `FALLBACK_IMAGE_URL`, which is `None` when the variable is unset. */
  function FallbackImageUrl(env: Env): (r: Json) {
    match env.fallbackVar
    case Some(url) => JStr(url)
    case None => JNull
  }

  /** The text `f"{v}"` substitutes for `v`. */
  function Show(env: Env, v: Json): (r: string) {
    if v.JStr? then v.s else env.format(v)
  }

  /** `f"{base}/{sku}.jpg"` */
  function ImageUrl(env: Env, base: string, sku: Json): (r: Json) {
    JStr(base + "/" + Show(env, sku) + ".jpg")
  }

  /** The two roots agree exactly when the bucket variable is set. */
  lemma TopBaseUrlAgreesWhenBucketSet(env: Env)
    ensures env.bucketVar.Some? ==> TopBaseUrl(env) == GcsBaseUrl(env)
    ensures env.bucketVar.None? ==> TopBaseUrl(env) != GcsBaseUrl(env)
  {
    if env.bucketVar.None? {
      var k := |StorageRoot|;
      assert TopBaseUrl(env)[k] == 'N' != 'p' == GcsBaseUrl(env)[k];
    }
  }
}
