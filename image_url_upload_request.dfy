/** A request that has the service fetch the image from a URL (`ImageUrlUploadRequest`). */
module ImageUrlUploadRequest {
  import opened Wrappers
  import opened Preconditions
  import opened Json
  import UploadRequest

  /** The base fields and the image URL, written as the property `url`. */
  datatype ImageUrlUploadRequest = ImageUrlUploadRequest(base: UploadRequest.UploadRequest, imageUrl: UploadRequest.Url)

  /** The private constructor: the base constructor as written, with dev as given and wait
      fixed to true, runs first, and only then is the URL checked. */
  function New(dev: Option<bool>, webp: Option<bool>, lossy: Option<bool>, quality: Option<int>,
               resize: Option<UploadRequest.Resize.Resize>, preserveMeta: Option<UploadRequest.MetadataSet>,
               convert: Option<UploadRequest.Convert.Convert>, imageUrl: Option<UploadRequest.Url>): (r: Result<ImageUrlUploadRequest, Failure>)
    ensures var base := UploadRequest.NewAsWritten(dev, Some(true), webp, lossy, quality, resize, preserveMeta, convert);
      && (base.Err? ==> r == Err(base.error))
      && (base.Ok? && imageUrl.None? ==> r == Err(NullPointerException("imageUrl must not be null")))
      && (r.Ok? <==> base.Ok? && imageUrl.Some?)
    ensures r.Ok? ==> r.value.base.wait && Some(r.value.base.dev) == dev && r.value.imageUrl == imageUrl.value
  {
    var base :- UploadRequest.NewAsWritten(dev, Some(true), webp, lossy, quality, resize, preserveMeta, convert);
    if imageUrl.None? then Err(NullPointerException("imageUrl must not be null"))
    else Ok(ImageUrlUploadRequest(base, imageUrl.value))
  }

  /** What `build()` passes from a builder holding `o` and the set `preserveMeta`. */
  function FromOptions(o: UploadRequest.Options, preserveMeta: UploadRequest.MetadataSet,
                       imageUrl: Option<UploadRequest.Url>): Result<ImageUrlUploadRequest, Failure>
  {
    New(Some(o.dev), Some(o.webp), Some(o.lossy), o.quality, o.resize, Some(preserveMeta), o.convert, imageUrl)
  }

  /** `ImageUrlUploadRequest.Builder`: the URL is fixed when the builder is made. */
  class Builder {
    const options: UploadRequest.Builder
    const imageUrl: Option<UploadRequest.Url>

    /** `builder(imageUrl)`. */
    constructor (imageUrl: Option<UploadRequest.Url>)
      ensures this.imageUrl == imageUrl
      ensures fresh(options) && fresh(options.preserveMeta)
      ensures options.State() == UploadRequest.Initial && options.Valid()
    {
      this.imageUrl := imageUrl;
      options := new UploadRequest.Builder();
    }

    method Build() returns (r: Result<ImageUrlUploadRequest, Failure>)
      ensures r == FromOptions(options.State(), options.preserveMeta, imageUrl)
      ensures r.Ok? ==> r.value.base.preserveMeta == Some(options.preserveMeta)
    {
      r := New(Some(options.dev), Some(options.webp), Some(options.lossy), options.quality, options.resize,
               Some(options.preserveMeta), options.convert, imageUrl);
    }
  }

  /** From any builder state, `build()` succeeds exactly when the URL is there and
      the quality is in range; wait is true, dev is the builder's, and the other fields
      arrive unchanged. */
  lemma {:induction false} BuildOutcome(o: UploadRequest.Options, preserveMeta: UploadRequest.MetadataSet,
                                        imageUrl: Option<UploadRequest.Url>)
    ensures var r := FromOptions(o, preserveMeta, imageUrl);
      && (r.Ok? <==> UploadRequest.QualityInRange(o.quality) && imageUrl.Some?)
      && (r.Ok? ==> r.value.base == UploadRequest.UploadRequest(o.dev, true, Some(o.webp), o.lossy, o.quality,
                                                                o.resize, Some(preserveMeta), o.convert)
                    && r.value.imageUrl == imageUrl.value)
      && (UploadRequest.QualityInRange(o.quality) && imageUrl.None? ==>
            r == Err(NullPointerException("imageUrl must not be null")))
  {
  }

  /** The properties the request is written with: the base's, and the URL under `url`. */
  function ToJson(r: ImageUrlUploadRequest, listing: seq<UploadRequest.Metadata>, keepExtensionKey: string): (j: Json)
    ensures j.JObject? && "url" in j.members && j.members["url"] == JString(r.imageUrl.spec)
    ensures "wait" in j.members && j.members["wait"] == JBool(r.base.wait)
  {
    UploadRequest.FlagsAlwaysWritten(r.base, listing, keepExtensionKey);
    JObject(UploadRequest.FieldsJson(r.base, listing, keepExtensionKey)["url" := JString(r.imageUrl.spec)])
  }

  /** A request made by `build()` is written with `"wait": true` whatever the builder holds. */
  lemma BuiltRequestWaits(o: UploadRequest.Options, preserveMeta: UploadRequest.MetadataSet,
                          imageUrl: Option<UploadRequest.Url>, listing: seq<UploadRequest.Metadata>, keepExtensionKey: string)
    requires FromOptions(o, preserveMeta, imageUrl).Ok?
    ensures ToJson(FromOptions(o, preserveMeta, imageUrl).value, listing, keepExtensionKey).members["wait"] == JBool(true)
  {
  }
}
