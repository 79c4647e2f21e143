/** A request that uploads an image stream and has the outcome posted to a callback URL
    (`DirectUploadCallbackUrlRequest`). Its base class, `AbstractUploadCallbackUrlRequest`,
    is not part of this model: its constructor is a parameter. */
module DirectUploadCallbackUrlRequest {
  import opened Wrappers
  import opened Preconditions
  import opened Json
  import UploadRequest

  /** The arguments handed to the callback base constructor, in its order. */
  datatype CallbackArgs = CallbackArgs(
    dev: Option<bool>,
    webp: Option<bool>,
    lossy: Option<bool>,
    quality: Option<int>,
    resize: Option<UploadRequest.Resize.Resize>,
    preserveMeta: Option<UploadRequest.MetadataSet>,
    convert: Option<UploadRequest.Convert.Convert>,
    callbackUrl: Option<UploadRequest.Url>)

  /** What the callback base constructor leaves behind: the upload request fields and the
      callback URL it keeps. */
  datatype CallbackBase = CallbackBase(request: UploadRequest.UploadRequest, callbackUrl: Option<UploadRequest.Url>)

  datatype DirectUploadCallbackUrlRequest = DirectUploadCallbackUrlRequest(base: CallbackBase, image: UploadRequest.InputStream)

  /** The private constructor: the base constructor `baseConstructor` runs on the arguments
      first, and only then is the stream checked. */
  function New(baseConstructor: CallbackArgs -> Result<CallbackBase, Failure>, args: CallbackArgs,
               image: Option<UploadRequest.InputStream>): (r: Result<DirectUploadCallbackUrlRequest, Failure>)
    ensures baseConstructor(args).Err? ==> r == Err(baseConstructor(args).error)
    ensures baseConstructor(args).Ok? && image.None? ==> r == Err(NullPointerException("image must not be null"))
    ensures r.Ok? <==> baseConstructor(args).Ok? && image.Some?
    ensures r.Ok? ==> r.value.base == baseConstructor(args).value && r.value.image == image.value
  {
    var base :- baseConstructor(args);
    if image.None? then Err(NullPointerException("image must not be null"))
    else Ok(DirectUploadCallbackUrlRequest(base, image.value))
  }

  /** What `build()` passes from a builder holding `o`, the set `preserveMeta` and the callback URL. */
  function ArgsFromOptions(o: UploadRequest.Options, preserveMeta: UploadRequest.MetadataSet,
                           callbackUrl: Option<UploadRequest.Url>): (args: CallbackArgs)
    ensures args.dev == Some(o.dev) && args.webp == Some(o.webp) && args.lossy == Some(o.lossy)
    ensures args.quality == o.quality && args.resize == o.resize && args.convert == o.convert
    ensures args.preserveMeta == Some(preserveMeta) && args.callbackUrl == callbackUrl
  {
    CallbackArgs(Some(o.dev), Some(o.webp), Some(o.lossy), o.quality, o.resize, Some(preserveMeta), o.convert, callbackUrl)
  }

  /** `DirectUploadCallbackUrlRequest.Builder`: the stream and the callback URL are fixed when
      the builder is made; no builder method changes them. */
  class Builder {
    const options: UploadRequest.Builder
    const image: Option<UploadRequest.InputStream>
    const callbackUrl: Option<UploadRequest.Url>

    /** `builder(image, callbackUrl)`. */
    constructor (image: Option<UploadRequest.InputStream>, callbackUrl: Option<UploadRequest.Url>)
      ensures this.image == image && this.callbackUrl == callbackUrl
      ensures fresh(options) && fresh(options.preserveMeta)
      ensures options.State() == UploadRequest.Initial && options.Valid()
    {
      this.image := image;
      this.callbackUrl := callbackUrl;
      options := new UploadRequest.Builder();
    }

    /** `build()`: every builder field, dev included, goes to the base constructor. */
    method Build(baseConstructor: CallbackArgs -> Result<CallbackBase, Failure>)
      returns (r: Result<DirectUploadCallbackUrlRequest, Failure>)
      ensures r == New(baseConstructor, ArgsFromOptions(options.State(), options.preserveMeta, callbackUrl), image)
    {
      r := New(baseConstructor,
               CallbackArgs(Some(options.dev), Some(options.webp), Some(options.lossy), options.quality,
                            options.resize, Some(options.preserveMeta), options.convert, callbackUrl),
               image);
    }
  }

  /** Unlike the plain direct request, `withDev` reaches this one: the last dev set is the one
      handed to the base, and nothing else handed over changes. */
  lemma WithDevReachesRequest(o: UploadRequest.Options, dev: bool, preserveMeta: UploadRequest.MetadataSet,
                              callbackUrl: Option<UploadRequest.Url>)
    ensures ArgsFromOptions(UploadRequest.Apply(o, UploadRequest.SetDev(dev)), preserveMeta, callbackUrl)
            == ArgsFromOptions(o, preserveMeta, callbackUrl).(dev := Some(dev))
  {
  }

  /** The properties the request is written with are those of its base, which `baseJson`
      gives; the stream is not one of them. */
  function ToJson(r: DirectUploadCallbackUrlRequest, baseJson: CallbackBase -> map<string, Json>): Json {
    JObject(baseJson(r.base))
  }

  lemma ImageNotWritten(r: DirectUploadCallbackUrlRequest, image: UploadRequest.InputStream,
                        baseJson: CallbackBase -> map<string, Json>)
    ensures ToJson(r, baseJson) == ToJson(r.(image := image), baseJson)
  {
  }
}
