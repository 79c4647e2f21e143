/** A request that uploads an image read from a file (`DirectFileUploadRequest`). */
module DirectFileUploadRequest {
  import opened Wrappers
  import opened Preconditions
  import opened Json
  import UploadRequest

  /** The base fields and the file; the file is never written as a property. */
  datatype DirectFileUploadRequest = DirectFileUploadRequest(base: UploadRequest.UploadRequest, image: UploadRequest.File)

  /** The private constructor: the base constructor with a leading `true` runs first, and
      only then is the file checked. */
  function New(binding: UploadRequest.SuperCall, webp: Option<bool>, lossy: Option<bool>, quality: Option<int>,
               resize: Option<UploadRequest.Resize.Resize>, preserveMeta: Option<UploadRequest.MetadataSet>,
               convert: Option<UploadRequest.Convert.Convert>, image: Option<UploadRequest.File>): (r: Result<DirectFileUploadRequest, Failure>)
    ensures var base := UploadRequest.NewWithLeadingTrue(binding, webp, lossy, quality, resize, preserveMeta, convert);
      && (base.Err? ==> r == Err(base.error))
      && (base.Ok? && image.None? ==> r == Err(NullPointerException("image must not be null")))
      && (r.Ok? <==> base.Ok? && image.Some?)
      && (r.Ok? ==> r.value.base == base.value && r.value.image == image.value)
  {
    var base :- UploadRequest.NewWithLeadingTrue(binding, webp, lossy, quality, resize, preserveMeta, convert);
    if image.None? then Err(NullPointerException("image must not be null"))
    else Ok(DirectFileUploadRequest(base, image.value))
  }

  /** What `build()` passes from a builder holding `o` and the set `preserveMeta`: every field but dev. */
  function FromOptions(binding: UploadRequest.SuperCall, o: UploadRequest.Options, preserveMeta: UploadRequest.MetadataSet,
                       image: Option<UploadRequest.File>): Result<DirectFileUploadRequest, Failure>
  {
    New(binding, Some(o.webp), Some(o.lossy), o.quality, o.resize, Some(preserveMeta), o.convert, image)
  }

  /** `DirectFileUploadRequest.Builder`: the file is fixed when the builder is made, and the
      options are those of the inherited builder. */
  class Builder {
    const options: UploadRequest.Builder
    const image: Option<UploadRequest.File>

    /** `builder(image)`: a fresh builder holding the file, which is not checked yet. */
    constructor (image: Option<UploadRequest.File>)
      ensures this.image == image
      ensures fresh(options) && fresh(options.preserveMeta)
      ensures options.State() == UploadRequest.Initial && options.Valid()
    {
      this.image := image;
      options := new UploadRequest.Builder();
    }

    /** `build()`: the request is made from the builder's current fields; the set is passed
        by reference, not copied. */
    method Build(binding: UploadRequest.SuperCall) returns (r: Result<DirectFileUploadRequest, Failure>)
      ensures r == FromOptions(binding, options.State(), options.preserveMeta, image)
      ensures r.Ok? ==> r.value.base.preserveMeta == Some(options.preserveMeta)
    {
      r := New(binding, Some(options.webp), Some(options.lossy), options.quality, options.resize,
               Some(options.preserveMeta), options.convert, image);
    }
  }

  /** From any builder state, `build()` succeeds exactly when the file is there,
      the quality is in range and the unseen constructor passes a value for the slot it
      leaves out; the literal `true` lands in its slot, and the other fields arrive unchanged. */
  lemma BuildOutcome(binding: UploadRequest.SuperCall, o: UploadRequest.Options, preserveMeta: UploadRequest.MetadataSet,
                     image: Option<UploadRequest.File>)
    ensures var r := FromOptions(binding, o, preserveMeta, image);
      && (r.Ok? <==> binding.other.Some? && UploadRequest.QualityInRange(o.quality) && image.Some?)
      && (r.Ok? ==> r.value.image == image.value
                    && (binding.slot == UploadRequest.DevSlot ==> r.value.base.dev)
                    && (binding.slot == UploadRequest.WaitSlot ==> r.value.base.wait)
                    && r.value.base.webp == Some(o.webp) && r.value.base.lossy == o.lossy
                    && r.value.base.quality == o.quality && r.value.base.resize == o.resize
                    && r.value.base.preserveMeta == Some(preserveMeta) && r.value.base.convert == o.convert)
      && (binding.other.Some? && UploadRequest.QualityInRange(o.quality) && image.None? ==>
            r == Err(NullPointerException("image must not be null")))
  {
  }

  /** `withDev` has no effect on the request built. */
  lemma WithDevHasNoEffect(binding: UploadRequest.SuperCall, o: UploadRequest.Options, dev: bool,
                           preserveMeta: UploadRequest.MetadataSet, image: Option<UploadRequest.File>)
    ensures FromOptions(binding, UploadRequest.Apply(o, UploadRequest.SetDev(dev)), preserveMeta, image)
            == FromOptions(binding, o, preserveMeta, image)
  {
  }

  /** The properties the request is written with: the base's. */
  function ToJson(r: DirectFileUploadRequest, listing: seq<UploadRequest.Metadata>, keepExtensionKey: string): Json {
    JObject(UploadRequest.FieldsJson(r.base, listing, keepExtensionKey))
  }

  /** The file is not written: two requests that differ only in it are written alike. */
  lemma ImageNotWritten(r: DirectFileUploadRequest, image: UploadRequest.File, listing: seq<UploadRequest.Metadata>, keepExtensionKey: string)
    ensures ToJson(r, listing, keepExtensionKey) == ToJson(r.(image := image), listing, keepExtensionKey)
  {
  }

  /** A tag added through the builder after `build()` is in the set of the request already built. */
  method AddAfterBuild(b: Builder, binding: UploadRequest.SuperCall, m: UploadRequest.Metadata)
    returns (r: Result<DirectFileUploadRequest, Failure>)
    modifies b.options.preserveMeta
    ensures r.Ok? ==> r.value.base.preserveMeta == Some(b.options.preserveMeta) && m in b.options.preserveMeta.elems
  {
    r := b.Build(binding);
    var _ := b.options.WithPreserveMeta(m);
  }
}
