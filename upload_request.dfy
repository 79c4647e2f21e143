/** The options every upload request carries (`AbstractUploadRequest`), its validating
    constructor, and the mutable builder the concrete requests inherit. */
module UploadRequest {
  import opened Wrappers
  import opened Preconditions
  import opened Json
  import Resize
  import Convert

  /** A metadata tag to keep in the optimised image. The `Metadata` enum is not part of this
      model; a tag is known only by the token it is written with. */
  datatype Metadata = Metadata(token: string)

  /** The handles a request is built around; the model never looks inside them. */
  datatype InputStream = InputStream(handle: nat)
  datatype File = File(path: string)
  datatype Url = Url(spec: string)

  /** The `HashSet<Metadata>` a builder creates and fills in place. A built request keeps a
      reference to this very object. */
  class MetadataSet {
    var elems: set<Metadata>

    constructor ()
      ensures elems == {}
    {
      elems := {};
    }

    /** `add`: a tag already present leaves the set as it was. */
    method Add(m: Metadata)
      modifies this
      ensures elems == old(elems) + {m}
    {
      elems := elems + {m};
    }
  }

  /** `listing` names each tag of `s` exactly once. */
  ghost predicate Enumerates(listing: seq<Metadata>, s: set<Metadata>) {
    (forall m :: m in listing <==> m in s) && |listing| == |s|
  }

  /** Iterating over a set: each tag once, in an order the model does not fix. */
  method IterationOrder(s: set<Metadata>) returns (listing: seq<Metadata>)
    ensures Enumerates(listing, s)
  {
    listing := [];
    var rest := s;
    while rest != {}
      invariant rest <= s
      invariant forall m :: m in listing <==> m in s - rest
      invariant |listing| + |rest| == |s|
      decreases |rest|
    {
      var m :| m in rest;
      listing := listing + [m];
      rest := rest - {m};
    }
  }

  /** The fields of a constructed request, read back by the getters. `webp`, `resize`,
      `preserveMeta` and `convert` may be null; the other three never are. */
  datatype UploadRequest = UploadRequest(
    dev: bool,
    wait: bool,
    webp: Option<bool>,
    lossy: bool,
    quality: Option<int>,
    resize: Option<Resize.Resize>,
    preserveMeta: Option<MetadataSet>,
    convert: Option<Convert.Convert>)

  predicate QualityInRange(quality: Option<int>) {
    quality.None? || 1 <= quality.value <= 100
  }

  /** The requirement the message "quality can only be set if lossy is set" describes. */
  predicate QualityOnlyIfLossy(lossy: bool, quality: Option<int>) {
    lossy || quality.None?
  }

  /** The constructor exactly as written: null checks on dev, wait and lossy, the range check
      on quality, and then a check on lossy that can no longer fail, because lossy was
      already found to be non-null. */
  function NewAsWritten(dev: Option<bool>, wait: Option<bool>, webp: Option<bool>, lossy: Option<bool>,
                        quality: Option<int>, resize: Option<Resize.Resize>,
                        preserveMeta: Option<MetadataSet>, convert: Option<Convert.Convert>): (r: Result<UploadRequest, Failure>)
    ensures r.Ok? <==> dev.Some? && wait.Some? && lossy.Some? && QualityInRange(quality)
    ensures r.Ok? ==> r.value == UploadRequest(dev.value, wait.value, webp, lossy.value, quality, resize, preserveMeta, convert)
    ensures dev.None? ==> r == Err(NullPointerException("dev must not be null"))
    ensures dev.Some? && wait.None? ==> r == Err(NullPointerException("wait must not be null"))
    ensures dev.Some? && wait.Some? && lossy.None? ==> r == Err(NullPointerException("lossy must not be null"))
    ensures dev.Some? && wait.Some? && lossy.Some? && !QualityInRange(quality) ==>
              r == Err(IllegalArgumentException("quality must be between 1-100"))
  {
    if dev.None? then Err(NullPointerException("dev must not be null"))
    else if wait.None? then Err(NullPointerException("wait must not be null"))
    else if lossy.None? then Err(NullPointerException("lossy must not be null"))
    else if !(quality.None? || (quality.Some? && quality.value >= 1 && quality.value <= 100)) then
      Err(IllegalArgumentException("quality must be between 1-100"))
    else if !(lossy.Some? || (lossy.None? && quality.None?)) then
      Err(IllegalArgumentException("quality can only be set if lossy is set"))
    else Ok(UploadRequest(dev.value, wait.value, webp, lossy.value, quality, resize, preserveMeta, convert))
  }

  /** The constructor with its last check as its message states it: quality may only be
      given when lossy is true. The concrete requests call the constructor as written; on
      every state a builder can reach the two agree (`ConstructorsAgreeWhenCoupled`,
      `BuilderStatesPassCorrectedCheck`). */
  function New(dev: Option<bool>, wait: Option<bool>, webp: Option<bool>, lossy: Option<bool>,
               quality: Option<int>, resize: Option<Resize.Resize>,
               preserveMeta: Option<MetadataSet>, convert: Option<Convert.Convert>): (r: Result<UploadRequest, Failure>)
    ensures r.Ok? <==> dev.Some? && wait.Some? && lossy.Some? && QualityInRange(quality)
                       && QualityOnlyIfLossy(lossy.value, quality)
    ensures r.Ok? ==> r.value == UploadRequest(dev.value, wait.value, webp, lossy.value, quality, resize, preserveMeta, convert)
    ensures dev.None? ==> r == Err(NullPointerException("dev must not be null"))
    ensures dev.Some? && wait.None? ==> r == Err(NullPointerException("wait must not be null"))
    ensures dev.Some? && wait.Some? && lossy.None? ==> r == Err(NullPointerException("lossy must not be null"))
    ensures dev.Some? && wait.Some? && lossy.Some? && !QualityInRange(quality) ==>
              r == Err(IllegalArgumentException("quality must be between 1-100"))
    ensures r.Err? && QualityInRange(quality) && dev.Some? && wait.Some? && lossy.Some? ==>
              r == Err(IllegalArgumentException("quality can only be set if lossy is set"))
  {
    if dev.None? then Err(NullPointerException("dev must not be null"))
    else if wait.None? then Err(NullPointerException("wait must not be null"))
    else if lossy.None? then Err(NullPointerException("lossy must not be null"))
    else if !QualityInRange(quality) then Err(IllegalArgumentException("quality must be between 1-100"))
    else if !QualityOnlyIfLossy(lossy.value, quality) then
      Err(IllegalArgumentException("quality can only be set if lossy is set"))
    else Ok(UploadRequest(dev.value, wait.value, webp, lossy.value, quality, resize, preserveMeta, convert))
  }

  /** The written constructor accepts a quality while lossy is false; the corrected one refuses it. */
  lemma QualityWithoutLossyAccepted(quality: int)
    requires 1 <= quality <= 100
    ensures NewAsWritten(Some(false), Some(false), None, Some(false), Some(quality), None, None, None).Ok?
    ensures New(Some(false), Some(false), None, Some(false), Some(quality), None, None, None)
            == Err(IllegalArgumentException("quality can only be set if lossy is set"))
  {
  }

  /** The two constructors differ only on that combination. */
  lemma {:induction false} ConstructorsAgreeWhenCoupled(dev: Option<bool>, wait: Option<bool>, webp: Option<bool>,
                                                        lossy: Option<bool>, quality: Option<int>,
                                                        resize: Option<Resize.Resize>, preserveMeta: Option<MetadataSet>,
                                                        convert: Option<Convert.Convert>)
    requires lossy.Some? ==> QualityOnlyIfLossy(lossy.value, quality)
    ensures NewAsWritten(dev, wait, webp, lossy, quality, resize, preserveMeta, convert)
            == New(dev, wait, webp, lossy, quality, resize, preserveMeta, convert)
  {
  }

  /** The builder's fields as a value (`AbstractUploadRequest.Builder`); `preserveMeta` stands
      for the contents of the builder's set. */
  datatype Options = Options(
    dev: bool,
    webp: bool,
    lossy: bool,
    quality: Option<int>,
    resize: Option<Resize.Resize>,
    preserveMeta: set<Metadata>,
    convert: Option<Convert.Convert>)

  /** The field initialisers of a fresh builder. */
  const Initial: Options := Options(false, false, false, None, None, {}, None)

  /** The builder invariant: a quality is held only while lossy is true. */
  predicate Coupled(o: Options) {
    o.quality.Some? ==> o.lossy
  }

  /** One call of a `with*` method. */
  datatype Call =
    | SetLossy(lossy: bool)
    | SetDev(dev: bool)
    | SetWebp(webp: bool)
    | SetQuality(quality: int)
    | SetResize(resize: Option<Resize.Resize>)
    | AddPreserveMeta(metadata: Metadata)
    | SetConvert(convert: Option<Convert.Convert>)

  predicate TouchesLossy(c: Call) {
    c.SetLossy? || c.SetQuality?
  }

  /** The effect of one call: each setter changes its own field and no other, except that
      `withQuality` also sets lossy and `withLossy(false)` also clears quality. */
  function Apply(o: Options, c: Call): (r: Options)
    ensures Coupled(o) ==> Coupled(r)
    ensures !c.SetDev? ==> r.dev == o.dev
    ensures !c.SetWebp? ==> r.webp == o.webp
    ensures !TouchesLossy(c) ==> r.lossy == o.lossy && r.quality == o.quality
    ensures !c.SetResize? ==> r.resize == o.resize
    ensures !c.AddPreserveMeta? ==> r.preserveMeta == o.preserveMeta
    ensures !c.SetConvert? ==> r.convert == o.convert
    ensures c.SetQuality? ==> r.lossy && r.quality == Some(c.quality)
    ensures c.SetLossy? ==> r.lossy == c.lossy && (c.lossy ==> r.quality == o.quality) && (!c.lossy ==> r.quality.None?)
    ensures c.AddPreserveMeta? ==> r.preserveMeta == o.preserveMeta + {c.metadata}
  {
    match c
    case SetLossy(lossy) => o.(lossy := lossy, quality := if lossy then o.quality else None)
    case SetDev(dev) => o.(dev := dev)
    case SetWebp(webp) => o.(webp := webp)
    case SetQuality(quality) => o.(lossy := true, quality := Some(quality))
    case SetResize(resize) => o.(resize := resize)
    case AddPreserveMeta(m) => o.(preserveMeta := o.preserveMeta + {m})
    case SetConvert(convert) => o.(convert := convert)
  }

  /** The effect of a sequence of calls made one after the other. */
  function ApplyAll(o: Options, calls: seq<Call>): (r: Options)
    ensures Coupled(o) ==> Coupled(r)
    decreases |calls|
  {
    if calls == [] then o else Apply(ApplyAll(o, calls[..|calls| - 1]), calls[|calls| - 1])
  }

  /** The tags added by a sequence of calls. */
  function AddedTags(calls: seq<Call>): set<Metadata>
    decreases |calls|
  {
    if calls == [] then {}
    else
      var last := calls[|calls| - 1];
      AddedTags(calls[..|calls| - 1]) + (if last.AddPreserveMeta? then {last.metadata} else {})
  }

  /** Whatever calls are made on a fresh builder, it never holds a quality without lossy. */
  lemma CouplingHoldsForEveryBuilder(calls: seq<Call>)
    ensures Coupled(ApplyAll(Initial, calls))
  {
  }

  /** The lossy/quality pair is decided by the last call that touches it. */
  lemma {:induction false} LastLossyCallWins(o: Options, calls: seq<Call>, i: nat)
    requires i < |calls| && TouchesLossy(calls[i])
    requires forall j :: i < j < |calls| ==> !TouchesLossy(calls[j])
    ensures calls[i].SetQuality? ==>
              ApplyAll(o, calls).lossy && ApplyAll(o, calls).quality == Some(calls[i].quality)
    ensures calls[i].SetLossy? ==> ApplyAll(o, calls).lossy == calls[i].lossy
    ensures calls[i] == SetLossy(false) ==> ApplyAll(o, calls).quality.None?
    ensures calls[i] == SetLossy(true) ==> ApplyAll(o, calls).quality == ApplyAll(o, calls[..i]).quality
    decreases |calls|
  {
    var n := |calls|;
    if i == n - 1 {
      assert calls[..n - 1] == calls[..i];
    } else {
      var init := calls[..n - 1];
      assert init[i] == calls[i];
      assert init[..i] == calls[..i];
      LastLossyCallWins(o, init, i);
    }
  }

  /** The tags in the builder's set are those it started with and those added, whatever
      their order and however often each was added. */
  lemma {:induction false} PreserveMetaIsUnionOfAdds(o: Options, calls: seq<Call>)
    ensures ApplyAll(o, calls).preserveMeta == o.preserveMeta + AddedTags(calls)
    decreases |calls|
  {
    if calls != [] {
      PreserveMetaIsUnionOfAdds(o, calls[..|calls| - 1]);
    }
  }

  lemma {:induction false} AddedTagsMembership(calls: seq<Call>, m: Metadata)
    ensures m in AddedTags(calls) <==> AddPreserveMeta(m) in calls
    decreases |calls|
  {
    if calls != [] {
      var init := calls[..|calls| - 1];
      AddedTagsMembership(init, m);
      assert calls == init + [calls[|calls| - 1]];
    }
  }

  /** Two call sequences that add the same tags, in any order and with any repetition,
      leave the same set. */
  lemma {:induction false} PreserveMetaIgnoresOrderAndRepeats(o: Options, calls1: seq<Call>, calls2: seq<Call>)
    requires forall m :: AddPreserveMeta(m) in calls1 <==> AddPreserveMeta(m) in calls2
    ensures ApplyAll(o, calls1).preserveMeta == ApplyAll(o, calls2).preserveMeta
  {
    PreserveMetaIsUnionOfAdds(o, calls1);
    PreserveMetaIsUnionOfAdds(o, calls2);
    forall m
      ensures m in AddedTags(calls1) <==> m in AddedTags(calls2)
    {
      AddedTagsMembership(calls1, m);
      AddedTagsMembership(calls2, m);
    }
  }

  /** `AbstractUploadRequest.Builder`. Each `with*` method reassigns its fields and answers
      the builder itself; `withPreserveMeta` adds to the set in place. */
  class Builder {
    var dev: bool
    var webp: bool
    var lossy: bool
    var quality: Option<int>
    var resize: Option<Resize.Resize>
    const preserveMeta: MetadataSet
    var convert: Option<Convert.Convert>

    function State(): Options
      reads this, preserveMeta
    {
      Options(dev, webp, lossy, quality, resize, preserveMeta.elems, convert)
    }

    predicate Valid()
      reads this, preserveMeta
    {
      Coupled(State())
    }

    constructor ()
      ensures State() == Initial && Valid()
      ensures fresh(preserveMeta)
    {
      dev := false;
      webp := false;
      lossy := false;
      quality := None;
      resize := None;
      convert := None;
      preserveMeta := new MetadataSet();
    }

    method WithLossy(lossy: bool) returns (self: Builder)
      modifies this
      ensures self == this
      ensures State() == Apply(old(State()), SetLossy(lossy))
      ensures old(Valid()) ==> Valid()
    {
      this.lossy := lossy;
      if !lossy {
        quality := None;
      }
      self := this;
    }

    method WithDev(dev: bool) returns (self: Builder)
      modifies this
      ensures self == this
      ensures State() == Apply(old(State()), SetDev(dev))
      ensures old(Valid()) ==> Valid()
    {
      this.dev := dev;
      self := this;
    }

    method WithWebp(webp: bool) returns (self: Builder)
      modifies this
      ensures self == this
      ensures State() == Apply(old(State()), SetWebp(webp))
      ensures old(Valid()) ==> Valid()
    {
      this.webp := webp;
      self := this;
    }

    /** No range check here: an out-of-range quality only fails when the request is built. */
    method WithQuality(quality: int) returns (self: Builder)
      modifies this
      ensures self == this
      ensures State() == Apply(old(State()), SetQuality(quality))
      ensures Valid()
    {
      lossy := true;
      this.quality := Some(quality);
      self := this;
    }

    method WithResize(resize: Option<Resize.Resize>) returns (self: Builder)
      modifies this
      ensures self == this
      ensures State() == Apply(old(State()), SetResize(resize))
      ensures old(Valid()) ==> Valid()
    {
      this.resize := resize;
      self := this;
    }

    method WithPreserveMeta(metadata: Metadata) returns (self: Builder)
      modifies preserveMeta
      ensures self == this
      ensures State() == Apply(old(State()), AddPreserveMeta(metadata))
      ensures old(Valid()) ==> Valid()
    {
      preserveMeta.Add(metadata);
      self := this;
    }

    method WithConvert(convert: Option<Convert.Convert>) returns (self: Builder)
      modifies this
      ensures self == this
      ensures State() == Apply(old(State()), SetConvert(convert))
      ensures old(Valid()) ==> Valid()
    {
      this.convert := convert;
      self := this;
    }
  }

  /** Which parameter the literal `true` fills when a direct request calls the base with
      seven arguments. That constructor is not part of this model: `slot` is the parameter
      it binds the literal to and `other` what it passes for the one it leaves out. */
  datatype LeadingSlot = DevSlot | WaitSlot
  datatype SuperCall = SuperCall(slot: LeadingSlot, other: Option<bool>)

  /** The base constructor reached by `super(true, webp, lossy, quality, resize, preserveMeta, convert)`:
      the constructor as written, with the literal `true` in the slot `binding` names. */
  function NewWithLeadingTrue(binding: SuperCall, webp: Option<bool>, lossy: Option<bool>, quality: Option<int>,
                              resize: Option<Resize.Resize>, preserveMeta: Option<MetadataSet>,
                              convert: Option<Convert.Convert>): (r: Result<UploadRequest, Failure>)
    ensures r.Ok? && binding.slot == DevSlot ==> r.value.dev && Some(r.value.wait) == binding.other
    ensures r.Ok? && binding.slot == WaitSlot ==> r.value.wait && Some(r.value.dev) == binding.other
    ensures r.Ok? <==> binding.other.Some? && lossy.Some? && QualityInRange(quality)
    ensures r.Ok? ==> r.value.webp == webp && r.value.lossy == lossy.value && r.value.quality == quality
                      && r.value.resize == resize && r.value.preserveMeta == preserveMeta && r.value.convert == convert
  {
    match binding.slot
    case DevSlot => NewAsWritten(Some(true), binding.other, webp, lossy, quality, resize, preserveMeta, convert)
    case WaitSlot => NewAsWritten(binding.other, Some(true), webp, lossy, quality, resize, preserveMeta, convert)
  }

  /** The same call made with the corrected constructor. */
  function NewWithLeadingTrueCorrected(binding: SuperCall, webp: Option<bool>, lossy: Option<bool>, quality: Option<int>,
                                       resize: Option<Resize.Resize>, preserveMeta: Option<MetadataSet>,
                                       convert: Option<Convert.Convert>): Result<UploadRequest, Failure>
  {
    match binding.slot
    case DevSlot => New(Some(true), binding.other, webp, lossy, quality, resize, preserveMeta, convert)
    case WaitSlot => New(binding.other, Some(true), webp, lossy, quality, resize, preserveMeta, convert)
  }

  /** Whatever state a builder hands over, the dead check makes no difference: the super call
      as written and the corrected one give the same result, which fails only on an
      out-of-range quality or on a null the unseen seven-argument constructor supplies. */
  lemma BuilderStatesPassCorrectedCheck(o: Options, binding: SuperCall, preserveMeta: MetadataSet)
    requires Coupled(o)
    ensures NewWithLeadingTrue(binding, Some(o.webp), Some(o.lossy), o.quality, o.resize, Some(preserveMeta), o.convert)
            == NewWithLeadingTrueCorrected(binding, Some(o.webp), Some(o.lossy), o.quality, o.resize, Some(preserveMeta), o.convert)
    ensures NewWithLeadingTrue(binding, Some(o.webp), Some(o.lossy), o.quality, o.resize, Some(preserveMeta), o.convert).Ok?
            <==> binding.other.Some? && QualityInRange(o.quality)
  {
    var other := binding.other;
    match binding.slot
    case DevSlot =>
      ConstructorsAgreeWhenCoupled(Some(true), other, Some(o.webp), Some(o.lossy), o.quality, o.resize, Some(preserveMeta), o.convert);
    case WaitSlot =>
      ConstructorsAgreeWhenCoupled(other, Some(true), Some(o.webp), Some(o.lossy), o.quality, o.resize, Some(preserveMeta), o.convert);
  }

  /** The properties a request is written with. `listing` is the order in which the tag set
      is iterated, which the model does not fix; an empty set, like every null, is left out. */
  function FieldsJson(r: UploadRequest, listing: seq<Metadata>, keepExtensionKey: string): map<string, Json> {
    var tags := JArray(seq(|listing|, i requires 0 <= i < |listing| => JString(listing[i].token)));
    Put(Put(Put(Put(Put(Put(Put(Put(map[],
      "dev", JBool(r.dev)),
      "wait", JBool(r.wait)),
      "webp", OrNull(r.webp, (b: bool) => JBool(b))),
      "lossy", JBool(r.lossy)),
      "quality", OrNull(r.quality, (q: int) => JInt(q))),
      "resize", OrNull(r.resize, Resize.ToJson)),
      "preserve_meta", if r.preserveMeta.Some? then tags else JNull),
      "convert", OrNull(r.convert, (c: Convert.Convert) => Convert.ToJson(c, keepExtensionKey)))
  }

  /** dev, wait and lossy are always written, as their values. */
  lemma FlagsAlwaysWritten(r: UploadRequest, listing: seq<Metadata>, keepExtensionKey: string)
    ensures var m := FieldsJson(r, listing, keepExtensionKey);
      && "dev" in m && m["dev"] == JBool(r.dev)
      && "wait" in m && m["wait"] == JBool(r.wait)
      && "lossy" in m && m["lossy"] == JBool(r.lossy)
  {
  }

  /** webp and quality are written exactly when they are not null. */
  lemma WebpAndQualityWrittenWhenSet(r: UploadRequest, listing: seq<Metadata>, keepExtensionKey: string)
    ensures var m := FieldsJson(r, listing, keepExtensionKey);
      && ("webp" in m <==> r.webp.Some?)
      && ("quality" in m <==> r.quality.Some?)
      && (r.quality.Some? ==> m["quality"] == JInt(r.quality.value))
  {
  }

  /** resize and convert are written exactly when they are not null. */
  lemma DirectivesWrittenWhenSet(r: UploadRequest, listing: seq<Metadata>, keepExtensionKey: string)
    ensures var m := FieldsJson(r, listing, keepExtensionKey);
      && ("resize" in m <==> r.resize.Some?)
      && ("convert" in m <==> r.convert.Some?)
  {
  }

  /** preserve_meta is written only when the set is there and not empty. */
  lemma PreserveMetaWrittenWhenNotEmpty(r: UploadRequest, listing: seq<Metadata>, keepExtensionKey: string)
    ensures "preserve_meta" in FieldsJson(r, listing, keepExtensionKey) <==> r.preserveMeta.Some? && |listing| > 0
  {
  }

  /** With the listing an iteration of the request's own tag set, `preserve_meta` is written
      iff the set is present and holds at least one tag. */
  lemma PreserveMetaWrittenIffTagsPresent(r: UploadRequest, listing: seq<Metadata>, keepExtensionKey: string)
    requires r.preserveMeta.Some? ==> Enumerates(listing, r.preserveMeta.value.elems)
    ensures "preserve_meta" in FieldsJson(r, listing, keepExtensionKey)
            <==> r.preserveMeta.Some? && r.preserveMeta.value.elems != {}
  {
  }

  /** No other property is written. */
  lemma OnlyRequestProperties(r: UploadRequest, listing: seq<Metadata>, keepExtensionKey: string)
    ensures FieldsJson(r, listing, keepExtensionKey).Keys
            <= {"dev", "wait", "webp", "lossy", "quality", "resize", "preserve_meta", "convert"}
  {
  }
}
