/** Resize directives: a tagged union whose tag is the `strategy` property
    (`AbstractResize` and the subtypes `ExactResize`, `FillResize`, `LandscapeResize`). */
module Resize {
  import opened Wrappers
  import opened Preconditions
  import opened Json
  import opened RGBA
  import Strategy
  import EnumLookup
  import RGBASerializer

  /** The eight subtypes registered for the `strategy` discriminator. */
  datatype Subtype =
    | FitResize | ExactResize | AutoResize | CropResize
    | FillResize | LandscapeResize | PortraitResize | SquareResize

  /** The registrations, in the order they are listed on `AbstractResize`. */
  const Registered: seq<Subtype> :=
    [FitResize, ExactResize, AutoResize, CropResize, FillResize, LandscapeResize, PortraitResize, SquareResize]

  /** The discriminator name each subtype is registered under. */
  function Name(t: Subtype): string {
    match t
    case FitResize => "fit"
    case ExactResize => "exact"
    case AutoResize => "auto"
    case CropResize => "crop"
    case FillResize => "fill"
    case LandscapeResize => "landscape"
    case PortraitResize => "portrait"
    case SquareResize => "square"
  }

  function Position(t: Subtype): (i: nat)
    ensures i < |Registered| && Registered[i] == t
  {
    match t
    case FitResize => 0
    case ExactResize => 1
    case AutoResize => 2
    case CropResize => 3
    case FillResize => 4
    case LandscapeResize => 5
    case PortraitResize => 6
    case SquareResize => 7
  }

  /** The subtype a `strategy` value selects when a resize is read; none for other names. */
  function SubtypeFor(name: string): Option<Subtype> {
    var table := EnumLookup.Table(Registered, Name);
    if name in table then Some(table[name]) else None
  }

  /** The state of `AbstractDimensionBasedResize`, which holds a width and a height;
      that class is not part of this model, so neither are any checks it makes. */
  datatype Dimensions = Dimensions(width: Option<int>, height: Option<int>)

  datatype Resize =
    | Exact(dimensions: Dimensions)
    | Fill(dimensions: Dimensions, background: Option<RGBA>)
    | Landscape(width: int)
      /** One of the five subtypes whose classes are not part of this model: the strategy
          its constructor passed up and the properties it writes besides `strategy`. */
    | Unshown(subtype: Subtype, strategy: Strategy.Strategy, properties: map<string, Json>)

  /** `getStrategy`: the constant the subtype's constructor passed to `AbstractResize`. */
  function GetStrategy(r: Resize): Strategy.Strategy {
    match r
    case Exact(_) => Strategy.Exact
    case Fill(_, _) => Strategy.Fill
    case Landscape(_) => Strategy.Landscape
    case Unshown(_, s, _) => s
  }

  function SubtypeOf(r: Resize): Subtype {
    match r
    case Exact(_) => ExactResize
    case Fill(_, _) => FillResize
    case Landscape(_) => LandscapeResize
    case Unshown(t, _, _) => t
  }

  /** `new ExactResize(width, height)`: strategy EXACT, both dimensions handed to the base
      unchanged, no check and no field of its own. */
  function NewExactResize(width: Option<int>, height: Option<int>): (r: Resize)
    ensures r.Exact? && GetStrategy(r) == Strategy.Exact && SubtypeOf(r) == ExactResize
    ensures r.dimensions.width == width && r.dimensions.height == height
  {
    Exact(Dimensions(width, height))
  }

  /** `new FillResize(width, height, background)`: strategy FILL, dimensions handed to the
      base unchanged, and a background that may be null and is not checked. */
  function NewFillResize(width: Option<int>, height: Option<int>, background: Option<RGBA>): (r: Resize)
    ensures r.Fill? && GetStrategy(r) == Strategy.Fill && SubtypeOf(r) == FillResize
    ensures r.dimensions.width == width && r.dimensions.height == height
    ensures r.background == background
  {
    Fill(Dimensions(width, height), background)
  }

  /** `new LandscapeResize(width)`: strategy LANDSCAPE and a width that must not be null. */
  function NewLandscapeResize(width: Option<int>): (r: Result<Resize, Failure>)
    ensures r.Ok? <==> width.Some?
    ensures r.Ok? ==> r.value.Landscape? && GetStrategy(r.value) == Strategy.Landscape && SubtypeOf(r.value) == LandscapeResize
                      && r.value.width == width.value
    ensures r.Err? ==> r.error == NullPointerException("width must not be null")
  {
    if width.None? then Err(NullPointerException("width must not be null"))
    else Ok(Landscape(width.value))
  }

  /** The properties a resize is written with: `strategy` by its token (the discriminator
      is an existing, visible property), then the subtype's own non-null fields, the
      background through the colour serializer. The names `width` and `height` of the exact
      and fill resizes come from `AbstractDimensionBasedResize`, which is not part of this
      model; the landscape resize declares its `width` itself. */
  function ToJson(r: Resize): Json {
    var strategy := Put(map[], "strategy", JString(Strategy.ToString(GetStrategy(r))));
    match r
    case Exact(d) =>
      JObject(Put(Put(strategy, "width", OrNull(d.width, i => JInt(i))), "height", OrNull(d.height, i => JInt(i))))
    case Fill(d, background) =>
      JObject(Put(Put(Put(strategy, "width", OrNull(d.width, i => JInt(i))), "height", OrNull(d.height, i => JInt(i))),
                  "background", OrNull(background, RGBASerializer.ToJson)))
    case Landscape(w) =>
      JObject(Put(strategy, "width", JInt(w)))
    case Unshown(_, s, properties) =>
      JObject(properties["strategy" := JString(Strategy.ToString(s))])
  }

  /** Each name selects exactly the subtype registered under it, and no two subtypes share a name. */
  lemma {:induction false} EachNameSelectsOneSubtype(t: Subtype, u: Subtype)
    ensures SubtypeFor(Name(t)) == Some(t)
    ensures Name(t) == Name(u) ==> t == u
  {
    assert EnumLookup.DistinctTokens(Registered, Name);
    EnumLookup.TableFinds(Registered, Name, Position(t));
  }

  /** The discriminator names are exactly the `Strategy` tokens. */
  lemma {:induction false} NamesAreStrategyTokens(name: string)
    ensures SubtypeFor(name).Some? <==> Strategy.FromString(name).Some?
  {
    EnumLookup.TableKeys(Registered, Name, name);
    Strategy.FromStringKnowsOnlyTokens(name);
    if name in Strategy.Tokens {
      var t: Subtype :| Name(t) == name;
      assert Name(Registered[Position(t)]) == name;
    }
  }

  /** For the subtypes shown, the `strategy` a resize is written with selects its own
      subtype again when the document is read. */
  lemma {:induction false} DiscriminatorSelectsOwnSubtype(r: Resize)
    requires !r.Unshown?
    ensures ToJson(r).JObject? && "strategy" in ToJson(r).members
    ensures ToJson(r).members["strategy"] == JString(Strategy.GetValue(GetStrategy(r)))
    ensures SubtypeFor(ToJson(r).members["strategy"].s) == Some(SubtypeOf(r))
  {
    EachNameSelectsOneSubtype(SubtypeOf(r), SubtypeOf(r));
  }

  /** A fill resize writes its background as the rgba string when present and omits it otherwise;
      the other two shown subtypes have no background at all. */
  lemma FillBackgroundWritten(r: Resize)
    ensures r.Fill? && r.background.Some? ==>
      "background" in ToJson(r).members
      && ToJson(r).members["background"] == JString(RGBASerializer.Serialize(r.background.value))
    ensures (r.Exact? || r.Landscape? || (r.Fill? && r.background.None?)) ==> "background" !in ToJson(r).members
  {
  }

  /** A landscape resize writes only its strategy and its width. */
  lemma LandscapeWritesStrategyAndWidth(w: int)
    ensures ToJson(Landscape(w)) == JObject(map["strategy" := JString("landscape"), "width" := JInt(w)])
  {
  }
}
