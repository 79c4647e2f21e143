/** The conversion directive, a holder of three optional fields (`io.kraken.client.model.Convert`). */
module Convert {
  import opened Wrappers
  import opened Json
  import opened RGBA
  import ImageFormat
  import RGBASerializer

  /** `new Convert(format, background, keepExtension)`: no checks; every field may be null,
      and the getters return the fields. */
  datatype Convert = Convert(format: Option<ImageFormat.ImageFormat>, background: Option<RGBA>, keepExtension: Option<bool>)

  /** The properties a conversion is written with: the format by its token, the background
      through the colour serializer, and the keep-extension flag under `keepExtensionKey`,
      a name no annotation on the field fixes. */
  function ToJson(c: Convert, keepExtensionKey: string): Json {
    JObject(
      Put(Put(Put(map[],
        "format", OrNull(c.format, (f: ImageFormat.ImageFormat) => JString(ImageFormat.ToString(f)))),
        "background", OrNull(c.background, RGBASerializer.ToJson)),
        keepExtensionKey, OrNull(c.keepExtension, (b: bool) => JBool(b))))
  }

  /** Binds a property to `ImageFormat` by its `toString` token; an unknown token fails. */
  function ReadImageFormat(v: Option<Json>): (r: Result<Option<ImageFormat.ImageFormat>, ParseFailure>)
    ensures r.Ok? && r.value.Some? ==> v == Some(JString(ImageFormat.ToString(r.value.value)))
  {
    match v
    case None => Ok(None)
    case Some(JNull) => Ok(None)
    case Some(JString(s)) =>
      (match ImageFormat.FromString(s)
       case Some(f) =>
         ImageFormat.FromStringRoundTrip(f);
         ImageFormat.GetValueInjective(f, f);
         assert ImageFormat.ToString(f) == s by { FromStringGivesToken(s); }
         Ok(Some(f))
       case None => Err(ParseFailure("not one of the values accepted for ImageFormat")))
    case Some(_) => Err(ParseFailure("expected an ImageFormat token"))
  }

  lemma FromStringGivesToken(s: string)
    requires ImageFormat.FromString(s).Some?
    ensures ImageFormat.ToString(ImageFormat.FromString(s).value) == s
  {
    ImageFormat.FromStringKnowsOnlyTokens(s);
    var f := if s == "jpeg" then ImageFormat.Jpeg else if s == "png" then ImageFormat.Png else ImageFormat.Gif;
    ImageFormat.FromStringRoundTrip(f);
  }

  /** Binds a property to `RGBA` through its creator, which reads an object with the
      properties `red`, `green`, `blue` and `alpha` and then runs the constructor's checks. */
  function ReadRGBA(v: Option<Json>): (r: Result<Option<RGBA>, ParseFailure>)
    ensures r.Ok? && r.value.Some? ==> v.Some? && v.value.JObject? && Valid(r.value.value)
  {
    match v
    case None => Ok(None)
    case Some(JNull) => Ok(None)
    case Some(JObject(m)) =>
      var red :- ReadInteger(Get(m, "red"));
      var green :- ReadInteger(Get(m, "green"));
      var blue :- ReadInteger(Get(m, "blue"));
      var alpha :- ReadBigDecimal(Get(m, "alpha"));
      (match New(red, green, blue, alpha)
       case Ok(c) => Ok(Some(c))
       case Err(_) => Err(ParseFailure("RGBA constructor refused the values")))
    case Some(_) => Err(ParseFailure("expected an RGBA object"))
  }

  /** Reading a conversion: `format`, `background` and `keep_extension` feed the three
      creator parameters; other properties are ignored. */
  function FromJson(j: Json): (r: Result<Convert, ParseFailure>)
    ensures r.Ok? ==> j.JObject?
    ensures r.Ok? ==> r.value.keepExtension == (if "keep_extension" in j.members && j.members["keep_extension"].JBool?
                                                then Some(j.members["keep_extension"].b) else None)
  {
    match j
    case JObject(m) =>
      var format :- ReadImageFormat(Get(m, "format"));
      var background :- ReadRGBA(Get(m, "background"));
      var keepExtension :- ReadBoolean(Get(m, "keep_extension"));
      Ok(Convert(format, background, keepExtension))
    case _ => Err(ParseFailure("expected a Convert object"))
  }

  /** Without a background, a conversion reads back unchanged when the keep-extension flag is
      written under `keep_extension`; under any other key (other than `format` and
      `background`) the flag is not read back and comes back null. */
  lemma RoundTripWithoutBackground(c: Convert, keepExtensionKey: string)
    requires c.background.None?
    requires keepExtensionKey != "format" && keepExtensionKey != "background"
    ensures FromJson(ToJson(c, keepExtensionKey))
            == Ok(c.(keepExtension := if keepExtensionKey == "keep_extension" then c.keepExtension else None))
  {
    var m := ToJson(c, keepExtensionKey).members;
    if c.format.Some? {
      ImageFormat.FromStringRoundTrip(c.format.value);
      assert Get(m, "format") == Some(JString(ImageFormat.ToString(c.format.value)));
    } else {
      assert Get(m, "format") == None;
    }
    assert Get(m, "background") == None;
    if keepExtensionKey != "keep_extension" {
      assert Get(m, "keep_extension") == None;
    }
  }

  /** A written background cannot be read back: the serializer writes a string, while the
      creator expects an object. */
  lemma BackgroundDoesNotReadBack(c: Convert, keepExtensionKey: string)
    requires c.background.Some? && keepExtensionKey != "background"
    ensures FromJson(ToJson(c, keepExtensionKey)).Err?
  {
    var m := ToJson(c, keepExtensionKey).members;
    assert Get(m, "background") == Some(RGBASerializer.ToJson(c.background.value));
    assert ReadRGBA(Get(m, "background")).Err?;
  }
}
