# Kraken.io Java client: request and response core in Dafny

This project models the request/response core of the Kraken.io Java client
(`io.kraken.client`), which uploads images to the Kraken.io optimisation service.
The model covers these parts:

- **Request objects.** The common upload options (`AbstractUploadRequest`) are
  checked by their constructor and assembled by a mutable builder. They are
  specialised into direct stream uploads, direct file uploads, direct uploads
  with a callback URL, and image-URL uploads.
- **Request JSON.** Requests are written as JSON with Jackson's `NON_NULL` rule,
  so `null` fields are left out. Empty arrays are left out too.
- **Values inside a request.** The `Strategy` and `ImageFormat` enums with their
  reverse lookups, the `RGBA` colour with its checks and its string serializer,
  the resize family, and `Convert`.
- **The auth envelope.** `AuthWrapper` flattens the request next to an `auth`
  object.
- **Responses.** `true` or `false` in the `success` field picks the response
  subtype. The status is set after the response is read.
- **The client.** `DefaultKrakenIoClient` covers the configuration checks, the
  endpoints, the multipart body it posts, and how it turns the HTTP status and
  body into a response or an exception.

The modules follow the Java files, one module each. Here is how Java concepts
are written:

| Java | Dafny |
|---|---|
| `null` | `Option` |
| a thrown exception | the `Err` branch of a `Result` |
| Guava's `checkNotNull` / `checkArgument` | `Preconditions.Failure`: `NullPointerException` / `IllegalArgumentException` with the source's message |
| `BigDecimal` | `Decimal(unscaled, scale)` |
| a JSON document | a `Json` value tree |

Objects the source changes in place are classes. These are the metadata set, the
builders, the response with its `setStatus`, and the multipart body.

The builder is described in two ways:

- `UploadRequest.Options` is its state as a value.
- `UploadRequest.Apply` / `ApplyAll` describe what each `with…` call does to
  that state.

Each `Builder` method is proved to move its object's state exactly as `Apply`
says. The lemmas about `ApplyAll` then cover every builder:

- quality is only ever set together with lossy;
- the last lossy or quality call wins;
- the metadata set is the union of the tags added, whatever their order.

Several behaviours depend on code the core calls but does not contain. These
enter as parameters:

- the HTTP transport (`send`: request posted ↦ status and parsed body);
- the random file name of a stream part;
- the JSON of `Auth`;
- the output key of `Convert.keepExtension`;
- how the 7-argument super constructor the direct requests call binds its arguments: which parameter the literal `true` fills, and what it passes for the flag it leaves out;
- the callback-URL base request and its JSON;
- the callback success reader;
- the iteration order of the `HashSet` of metadata.

## Model

| member | source | states |
|---|---|---|
| `EnumLookup.Build` | src/main/java/io/kraken/client/model/Strategy.java:35-40 | the static loop that fills `REVERSE_LOOKUP` produces exactly the token table of the enum values |
| `EnumLookup.TableKeys` | src/main/java/io/kraken/client/model/Strategy.java:37-39 | a string is a key of the lookup table iff some enum value has it as its token |
| `EnumLookup.TableFinds` | src/main/java/io/kraken/client/model/Strategy.java:37-39 | with distinct tokens, looking up a value's token gives back that value (a later put never overwrites it) |
| `Strategy.Ordinal` | src/main/java/io/kraken/client/model/Strategy.java:26-33 | every strategy occurs in the declared value list, at its ordinal |
| `Strategy.InitReverseLookup` | src/main/java/io/kraken/client/model/Strategy.java:35-40 | after the static initialiser every strategy's value maps back to that strategy |
| `Strategy.ValuesAreTheConstants` | src/main/java/io/kraken/client/model/Strategy.java:26-33 | there are exactly eight strategies, with pairwise distinct tokens drawn from `exact, portrait, landscape, auto, fit, crop, square, fill` |
| `Strategy.GetValueInjective` | src/main/java/io/kraken/client/model/Strategy.java:48-50 | two strategies with the same `getValue()` are the same strategy |
| `Strategy.FromStringRoundTrip` | src/main/java/io/kraken/client/model/Strategy.java:52-59 | `fromString(toString(s))` is `s` for every strategy |
| `Strategy.FromStringKnowsOnlyTokens` | src/main/java/io/kraken/client/model/Strategy.java:52-54 | `fromString` is non-null exactly on the eight tokens (null for anything else) |
| `ImageFormat.Ordinal` | src/main/java/io/kraken/client/model/ImageFormat.java:26-28 | every format occurs in the declared value list, at its ordinal |
| `ImageFormat.InitReverseLookup` | src/main/java/io/kraken/client/model/ImageFormat.java:30-35 | after the static initialiser every format's value maps back to that format |
| `ImageFormat.ValuesAreTheConstants` | src/main/java/io/kraken/client/model/ImageFormat.java:26-28 | there are exactly three formats with distinct tokens `jpeg, png, gif` |
| `ImageFormat.GetValueInjective` | src/main/java/io/kraken/client/model/ImageFormat.java:43-45 | two formats with the same `getValue()` are the same format |
| `ImageFormat.FromStringRoundTrip` | src/main/java/io/kraken/client/model/ImageFormat.java:47-54 | `fromString(toString(f))` is `f` for every format |
| `ImageFormat.FromStringKnowsOnlyTokens` | src/main/java/io/kraken/client/model/ImageFormat.java:47-49 | `fromString` is non-null exactly on the three tokens |
| `RGBA.New` | src/main/java/io/kraken/client/model/RGBA.java:42-54 | construction succeeds iff all four components are present, each channel is in 0..256 and alpha is in 0..1 by value; the result holds the given components; a missing component is a `NullPointerException` |
| `RGBA.ChannelBoundaries` | src/main/java/io/kraken/client/model/RGBA.java:46-48 | 0 and 256 are accepted; 257 and -1 are rejected with the message naming that channel |
| `RGBA.AlphaComparedByValue` | src/main/java/io/kraken/client/model/RGBA.java:49 | alpha is compared by value whatever its scale (`1`, `1.0`, `1.00`, `0` accepted; `1.01`, `-0.001` rejected) and the message is the source's `red must be between 0-1` |
| `RGBA.NullChecksComeFirst` | src/main/java/io/kraken/client/model/RGBA.java:42-49 | the null checks run before any range check, so a missing alpha is reported whatever the channels are |
| `RGBASerializer.ToJson` | src/main/java/io/kraken/client/serializer/RGBASerializer.java:33-35 | a colour is written as a single string of the form `rgba(…)` |
| `RGBASerializer.TestColour` | src/main/java/io/kraken/client/serializer/RGBASerializer.java:34 | (100, 100, 100, 1) is written `rgba(100, 100, 100, 1)` |
| `RGBASerializer.SerializeDistinguishesChannels` | src/main/java/io/kraken/client/serializer/RGBASerializer.java:34 | two valid colours with the same string have the same red, green and blue |
| `Decimal.ToStringOfInteger` | src/main/java/io/kraken/client/serializer/RGBASerializer.java:34 | a `BigDecimal` of scale 0 prints like the integer (the alpha part of the string) |
| `Decimal.ToStringOfOne` | src/main/java/io/kraken/client/serializer/RGBASerializer.java:34 | `1` prints as `1` and `1.0` as `1.0`: the scale is kept when printing |
| `Digits.ParseNatToString` | src/main/java/io/kraken/client/serializer/RGBASerializer.java:34 | the decimal digits written for a channel read back as that channel |
| `Digits.NatToStringInjective` | src/main/java/io/kraken/client/serializer/RGBASerializer.java:34 | different channel values print differently |
| `Resize.NewExactResize` | src/main/java/io/kraken/client/model/resize/ExactResize.java:28-32 | an exact resize carries `Strategy.EXACT`, the exact-resize subtype, and the given width and height |
| `Resize.NewFillResize` | src/main/java/io/kraken/client/model/resize/FillResize.java:38-44 | a fill resize carries `Strategy.FILL`, its subtype, the dimensions and the optional background |
| `Resize.NewLandscapeResize` | src/main/java/io/kraken/client/model/resize/LandscapeResize.java:32-38 | construction succeeds iff the width is present; the result carries `Strategy.LANDSCAPE` and the width; otherwise `width must not be null` |
| `Resize.EachNameSelectsOneSubtype` | src/main/java/io/kraken/client/model/resize/AbstractResize.java:28-38 | each registered type name selects its own subtype, and no two subtypes share a name |
| `Resize.NamesAreStrategyTokens` | src/main/java/io/kraken/client/model/resize/AbstractResize.java:29-38 | the registered type names are exactly the strategy tokens |
| `Resize.DiscriminatorSelectsOwnSubtype` | src/main/java/io/kraken/client/model/resize/AbstractResize.java:28-50 | a resize is written with a `strategy` property holding its strategy token, and that token selects the resize's own subtype when read back |
| `Resize.FillBackgroundWritten` | src/main/java/io/kraken/client/model/resize/FillResize.java:35-36 | a fill resize's background is written through the RGBA serializer when present and left out otherwise; other resizes have no background key |
| `Resize.LandscapeWritesStrategyAndWidth` | src/main/java/io/kraken/client/model/resize/LandscapeResize.java:28-42 | a landscape resize is written as exactly `strategy` and `width` |
| `Convert.ReadImageFormat` | src/main/java/io/kraken/client/model/Convert.java:37 | a format read from a string is the format whose token that string is; any other string is an error (numbers given as enum ordinals are not modelled, see Left out) |
| `Convert.ReadRGBA` | src/main/java/io/kraken/client/model/Convert.java:38 | a background is read only from an object, and only as a colour that passed the RGBA checks |
| `Convert.FromJson` | src/main/java/io/kraken/client/model/Convert.java:36-43 | only an object reads as a `Convert`; `keep_extension` is taken from that key when it holds a boolean |
| `Convert.RoundTripWithoutBackground` | src/main/java/io/kraken/client/model/Convert.java:29-43 | without a background, what is written reads back as the same `Convert` when the flag's key is `keep_extension`; under any other key (not `format` or `background`) it reads back with the flag null |
| `Convert.BackgroundDoesNotReadBack` | src/main/java/io/kraken/client/model/Convert.java:31-38 | with a background, what is written (a string) does not read back, since the creator expects an object |
| `UploadRequest.MetadataSet.Add` | src/main/java/io/kraken/client/model/request/AbstractUploadRequest.java:148-151 | adding a tag leaves the set as before plus that tag |
| `UploadRequest.IterationOrder` | src/main/java/io/kraken/client/model/request/AbstractUploadRequest.java:42-43 | the `preserve_meta` array lists each tag of the set exactly once, in some order |
| `UploadRequest.NewAsWritten` | src/main/java/io/kraken/client/model/request/AbstractUploadRequest.java:47-69 | the constructor as written accepts iff dev, wait and lossy are present and quality is absent or in 1..100; each failure is the first failing null or range check with its message; the result holds the arguments |
| `UploadRequest.New` | src/main/java/io/kraken/client/model/request/AbstractUploadRequest.java:47-69 | the corrected constructor: accepts iff dev, wait, lossy present, quality in 1..100 and quality only with lossy; each failure is the first failing check with its message; the result holds the arguments |
| `UploadRequest.QualityWithoutLossyAccepted` | src/main/java/io/kraken/client/model/request/AbstractUploadRequest.java:57-59 | lossy = false with a quality passes the check as written but fails the corrected one with `quality can only be set if lossy is set` |
| `UploadRequest.ConstructorsAgreeWhenCoupled` | src/main/java/io/kraken/client/model/request/AbstractUploadRequest.java:55-59 | whenever quality is only set with lossy, the two constructors give the same result |
| `UploadRequest.Apply` | src/main/java/io/kraken/client/model/request/AbstractUploadRequest.java:118-156 | each `with…` call changes only its own fields; `withQuality` also sets lossy; `withLossy(false)` clears quality; `withPreserveMeta` adds one tag; quality-only-with-lossy is preserved |
| `UploadRequest.ApplyAll` | src/main/java/io/kraken/client/model/request/AbstractUploadRequest.java:103-157 | any sequence of builder calls preserves quality-only-with-lossy |
| `UploadRequest.CouplingHoldsForEveryBuilder` | src/main/java/io/kraken/client/model/request/AbstractUploadRequest.java:106-141 | from the builder's defaults, every sequence of calls ends with quality only if lossy |
| `UploadRequest.LastLossyCallWins` | src/main/java/io/kraken/client/model/request/AbstractUploadRequest.java:118-141 | the last `withLossy`/`withQuality` call decides lossy and quality, whatever came before |
| `UploadRequest.PreserveMetaIsUnionOfAdds` | src/main/java/io/kraken/client/model/request/AbstractUploadRequest.java:148-151 | the builder's tag set is the initial set plus every tag passed to `withPreserveMeta` |
| `UploadRequest.AddedTagsMembership` | src/main/java/io/kraken/client/model/request/AbstractUploadRequest.java:148-151 | a tag is in the added set iff some `withPreserveMeta` call passed it |
| `UploadRequest.PreserveMetaIgnoresOrderAndRepeats` | src/main/java/io/kraken/client/model/request/AbstractUploadRequest.java:111 | two call sequences that add the same tags, in any order or repetition, give the same tag set |
| `UploadRequest.Builder.constructor` | src/main/java/io/kraken/client/model/request/AbstractUploadRequest.java:106-116 | a new builder holds the defaults: dev, webp and lossy false, no quality, resize or convert, an empty fresh tag set |
| `UploadRequest.Builder.WithLossy` | src/main/java/io/kraken/client/model/request/AbstractUploadRequest.java:118-125 | returns the same builder, whose state moves as `Apply` says for `SetLossy` |
| `UploadRequest.Builder.WithDev` | src/main/java/io/kraken/client/model/request/AbstractUploadRequest.java:127-130 | returns the same builder, with dev set and nothing else changed |
| `UploadRequest.Builder.WithWebp` | src/main/java/io/kraken/client/model/request/AbstractUploadRequest.java:132-135 | returns the same builder, with webp set and nothing else changed |
| `UploadRequest.Builder.WithQuality` | src/main/java/io/kraken/client/model/request/AbstractUploadRequest.java:137-141 | returns the same builder, with lossy true and the quality set, and the coupling holds afterwards whatever held before |
| `UploadRequest.Builder.WithResize` | src/main/java/io/kraken/client/model/request/AbstractUploadRequest.java:143-146 | returns the same builder, with resize set and nothing else changed |
| `UploadRequest.Builder.WithPreserveMeta` | src/main/java/io/kraken/client/model/request/AbstractUploadRequest.java:148-151 | returns the same builder, its tag set grown by one tag in place |
| `UploadRequest.Builder.WithConvert` | src/main/java/io/kraken/client/model/request/AbstractUploadRequest.java:153-156 | returns the same builder, with convert set and nothing else changed |
| `UploadRequest.NewWithLeadingTrue` | src/main/java/io/kraken/client/model/request/DirectUploadRequest.java:47 | the 7-argument super call runs the constructor as written with the literal `true` in its slot and the rest forwarded; it succeeds iff the other flag and lossy are present and quality is absent or in 1..100 |
| `UploadRequest.BuilderStatesPassCorrectedCheck` | src/main/java/io/kraken/client/model/request/DirectUploadRequest.java:69-79 | for every state a builder can reach, the super call as written and the corrected one give the same result, which fails only on an out-of-range quality or a missing other flag |
| `UploadRequest.FlagsAlwaysWritten` | src/main/java/io/kraken/client/model/request/AbstractUploadRequest.java:36-39 | `dev`, `wait` and `lossy` are never null and so always written |
| `UploadRequest.WebpAndQualityWrittenWhenSet` | src/main/java/io/kraken/client/model/request/AbstractUploadRequest.java:38-40 | `webp` and `quality` are written iff set (`NON_NULL`) |
| `UploadRequest.DirectivesWrittenWhenSet` | src/main/java/io/kraken/client/model/request/AbstractUploadRequest.java:41-44 | `resize` and `convert` are written iff set |
| `UploadRequest.PreserveMetaWrittenWhenNotEmpty` | src/main/java/io/kraken/client/model/request/AbstractUploadRequest.java:42-43 | `preserve_meta` is written iff the set is present and its listing is not empty (empty arrays are not written) |
| `UploadRequest.PreserveMetaWrittenIffTagsPresent` | src/main/java/io/kraken/client/model/request/AbstractUploadRequest.java:42-43 | when the listing is an iteration of the request's own tag set, `preserve_meta` is written iff the set is present and holds a tag |
| `UploadRequest.OnlyRequestProperties` | src/main/java/io/kraken/client/model/request/AbstractUploadRequest.java:36-44 | the request object has no keys other than its eight properties |
| `DirectUploadRequest.New` | src/main/java/io/kraken/client/model/request/DirectUploadRequest.java:40-51 | a super-call failure comes first, then `image must not be null`; success iff both pass, holding the base request and the image |
| `DirectUploadRequest.Builder.constructor` | src/main/java/io/kraken/client/model/request/DirectUploadRequest.java:57-67 | a new builder holds the image and fresh default options |
| `DirectUploadRequest.Builder.Build` | src/main/java/io/kraken/client/model/request/DirectUploadRequest.java:69-79 | `build()` is the constructor applied to the builder's current state, and the request shares the builder's tag set |
| `DirectUploadRequest.BuildOutcome` | src/main/java/io/kraken/client/model/request/DirectUploadRequest.java:47-79 | from any builder state, building succeeds iff the super call's other flag is present, quality is in range and the image is present, with every option forwarded |
| `DirectUploadRequest.WithDevHasNoEffect` | src/main/java/io/kraken/client/model/request/DirectUploadRequest.java:69-79 | `withDev` on this builder does not change what is built, since `dev` is not passed on |
| `DirectUploadRequest.ImageNotWritten` | src/main/java/io/kraken/client/model/request/DirectUploadRequest.java:37-38 | the image stream is not part of the request's JSON |
| `DirectUploadRequest.AddAfterBuild` | src/main/java/io/kraken/client/model/request/DirectUploadRequest.java:69-79 | a tag added to the builder after `build()` also shows up in the built request (the set is shared) |
| `DirectFileUploadRequest.New` | src/main/java/io/kraken/client/model/request/DirectFileUploadRequest.java:38-49 | a super-call failure comes first, then `image must not be null`; success iff both pass, holding the base request and the file |
| `DirectFileUploadRequest.Builder.constructor` | src/main/java/io/kraken/client/model/request/DirectFileUploadRequest.java:55-65 | a new builder holds the file and fresh default options |
| `DirectFileUploadRequest.Builder.Build` | src/main/java/io/kraken/client/model/request/DirectFileUploadRequest.java:67-77 | `build()` is the constructor applied to the builder's current state, sharing the tag set |
| `DirectFileUploadRequest.BuildOutcome` | src/main/java/io/kraken/client/model/request/DirectFileUploadRequest.java:45-77 | from any builder state, building succeeds iff the other flag is present, quality is in range and the file is present, with every option forwarded |
| `DirectFileUploadRequest.WithDevHasNoEffect` | src/main/java/io/kraken/client/model/request/DirectFileUploadRequest.java:67-77 | `withDev` on this builder does not change what is built |
| `DirectFileUploadRequest.ImageNotWritten` | src/main/java/io/kraken/client/model/request/DirectFileUploadRequest.java:35-36 | the file is not part of the request's JSON |
| `DirectFileUploadRequest.AddAfterBuild` | src/main/java/io/kraken/client/model/request/DirectFileUploadRequest.java:67-77 | a tag added after `build()` shows up in the built request |
| `DirectUploadCallbackUrlRequest.New` | src/main/java/io/kraken/client/model/request/DirectUploadCallbackUrlRequest.java:38-51 | the callback base constructor's failure comes first, then `image must not be null`; success iff both pass |
| `DirectUploadCallbackUrlRequest.ArgsFromOptions` | src/main/java/io/kraken/client/model/request/DirectUploadCallbackUrlRequest.java:69-81 | `build()` passes dev, webp, lossy, quality, resize, the tag set, convert and the callback URL on unchanged |
| `DirectUploadCallbackUrlRequest.Builder.constructor` | src/main/java/io/kraken/client/model/request/DirectUploadCallbackUrlRequest.java:57-67 | a new builder holds the image, the callback URL and fresh default options |
| `DirectUploadCallbackUrlRequest.Builder.Build` | src/main/java/io/kraken/client/model/request/DirectUploadCallbackUrlRequest.java:69-81 | `build()` is the constructor applied to the builder's current state |
| `DirectUploadCallbackUrlRequest.WithDevReachesRequest` | src/main/java/io/kraken/client/model/request/DirectUploadCallbackUrlRequest.java:69-81 | unlike the plain direct upload, `withDev` reaches the constructor arguments |
| `DirectUploadCallbackUrlRequest.ImageNotWritten` | src/main/java/io/kraken/client/model/request/DirectUploadCallbackUrlRequest.java:35-36 | the image stream is not part of the request's JSON |
| `ImageUrlUploadRequest.New` | src/main/java/io/kraken/client/model/request/ImageUrlUploadRequest.java:37-49 | the base constructor as written runs with `wait = true`; its failure comes first, then `imageUrl must not be null`; a result always waits and keeps dev and the URL |
| `ImageUrlUploadRequest.Builder.constructor` | src/main/java/io/kraken/client/model/request/ImageUrlUploadRequest.java:55-65 | a new builder holds the URL and fresh default options |
| `ImageUrlUploadRequest.Builder.Build` | src/main/java/io/kraken/client/model/request/ImageUrlUploadRequest.java:67-78 | `build()` is the constructor applied to the builder's current state, sharing the tag set |
| `ImageUrlUploadRequest.BuildOutcome` | src/main/java/io/kraken/client/model/request/ImageUrlUploadRequest.java:45-78 | from any builder state, building succeeds iff quality is in range and the URL is present, giving exactly the builder's options with wait true |
| `ImageUrlUploadRequest.ToJson` | src/main/java/io/kraken/client/model/request/ImageUrlUploadRequest.java:34-35 | the URL is written under `url`, and `wait` is written |
| `ImageUrlUploadRequest.BuiltRequestWaits` | src/main/java/io/kraken/client/model/request/ImageUrlUploadRequest.java:45 | every built image-URL request is sent with `wait: true` |
| `AuthWrapper.PayloadFlattened` | src/main/java/io/kraken/client/model/AuthWrapper.java:28-31 | the payload's properties appear at the top level next to `auth`, and no other key is added |
| `AuthWrapper.WrapperAddsOnlyAuth` | src/main/java/io/kraken/client/model/AuthWrapper.java:28-38 | with no payload only `auth` can appear, and it appears iff auth is set and writes something |
| `UploadResponse.UploadResponse.constructor` | src/main/java/io/kraken/client/model/response/AbstractUploadResponse.java:40-43 | a read response holds its success flag and body, and no status yet |
| `UploadResponse.UploadResponse.SetStatus` | src/main/java/io/kraken/client/model/response/AbstractUploadResponse.java:53-55 | `setStatus` stores the status and changes nothing else |
| `UploadResponse.Read` | src/main/java/io/kraken/client/model/response/AbstractUploadResponse.java:25-29 | a response reads only from an object whose `success` names the subtype read; a successful body comes with `success = true`, a failed one with `false` |
| `UploadResponse.ReadFailed` | src/main/java/io/kraken/client/model/response/FailedUploadResponse.java:30-35 | reading as `FailedUploadResponse` succeeds iff the document reads as a failed response, and gives the same value |
| `UploadResponse.ReadToJson` | src/main/java/io/kraken/client/model/response/SuccessfulUploadResponse.java:33-46 | a response whose sizes fit in 32 bits reads back from its JSON unchanged, for both subtypes |
| `UploadResponse.OnlyTwoTypeIds` | src/main/java/io/kraken/client/model/response/AbstractUploadResponse.java:26-29 | a `success` that is neither `true` nor `false` (or missing) does not read |
| `UploadResponse.ReadsFailureFixture` | src/main/java/io/kraken/client/model/response/FailedUploadResponse.java:30-39 | `{"success": false, "message": "Unknown API Key"}` reads as a failed response with that message |
| `KrakenIoRequestException.NewRequestException` | src/main/java/io/kraken/client/exception/KrakenIoRequestException.java:28-36 | both constructors: the exception is a request exception with the message, the cause if one is given (none otherwise), and the failed response |
| `DefaultKrakenIoClient.DirectUploadEndpoint` | src/main/java/io/kraken/client/impl/DefaultKrakenIoClient.java:66 | the direct upload URL is the base URL followed by `/v1/upload` |
| `DefaultKrakenIoClient.ImageUrlEndpoint` | src/main/java/io/kraken/client/impl/DefaultKrakenIoClient.java:67 | the image-URL endpoint is the base URL followed by `/v1/url` |
| `DefaultKrakenIoClient.New` | src/main/java/io/kraken/client/impl/DefaultKrakenIoClient.java:91-105 | construction succeeds iff key, secret and base URL are present and non-empty; each failure is the first failing check with its message; the client holds the credentials, both endpoints and the timeout |
| `DefaultKrakenIoClient.DefaultEndpoints` | src/main/java/io/kraken/client/impl/DefaultKrakenIoClient.java:65-81 | the two-argument constructor uses `https://api.kraken.io/v1/upload`, `https://api.kraken.io/v1/url` and 3000 ms |
| `DefaultKrakenIoClient.WrapAuth` | src/main/java/io/kraken/client/impl/DefaultKrakenIoClient.java:168-170 | the envelope carries the client's key and secret and the request |
| `DefaultKrakenIoClient.EnvelopeCarriesCredentials` | src/main/java/io/kraken/client/impl/DefaultKrakenIoClient.java:168-170 | the posted JSON holds every request property unchanged, plus `auth` and nothing else |
| `DefaultKrakenIoClient.MultiPart.constructor` | src/main/java/io/kraken/client/impl/DefaultKrakenIoClient.java:183 | a new multipart has no media type and no parts |
| `DefaultKrakenIoClient.MultiPart.SetMediaType` | src/main/java/io/kraken/client/impl/DefaultKrakenIoClient.java:184 | sets the media type, parts unchanged |
| `DefaultKrakenIoClient.MultiPart.AddBodyPart` | src/main/java/io/kraken/client/impl/DefaultKrakenIoClient.java:186-187 | appends one part at the end, media type unchanged |
| `DefaultKrakenIoClient.HandleRequest` | src/main/java/io/kraken/client/impl/DefaultKrakenIoClient.java:180-190 | the response is the transport's answer to the multipart post built from the envelope and the body part |
| `DefaultKrakenIoClient.PostsGoToTheirEndpoints` | src/main/java/io/kraken/client/impl/DefaultKrakenIoClient.java:144-190 | a direct upload posts `multipart/form-data` to the upload URL with the envelope as part `data` followed by the file part; an image-URL upload posts the envelope as JSON to the URL endpoint |
| `DefaultKrakenIoClient.Expect` | src/main/java/io/kraken/client/impl/DefaultKrakenIoClient.java:192-207 | the outcome: a successful body with 200 is returned; a failed body with any other status is a request failure with that status; everything else (unreadable body, subtype not matching the status) is the generic error |
| `DefaultKrakenIoClient.HandleResponse` | src/main/java/io/kraken/client/impl/DefaultKrakenIoClient.java:192-207 | the method's result matches `Expect`: the returned response has status 200; the request exception carries `Kraken.io request failed` and the failed response with its status; the generic error carries `Failed to unmarshall response` |
| `DefaultKrakenIoClient.ExpectCallback` | src/main/java/io/kraken/client/impl/DefaultKrakenIoClient.java:209-223 | on 200 the result is returned iff the body parses and the success reader accepts it, and otherwise is the generic error with the parse cause; on any other status it is a request failure carrying the status and the failure iff the body reads as a failed response, and otherwise the generic error with the parse cause |
| `DefaultKrakenIoClient.HandleCallbackUrlResponse` | src/main/java/io/kraken/client/impl/DefaultKrakenIoClient.java:209-223 | the method's result matches `ExpectCallback`, with the same messages |
| `DefaultKrakenIoClient.SuccessFlagNeverOverridesStatus` | src/main/java/io/kraken/client/impl/DefaultKrakenIoClient.java:197-205 | a 200 with `success: false`, or a non-200 with `success: true`, ends in the generic error, not in a request failure |
| `DefaultKrakenIoClient.RejectedUploadIsRequestFailure` | src/main/java/io/kraken/client/impl/DefaultKrakenIoClient.java:199-200 | a 400 with a failed body is a request failure holding status 400 and the message |
| `DefaultKrakenIoClient.CallbackSuccessIgnoresFlag` | src/main/java/io/kraken/client/impl/DefaultKrakenIoClient.java:211-212 | on the callback path a 200 is decided by the success reader alone |
| `DefaultKrakenIoClient.CallbackFailuresMatchUploadFailures` | src/main/java/io/kraken/client/impl/DefaultKrakenIoClient.java:199-216 | on any status but 200 the callback path ends in a request failure exactly when `handleResponse` does, with the same failure and status |
| `DefaultKrakenIoClient.TagListing` | src/main/java/io/kraken/client/impl/DefaultKrakenIoClient.java:186 | the tags are written in some order that lists each exactly once |
| `DefaultKrakenIoClient.DirectUpload` | src/main/java/io/kraken/client/impl/DefaultKrakenIoClient.java:134-137 | the result is what `Expect` decides for the transport's answer to the multipart post of the request, for some listing of its tags |
| `DefaultKrakenIoClient.DirectFileUpload` | src/main/java/io/kraken/client/impl/DefaultKrakenIoClient.java:139-142 | the same for a file upload |
| `DefaultKrakenIoClient.ImageUrlUpload` | src/main/java/io/kraken/client/impl/DefaultKrakenIoClient.java:144-149 | the result is what `Expect` decides for the answer to the JSON post of the enveloped request to the URL endpoint |
| `DefaultKrakenIoClient.DirectCallbackUrlUpload` | src/main/java/io/kraken/client/impl/DefaultKrakenIoClient.java:151-154 | the result is what `ExpectCallback` decides for the answer to the multipart post |

## Left out

- The HTTP transport, Jersey's client configuration, connect/read timeouts, logging and redirects. These are a parameter `send`. The timeout is stored but has no effect in the model.
- JSON text and multipart bytes. JSON is a value tree, so whitespace and key order are not modelled.
- The random UUID file name of a stream part. It is a parameter.
- The iteration order of the `HashSet` of metadata. The JSON functions take a listing, and the upload methods pick one nondeterministically.
- The `ObjectMapper` settings at `DefaultKrakenIoClient.java:121-132` appear only as their effects:
  - null fields are omitted;
  - empty arrays are omitted;
  - unknown properties are ignored;
  - enums are read and written through their tokens;
  - integers and decimals are read as exact values (`USE_BIG_INTEGER_FOR_INTS`, `USE_BIG_DECIMAL_FOR_FLOATS`); the coercions of other JSON types into a property's type are not modelled (see the lines below).
- `Auth`, `Metadata`, `AbstractDimensionBasedResize`, `AbstractUploadCallbackUrlRequest`, `SuccessfulUploadCallbackUrlResponse`, the seven-argument `AbstractUploadRequest` super constructor, and the other resize subtypes are not part of this model. They enter as parameters, or as an opaque `Unshown` resize. The names `width` and `height` written for exact and fill resizes belong to `AbstractDimensionBasedResize`.
- UploadRequest.NewWithLeadingTrue: assumes the unseen seven-argument constructor forwards to the eight-argument one at `AbstractUploadRequest.java:47-69`, with only its argument binding left as a parameter. Any check of its own, or a different target, is not captured.
- The client's entry points for `DirectFileUploadCallbackUrlRequest` and `ImageUrlUploadCallbackUrlRequest`. Those request classes are not part of this model. Their path is the callback path already modelled.
- `withPreserveMeta(null)`, a null `HashSet` entry, and null `Convert`/`Resize` fields inside a builder. The model's tags are values, never null.
- `checkNotNull(timeout)` on an `int`. It cannot fail, so the model has no error for it.
- `FailedUploadResponse.toString`, the responses' `objectMapper` field, and `KrakenIoException`'s Java stack trace.
- DefaultKrakenIoClient.EnvelopeCarriesCredentials: stated only for payloads without their own `auth` key. What Jackson does with two `auth` keys is not modelled.
- A 200 answer with `success: false` is not a request failure in this model. The code casts the failed response to the successful subtype, the cast fails, and the generic `Failed to unmarshall response` error results. The model follows the code here, not a reading in which such an answer is a request failure.
- UploadResponse.Read: does not model Jackson's default scalar coercions. A string holding a number (`"original_size": "100"`) or a fraction (`100.5`) bound to an `Integer`, a number bound to a `String`, and a string `"true"` bound to a `Boolean` are errors in the model, while Jackson accepts them.
- Convert.ReadImageFormat: refuses an enum given by its ordinal number (`"format": 0`), which Jackson's default enum binding accepts; only the token strings are read.
- Convert.ReadRGBA: refuses the same scalar coercions as `UploadResponse.Read` for `red`, `green`, `blue` (a string or a fraction into `int`) and `alpha` (a numeric string into `BigDecimal`).
- Convert.FromJson: refuses a `keep_extension` given as the string `"true"` or `"false"`, which Jackson coerces to a `Boolean`.
- Convert.RoundTripWithoutBackground: the name under which the flag is written comes from the getter `getKeepExtension` through the unseen naming rules, so it is a parameter; the model does not establish that it is `keep_extension`, the name read at `Convert.java:39`, nor does it model how Jackson binds the final field `keepExtension` on write.
- UploadResponse.ReadToJson: stated only for sizes that fit in 32 bits, since larger numbers do not read into `Integer`.

## Findings

| source | as written | input that shows it | evidently intended | confidence | as-written member | corrected member |
|---|---|---|---|---|---|---|
| src/main/java/io/kraken/client/model/request/AbstractUploadRequest.java:59 | the "quality only with lossy" check tests `lossy` for null, which the check at line 57 has already excluded, so it never fails | `lossy = false`, `quality = 50` is accepted. Only a direct constructor call can pass this; the shown builders never produce it (`UploadRequest.BuilderStatesPassCorrectedCheck`), so the requests are built on the check as written | a quality is accepted only when lossy is `true` (the message says "quality can only be set if lossy is set", and `withLossy(false)` clears quality) | high; not executed | `UploadRequest.QualityWithoutLossyAccepted` | `UploadRequest.New` |
