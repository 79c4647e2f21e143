/** The client (`DefaultKrakenIoClient`): its configuration, the envelope and multipart body
    it posts, and the decision it makes on the answer. The HTTP transport is a parameter
    `send`, from the request posted to the status and the body as a JSON tree (or the
    failure to parse it). */
module DefaultKrakenIoClient {
  import opened Wrappers
  import opened Preconditions
  import opened Json
  import UploadRequest
  import DirectUploadRequest
  import DirectFileUploadRequest
  import DirectUploadCallbackUrlRequest
  import ImageUrlUploadRequest
  import AuthWrapper
  import UploadResponse
  import Exc = KrakenIoRequestException

  const DefaultBaseUrl: string := "https://api.kraken.io"
  const ClientTimeout: int := 3000
  const DataPart: string := "data"
  const UploadPart: string := "upload"
  const ApplicationJson: string := "application/json"
  const MultipartFormData: string := "multipart/form-data"
  const RequestFailedMessage: string := "Kraken.io request failed"
  const UnmarshallMessage: string := "Failed to unmarshall response"

  /** The patterns `{0}/v1/upload` and `{0}/v1/url` with the base URL put in place of `{0}`. */
  function DirectUploadEndpoint(baseUrl: string): (url: string)
    ensures |url| == |baseUrl| + 10 && url[..|baseUrl|] == baseUrl && url[|baseUrl|..] == "/v1/upload"
  {
    baseUrl + "/v1/upload"
  }

  function ImageUrlEndpoint(baseUrl: string): (url: string)
    ensures |url| == |baseUrl| + 7 && url[..|baseUrl|] == baseUrl && url[|baseUrl|..] == "/v1/url"
  {
    baseUrl + "/v1/url"
  }

  /** The configuration a client keeps; it is never changed after construction. */
  datatype DefaultKrakenIoClient = DefaultKrakenIoClient(
    apiKey: string, apiSecret: string, directUploadUrl: string, imageUrl: string, timeout: int)

  /** The four-argument constructor: each string must be non-null and non-empty, checked in
      the order key, secret, base URL. */
  function New(apiKey: Option<string>, apiSecret: Option<string>, baseUrl: Option<string>, timeout: int)
    : (r: Result<DefaultKrakenIoClient, Failure>)
    ensures r.Ok? <==> apiKey.Some? && apiKey.value != "" && apiSecret.Some? && apiSecret.value != ""
                       && baseUrl.Some? && baseUrl.value != ""
    ensures r.Ok? ==> r.value == DefaultKrakenIoClient(apiKey.value, apiSecret.value, DirectUploadEndpoint(baseUrl.value),
                                                       ImageUrlEndpoint(baseUrl.value), timeout)
    ensures apiKey.None? ==> r == Err(NullPointerException("apiKey must not be null"))
    ensures apiKey == Some("") ==> r == Err(IllegalArgumentException("apiKey must not be empty"))
    ensures apiKey.Some? && apiKey.value != "" && apiSecret.None? ==> r == Err(NullPointerException("apiSecret must not be null"))
    ensures apiKey.Some? && apiKey.value != "" && apiSecret == Some("") ==>
              r == Err(IllegalArgumentException("apiSecret must not be empty"))
    ensures apiKey.Some? && apiKey.value != "" && apiSecret.Some? && apiSecret.value != "" && baseUrl.None? ==>
              r == Err(NullPointerException("baseUrl must not be null"))
    ensures apiKey.Some? && apiKey.value != "" && apiSecret.Some? && apiSecret.value != "" && baseUrl == Some("") ==>
              r == Err(IllegalArgumentException("baseUrl must not be empty"))
  {
    if apiKey.None? then Err(NullPointerException("apiKey must not be null"))
    else if apiKey.value == "" then Err(IllegalArgumentException("apiKey must not be empty"))
    else if apiSecret.None? then Err(NullPointerException("apiSecret must not be null"))
    else if apiSecret.value == "" then Err(IllegalArgumentException("apiSecret must not be empty"))
    else if baseUrl.None? then Err(NullPointerException("baseUrl must not be null"))
    else if baseUrl.value == "" then Err(IllegalArgumentException("baseUrl must not be empty"))
    else Ok(DefaultKrakenIoClient(apiKey.value, apiSecret.value, DirectUploadEndpoint(baseUrl.value),
                                  ImageUrlEndpoint(baseUrl.value), timeout))
  }

  /** The shorter constructors fill in the default base URL and timeout. */
  function NewWithDefaults(apiKey: Option<string>, apiSecret: Option<string>): Result<DefaultKrakenIoClient, Failure> {
    New(apiKey, apiSecret, Some(DefaultBaseUrl), ClientTimeout)
  }

  function NewWithBaseUrl(apiKey: Option<string>, apiSecret: Option<string>, baseUrl: Option<string>)
    : Result<DefaultKrakenIoClient, Failure>
  {
    New(apiKey, apiSecret, baseUrl, ClientTimeout)
  }

  function NewWithTimeout(apiKey: Option<string>, apiSecret: Option<string>, timeout: int)
    : Result<DefaultKrakenIoClient, Failure>
  {
    New(apiKey, apiSecret, Some(DefaultBaseUrl), timeout)
  }

  /** With the defaults, uploads go to the public service. */
  lemma DefaultEndpoints(apiKey: string, apiSecret: string)
    requires apiKey != "" && apiSecret != ""
    ensures NewWithDefaults(Some(apiKey), Some(apiSecret)).Ok?
    ensures NewWithDefaults(Some(apiKey), Some(apiSecret)).value.directUploadUrl == "https://api.kraken.io/v1/upload"
    ensures NewWithDefaults(Some(apiKey), Some(apiSecret)).value.imageUrl == "https://api.kraken.io/v1/url"
    ensures NewWithDefaults(Some(apiKey), Some(apiSecret)).value.timeout == 3000
  {
  }

  /** `wrapAuth`: the request in an envelope holding the configured key and secret. */
  function WrapAuth<T>(c: DefaultKrakenIoClient, request: T): (w: AuthWrapper.AuthWrapper<T>)
    ensures w.auth == Some(AuthWrapper.Auth(c.apiKey, c.apiSecret)) && w.payload == Some(request)
  {
    AuthWrapper.AuthWrapper(Some(AuthWrapper.Auth(c.apiKey, c.apiSecret)), Some(request))
  }

  /** How the types that are not part of this model are written: the credentials, and the
      name under which a conversion's keep-extension flag appears. */
  datatype Writer = Writer(authJson: AuthWrapper.Auth -> Json, keepExtensionKey: string)

  /** The envelope of a request whose own properties are `payload`, as written. */
  function EnvelopeJson(c: DefaultKrakenIoClient, writer: Writer, payload: map<string, Json>): Json {
    AuthWrapper.ToJson(WrapAuth(c, payload), writer.authJson, (p: map<string, Json>) => p)
  }

  /** The envelope holds the request's properties and, beside them, the credentials. */
  lemma EnvelopeCarriesCredentials(c: DefaultKrakenIoClient, writer: Writer, payload: map<string, Json>)
    requires "auth" !in payload
    ensures var m := EnvelopeJson(c, writer, payload).members;
      && (forall k :: k in payload ==> k in m && m[k] == payload[k])
      && m.Keys <= payload.Keys + {"auth"}
      && ("auth" in m <==> Included(writer.authJson(AuthWrapper.Auth(c.apiKey, c.apiSecret))))
  {
    AuthWrapper.PayloadFlattened(Some(AuthWrapper.Auth(c.apiKey, c.apiSecret)), payload, writer.authJson,
                                 (p: map<string, Json>) => p);
  }

  datatype BodyPart =
    | FormDataBodyPart(name: string, entity: Json, mediaType: string)
    | StreamDataBodyPart(name: string, stream: UploadRequest.InputStream, fileName: string)
    | FileDataBodyPart(name: string, file: UploadRequest.File)

  /** A multipart body under construction: parts are appended in place. */
  class MultiPart {
    var mediaType: Option<string>
    var parts: seq<BodyPart>

    constructor ()
      ensures mediaType.None? && parts == []
    {
      mediaType := None;
      parts := [];
    }

    method SetMediaType(mediaType: string)
      modifies this
      ensures this.mediaType == Some(mediaType) && parts == old(parts)
    {
      this.mediaType := Some(mediaType);
    }

    method AddBodyPart(part: BodyPart)
      modifies this
      ensures parts == old(parts) + [part] && mediaType == old(mediaType)
    {
      parts := parts + [part];
    }
  }

  datatype Entity = JsonEntity(json: Json) | MultiPartEntity(mediaType: Option<string>, parts: seq<BodyPart>)

  /** A POST: the target, the accepted media type and the entity. */
  datatype Post = Post(url: string, accept: string, entity: Entity)

  /** What the transport hands back: the status and the body, or why it could not be parsed. */
  datatype HttpResponse = HttpResponse(status: int, entity: Result<Json, ParseFailure>)

  /** The body posted for a direct upload: the envelope as the `data` part, then the image. */
  function MultiPartPost(c: DefaultKrakenIoClient, writer: Writer, payload: map<string, Json>, part: BodyPart): Post {
    Post(c.directUploadUrl, ApplicationJson,
         MultiPartEntity(Some(MultipartFormData),
                         [FormDataBodyPart(DataPart, EnvelopeJson(c, writer, payload), ApplicationJson), part]))
  }

  /** The body posted for an upload by URL: the envelope alone, as JSON. */
  function JsonPost(c: DefaultKrakenIoClient, writer: Writer, payload: map<string, Json>): Post {
    Post(c.imageUrl, ApplicationJson, JsonEntity(EnvelopeJson(c, writer, payload)))
  }

  /** `handleRequest`: a multipart body of two parts in a fixed order, posted to the
      direct-upload endpoint. */
  method HandleRequest(c: DefaultKrakenIoClient, writer: Writer, payload: map<string, Json>, part: BodyPart,
                       send: Post -> HttpResponse) returns (response: HttpResponse)
    ensures response == send(MultiPartPost(c, writer, payload, part))
  {
    var multiPart := new MultiPart();
    multiPart.SetMediaType(MultipartFormData);
    multiPart.AddBodyPart(FormDataBodyPart(DataPart, EnvelopeJson(c, writer, payload), ApplicationJson));
    multiPart.AddBodyPart(part);
    assert multiPart.parts == [FormDataBodyPart(DataPart, EnvelopeJson(c, writer, payload), ApplicationJson), part];
    response := send(Post(c.directUploadUrl, ApplicationJson, MultiPartEntity(multiPart.mediaType, multiPart.parts)));
  }

  /** Direct uploads go to the upload endpoint as multipart form data whose first part is
      the envelope named `data`; uploads by URL go to the URL endpoint as JSON. */
  lemma PostsGoToTheirEndpoints(c: DefaultKrakenIoClient, writer: Writer, payload: map<string, Json>, part: BodyPart)
    ensures var p := MultiPartPost(c, writer, payload, part);
      && p.url == c.directUploadUrl && p.entity.MultiPartEntity?
      && p.entity.mediaType == Some(MultipartFormData)
      && |p.entity.parts| == 2 && p.entity.parts[0].name == DataPart && p.entity.parts[1] == part
      && p.entity.parts[0].entity == EnvelopeJson(c, writer, payload)
    ensures var p := JsonPost(c, writer, payload);
      && p.url == c.imageUrl && p.entity == JsonEntity(EnvelopeJson(c, writer, payload))
  {
  }

  /** The body of an answer read as `AbstractUploadResponse`. */
  function ReadEntity(entity: Result<Json, ParseFailure>): Result<UploadResponse.ResponseValue, ParseFailure> {
    var j :- entity;
    UploadResponse.Read(j)
  }

  /** The body of an answer read as `FailedUploadResponse`. */
  function ReadFailedEntity(entity: Result<Json, ParseFailure>): Result<UploadResponse.ResponseValue, ParseFailure> {
    var j :- entity;
    UploadResponse.ReadFailed(j)
  }

  /** What a response handler ends with: a value returned, the typed error carrying the
      failure the service sent stamped with the status, or the generic error. */
  datatype Expected<S> =
    | Returned(value: S)
    | RequestFailure(failed: UploadResponse.ResponseValue, status: int)
    | Generic(cause: Exc.Cause)

  /** The decision `handleResponse` makes: status 200 calls for the success variant, any
      other status for the failure variant; the other variant fails the cast, and so does a
      body that cannot be read. The `success` flag plays no part beyond selecting the variant. */
  function Expect(response: HttpResponse): (e: Expected<UploadResponse.ResponseValue>)
    ensures var read := ReadEntity(response.entity);
      && (e.Returned? <==> response.status == 200 && read.Ok? && read.value.body.Successful?)
      && (e.RequestFailure? <==> response.status != 200 && read.Ok? && read.value.body.Failed?)
      && (e.Returned? ==> e.value == read.value)
      && (e.RequestFailure? ==> e.failed == read.value && e.status == response.status)
      && (read.Err? ==> e == Generic(Exc.ParseCause(read.error)))
  {
    match ReadEntity(response.entity)
    case Err(f) => Generic(Exc.ParseCause(f))
    case Ok(v) =>
      if response.status == 200 then
        (if v.body.Successful? then Returned(v) else Generic(Exc.ClassCastCause))
      else
        (if v.body.Failed? then RequestFailure(v, response.status) else Generic(Exc.ClassCastCause))
  }

  /** The objects a handler's result may refer to. */
  function Objects<S>(r: Result<S, Exc.KrakenIoException>, returned: S -> set<object>): set<object> {
    if r.Ok? then returned(r.value)
    else if r.error.KrakenIoRequestException? then {r.error.failedUploadResponse}
    else {}
  }

  /** The result of a handler agrees with the decision: a returned value, a typed error
      whose response has the failure's contents and the status stamped, or the generic
      error wrapping the cause. */
  predicate ErrorMatches<S, T>(r: Result<S, Exc.KrakenIoException>, e: Expected<T>)
    requires !e.Returned?
    reads Objects(r, (_: S) => {})
  {
    match e
    case RequestFailure(v, status) =>
      && r.Err? && r.error.KrakenIoRequestException?
      && r.error.message == RequestFailedMessage && r.error.cause.None?
      && r.error.failedUploadResponse.success == v.success
      && r.error.failedUploadResponse.body == v.body
      && r.error.failedUploadResponse.status == Some(status)
    case Generic(cause) =>
      r == Err(Exc.KrakenIoException(UnmarshallMessage, Some(cause)))
  }

  predicate Matches(r: Result<UploadResponse.UploadResponse, Exc.KrakenIoException>, e: Expected<UploadResponse.ResponseValue>)
    reads Objects(r, (o: UploadResponse.UploadResponse) => {o})
  {
    if e.Returned? then
      && r.Ok? && r.value.success == e.value.success && r.value.body == e.value.body
      && r.value.status == Some(200)
    else ErrorMatches(r, e)
  }

  /** `handleResponse`: the body is read, the object is stamped with the status, and the
      status decides which variant it must be. */
  method HandleResponse(response: HttpResponse) returns (r: Result<UploadResponse.UploadResponse, Exc.KrakenIoException>)
    ensures Matches(r, Expect(response))
  {
    var read := ReadEntity(response.entity);
    if read.Err? {
      return Err(Exc.KrakenIoException(UnmarshallMessage, Some(Exc.ParseCause(read.error))));
    }
    var uploadResponse := new UploadResponse.UploadResponse(read.value.success, read.value.body);
    uploadResponse.SetStatus(Some(response.status));
    if response.status == 200 {
      if uploadResponse.body.Successful? {
        r := Ok(uploadResponse);
      } else {
        r := Err(Exc.KrakenIoException(UnmarshallMessage, Some(Exc.ClassCastCause)));
      }
    } else {
      if uploadResponse.body.Failed? {
        r := Err(Exc.NewRequestException(RequestFailedMessage, None, uploadResponse));
      } else {
        r := Err(Exc.KrakenIoException(UnmarshallMessage, Some(Exc.ClassCastCause)));
      }
    }
  }

  /** The decision `handleCallbackUrlResponse` makes, on the status alone: on 200 the body
      is read with `readSuccess` (the reader of `SuccessfulUploadCallbackUrlResponse`, which
      is not part of this model), otherwise as a failure. */
  function ExpectCallback<C>(response: HttpResponse, readSuccess: Json -> Result<C, ParseFailure>): (e: Expected<C>)
    ensures response.status == 200 ==> !e.RequestFailure?
    ensures response.status != 200 ==> !e.Returned?
    ensures response.status == 200 ==>
      (e.Returned? <==> response.entity.Ok? && readSuccess(response.entity.value).Ok?)
    ensures e.Returned? ==> response.entity.Ok? && readSuccess(response.entity.value) == Ok(e.value)
    ensures response.status == 200 && response.entity.Err? ==> e == Generic(Exc.ParseCause(response.entity.error))
    ensures response.status == 200 && response.entity.Ok? && readSuccess(response.entity.value).Err? ==>
      e == Generic(Exc.ParseCause(readSuccess(response.entity.value).error))
    ensures response.status != 200 ==> (e.RequestFailure? <==> ReadFailedEntity(response.entity).Ok?)
    ensures e.RequestFailure? ==> e.status == response.status && ReadFailedEntity(response.entity) == Ok(e.failed)
    ensures response.status != 200 && ReadFailedEntity(response.entity).Err? ==>
      e == Generic(Exc.ParseCause(ReadFailedEntity(response.entity).error))
  {
    if response.status == 200 then
      match response.entity
      case Err(f) => Generic(Exc.ParseCause(f))
      case Ok(j) =>
        (match readSuccess(j)
         case Ok(c) => Returned(c)
         case Err(f) => Generic(Exc.ParseCause(f)))
    else
      match ReadFailedEntity(response.entity)
      case Ok(v) => RequestFailure(v, response.status)
      case Err(f) => Generic(Exc.ParseCause(f))
  }

  predicate CallbackMatches<C(==)>(r: Result<C, Exc.KrakenIoException>, e: Expected<C>)
    reads Objects(r, (_: C) => {})
  {
    if e.Returned? then r == Ok(e.value) else ErrorMatches(r, e)
  }

  /** `handleCallbackUrlResponse`: the success is returned as read, without a status. */
  method HandleCallbackUrlResponse<C(==)>(response: HttpResponse, readSuccess: Json -> Result<C, ParseFailure>)
    returns (r: Result<C, Exc.KrakenIoException>)
    ensures CallbackMatches(r, ExpectCallback(response, readSuccess))
  {
    if response.status == 200 {
      if response.entity.Err? {
        return Err(Exc.KrakenIoException(UnmarshallMessage, Some(Exc.ParseCause(response.entity.error))));
      }
      var read := readSuccess(response.entity.value);
      if read.Err? {
        return Err(Exc.KrakenIoException(UnmarshallMessage, Some(Exc.ParseCause(read.error))));
      }
      r := Ok(read.value);
    } else {
      var read := ReadFailedEntity(response.entity);
      if read.Err? {
        return Err(Exc.KrakenIoException(UnmarshallMessage, Some(Exc.ParseCause(read.error))));
      }
      var failed := new UploadResponse.UploadResponse(read.value.success, read.value.body);
      failed.SetStatus(Some(response.status));
      r := Err(Exc.NewRequestException(RequestFailedMessage, None, failed));
    }
  }

  /** The `success` flag never overrides the status: a failure body with status 200 and a
      success body with any other status both end in the generic error. */
  lemma SuccessFlagNeverOverridesStatus(message: string, status: int)
    requires status != 200
    ensures Expect(HttpResponse(200, Ok(JObject(map["success" := JBool(false), "message" := JString(message)]))))
            == Generic(Exc.ClassCastCause)
    ensures Expect(HttpResponse(status, Ok(JObject(map["success" := JBool(true)]))))
            == Generic(Exc.ClassCastCause)
  {
    var failure := map["success" := JBool(false), "message" := JString(message)];
    assert Get(failure, "success") == Some(JBool(false));
    assert Get(failure, "message") == Some(JString(message));
    var success := map["success" := JBool(true)];
    assert Get(success, "success") == Some(JBool(true));
    assert UploadResponse.ReadSuccessfulBody(success).Ok?;
  }

  /** A rejected upload (status 400, `success` false) becomes the typed error stamped 400. */
  lemma RejectedUploadIsRequestFailure(message: string)
    ensures Expect(HttpResponse(400, Ok(JObject(map["success" := JBool(false), "message" := JString(message)]))))
            == RequestFailure(UploadResponse.ResponseValue(Some(false), UploadResponse.Failed(Some(message))), 400)
  {
    var failure := map["success" := JBool(false), "message" := JString(message)];
    assert Get(failure, "success") == Some(JBool(false));
    assert Get(failure, "message") == Some(JString(message));
  }

  /** On status 200 the callback path never reads the body as an upload response: what it
      ends with depends on the callback reader alone. */
  lemma CallbackSuccessIgnoresFlag<C>(j: Json, readSuccess: Json -> Result<C, ParseFailure>)
    ensures ExpectCallback(HttpResponse(200, Ok(j)), readSuccess)
            == (if readSuccess(j).Ok? then Returned(readSuccess(j).value) else Generic(Exc.ParseCause(readSuccess(j).error)))
  {
  }

  /** On any status but 200 both handlers read the failure the same way: the callback path
      ends in a request failure exactly when `handleResponse` would, carrying the same failure
      and status. */
  lemma CallbackFailuresMatchUploadFailures<C>(response: HttpResponse, readSuccess: Json -> Result<C, ParseFailure>)
    requires response.status != 200
    ensures ExpectCallback(response, readSuccess).RequestFailure? <==> Expect(response).RequestFailure?
    ensures Expect(response).RequestFailure? ==>
      ExpectCallback(response, readSuccess) == RequestFailure(Expect(response).failed, Expect(response).status)
  {
  }

  /** The properties a request is written with, given the order its tag set is iterated in. */
  function DirectPayload(request: DirectUploadRequest.DirectUploadRequest, writer: Writer,
                         listing: seq<UploadRequest.Metadata>): map<string, Json>
  {
    DirectUploadRequest.ToJson(request, listing, writer.keepExtensionKey).members
  }

  function DirectFilePayload(request: DirectFileUploadRequest.DirectFileUploadRequest, writer: Writer,
                             listing: seq<UploadRequest.Metadata>): map<string, Json>
  {
    DirectFileUploadRequest.ToJson(request, listing, writer.keepExtensionKey).members
  }

  function ImageUrlPayload(request: ImageUrlUploadRequest.ImageUrlUploadRequest, writer: Writer,
                           listing: seq<UploadRequest.Metadata>): map<string, Json>
  {
    ImageUrlUploadRequest.ToJson(request, listing, writer.keepExtensionKey).members
  }

  /** The tags in a request's set, none when it has no set. */
  function Tags(r: UploadRequest.UploadRequest): set<UploadRequest.Metadata>
    reads if r.preserveMeta.Some? then {r.preserveMeta.value} else {}
  {
    if r.preserveMeta.Some? then r.preserveMeta.value.elems else {}
  }

  method TagListing(r: UploadRequest.UploadRequest) returns (listing: seq<UploadRequest.Metadata>)
    ensures UploadRequest.Enumerates(listing, Tags(r))
  {
    listing := [];
    if r.preserveMeta.Some? {
      listing := UploadRequest.IterationOrder(r.preserveMeta.value.elems);
    }
  }

  /** `directUpload(DirectUploadRequest)`: the stream goes as the `upload` part under the
      file name `fileName` (a random UUID in the client). */
  method DirectUpload(c: DefaultKrakenIoClient, writer: Writer, request: DirectUploadRequest.DirectUploadRequest,
                      fileName: string, send: Post -> HttpResponse)
    returns (r: Result<UploadResponse.UploadResponse, Exc.KrakenIoException>)
    ensures exists listing :: (UploadRequest.Enumerates(listing, Tags(request.base))
      && Matches(r, Expect(send(MultiPartPost(c, writer, DirectPayload(request, writer, listing),
                                              StreamDataBodyPart(UploadPart, request.image, fileName))))))
  {
    var listing := TagListing(request.base);
    var response := HandleRequest(c, writer, DirectPayload(request, writer, listing),
                                  StreamDataBodyPart(UploadPart, request.image, fileName), send);
    r := HandleResponse(response);
  }

  /** `directUpload(DirectFileUploadRequest)`: the file goes as the `upload` part. */
  method DirectFileUpload(c: DefaultKrakenIoClient, writer: Writer, request: DirectFileUploadRequest.DirectFileUploadRequest,
                          send: Post -> HttpResponse)
    returns (r: Result<UploadResponse.UploadResponse, Exc.KrakenIoException>)
    ensures exists listing :: (UploadRequest.Enumerates(listing, Tags(request.base))
      && Matches(r, Expect(send(MultiPartPost(c, writer, DirectFilePayload(request, writer, listing),
                                              FileDataBodyPart(UploadPart, request.image))))))
  {
    var listing := TagListing(request.base);
    var response := HandleRequest(c, writer, DirectFilePayload(request, writer, listing),
                                  FileDataBodyPart(UploadPart, request.image), send);
    r := HandleResponse(response);
  }

  /** `imageUrlUpload(ImageUrlUploadRequest)`: the envelope is posted as JSON to the URL endpoint. */
  method ImageUrlUpload(c: DefaultKrakenIoClient, writer: Writer, request: ImageUrlUploadRequest.ImageUrlUploadRequest,
                        send: Post -> HttpResponse)
    returns (r: Result<UploadResponse.UploadResponse, Exc.KrakenIoException>)
    ensures exists listing :: (UploadRequest.Enumerates(listing, Tags(request.base))
      && Matches(r, Expect(send(JsonPost(c, writer, ImageUrlPayload(request, writer, listing))))))
  {
    var listing := TagListing(request.base);
    var response := send(JsonPost(c, writer, ImageUrlPayload(request, writer, listing)));
    r := HandleResponse(response);
  }

  /** `directUpload(DirectUploadCallbackUrlRequest)`: posted like a direct upload, answered
      through the callback handler. How the callback base is written, `baseJson`, is not
      part of this model. */
  method DirectCallbackUrlUpload<C(==)>(c: DefaultKrakenIoClient, writer: Writer,
                                    request: DirectUploadCallbackUrlRequest.DirectUploadCallbackUrlRequest,
                                    baseJson: DirectUploadCallbackUrlRequest.CallbackBase -> map<string, Json>,
                                    fileName: string, send: Post -> HttpResponse,
                                    readSuccess: Json -> Result<C, ParseFailure>)
    returns (r: Result<C, Exc.KrakenIoException>)
    ensures CallbackMatches(r, ExpectCallback(
              send(MultiPartPost(c, writer, DirectUploadCallbackUrlRequest.ToJson(request, baseJson).members,
                                 StreamDataBodyPart(UploadPart, request.image, fileName))),
              readSuccess))
  {
    var response := HandleRequest(c, writer, DirectUploadCallbackUrlRequest.ToJson(request, baseJson).members,
                                  StreamDataBodyPart(UploadPart, request.image, fileName), send);
    r := HandleCallbackUrlResponse(response, readSuccess);
  }
}
