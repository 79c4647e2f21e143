/** The answer to an upload: a tagged union on the `success` property
    (`AbstractUploadResponse`, `SuccessfulUploadResponse`, `FailedUploadResponse`). */
module UploadResponse {
  import opened Wrappers
  import opened Json
  import Digits

  /** The variant-specific fields; every one of them may be null and none is checked. */
  datatype Body =
    | Successful(fileName: Option<string>, originalSize: Option<int>, krakedSize: Option<int>,
                 savedBytes: Option<int>, krakedUrl: Option<string>)
    | Failed(message: Option<string>)

  /** A response object. `success` and the variant's fields are fixed at construction;
      `status` is not part of the body and is stamped afterwards by the client. */
  class UploadResponse {
    const success: Option<bool>
    const body: Body
    var status: Option<int>

    /** The creators of both variants: `success` is handed to the base unchanged and the
        status starts out null. */
    constructor (success: Option<bool>, body: Body)
      ensures this.success == success && this.body == body && status.None?
    {
      this.success := success;
      this.body := body;
      status := None;
    }

    /** `setStatus`: replaces the status; `success` and the body are untouched. */
    method SetStatus(status: Option<int>)
      modifies this
      ensures this.status == status
    {
      this.status := status;
    }
  }

  /** What the creator receives: the `success` flag and the variant's fields. */
  datatype ResponseValue = ResponseValue(success: Option<bool>, body: Body)

  /** The names the two variants are registered under. */
  function SubtypeName(b: Body): string {
    if b.Successful? then "true" else "false"
  }

  /** The text of the type id read from the `success` property; null, a missing property
      and a structured value give none. */
  function TypeId(v: Option<Json>): Option<string> {
    match v
    case Some(JBool(b)) => Some(if b then "true" else "false")
    case Some(JString(s)) => Some(s)
    case Some(JInt(i)) => Some(Digits.IntToString(i))
    case _ => None
  }

  /** The creator of `SuccessfulUploadResponse`, reading the properties named by its annotations. */
  function ReadSuccessfulBody(m: map<string, Json>): (r: Result<Body, ParseFailure>)
    ensures r.Ok? ==> r.value.Successful?
  {
    var fileName :- ReadString(Get(m, "file_name"));
    var originalSize :- ReadInteger(Get(m, "original_size"));
    var krakedSize :- ReadInteger(Get(m, "kraked_size"));
    var savedBytes :- ReadInteger(Get(m, "saved_bytes"));
    var krakedUrl :- ReadString(Get(m, "kraked_url"));
    Ok(Successful(fileName, originalSize, krakedSize, savedBytes, krakedUrl))
  }

  /** The creator of `FailedUploadResponse`, reading `message`. */
  function ReadFailedBody(m: map<string, Json>): (r: Result<Body, ParseFailure>)
    ensures r.Ok? ==> r.value.Failed?
  {
    var message :- ReadString(Get(m, "message"));
    Ok(Failed(message))
  }

  /** Reads a response as `AbstractUploadResponse`: the type id selects the variant, whose
      creator then reads its own properties; `success` is visible to it and, being the
      type id, is always the variant's name. Unknown properties, `status` among them, are
      ignored. */
  function Read(j: Json): (r: Result<ResponseValue, ParseFailure>)
    ensures r.Ok? ==> j.JObject? && TypeId(Get(j.members, "success")) == Some(SubtypeName(r.value.body))
    ensures r.Ok? ==> r.value.success == Some(r.value.body.Successful?)
  {
    match j
    case JObject(m) =>
      var id := TypeId(Get(m, "success"));
      if id == Some("true") then
        var body :- ReadSuccessfulBody(m);
        Ok(ResponseValue(Some(true), body))
      else if id == Some("false") then
        var body :- ReadFailedBody(m);
        Ok(ResponseValue(Some(false), body))
      else Err(ParseFailure("missing or unknown type id"))
    case _ => Err(ParseFailure("expected an object"))
  }

  /** Reads a response as `FailedUploadResponse`: the type id must still name that class. */
  function ReadFailed(j: Json): (r: Result<ResponseValue, ParseFailure>)
    ensures r.Ok? <==> Read(j).Ok? && Read(j).value.body.Failed?
    ensures r.Ok? ==> r == Read(j)
  {
    var v :- Read(j);
    if v.body.Failed? then Ok(v) else Err(ParseFailure("type id names a class that is not a FailedUploadResponse"))
  }

  /** The properties a response is written with; the status is never among them. */
  function ToJson(v: ResponseValue): Json {
    var flag := Put(map[], "success", OrNull(v.success, (b: bool) => JBool(b)));
    match v.body
    case Successful(fileName, originalSize, krakedSize, savedBytes, krakedUrl) =>
      JObject(Put(Put(Put(Put(Put(flag,
        "file_name", OrNull(fileName, (s: string) => JString(s))),
        "original_size", OrNull(originalSize, (i: int) => JInt(i))),
        "kraked_size", OrNull(krakedSize, (i: int) => JInt(i))),
        "saved_bytes", OrNull(savedBytes, (i: int) => JInt(i))),
        "kraked_url", OrNull(krakedUrl, (s: string) => JString(s))))
    case Failed(message) =>
      JObject(Put(flag, "message", OrNull(message, (s: string) => JString(s))))
  }

  predicate OptionalInt32(i: Option<int>) {
    i.None? || IsInt32(i.value)
  }

  /** A response whose flag agrees with its variant and whose sizes fit in 32 bits reads
      back as itself. */
  lemma {:induction false} ReadToJson(v: ResponseValue)
    requires v.success == Some(v.body.Successful?)
    requires v.body.Successful? ==>
      OptionalInt32(v.body.originalSize) && OptionalInt32(v.body.krakedSize) && OptionalInt32(v.body.savedBytes)
    ensures Read(ToJson(v)) == Ok(v)
  {
    var m := ToJson(v).members;
    assert Get(m, "success") == Some(JBool(v.body.Successful?));
    if v.body.Successful? {
      SuccessfulBodyReadsBack(v);
    } else {
      FailedBodyReadsBack(v);
    }
  }

  lemma SuccessfulBodyReadsBack(v: ResponseValue)
    requires v.body.Successful?
    requires OptionalInt32(v.body.originalSize) && OptionalInt32(v.body.krakedSize) && OptionalInt32(v.body.savedBytes)
    ensures ReadSuccessfulBody(ToJson(v).members) == Ok(v.body)
  {
    var m := ToJson(v).members;
    var b := v.body;
    var fileName := ReadString(Get(m, "file_name"));
    var originalSize := ReadInteger(Get(m, "original_size"));
    var krakedSize := ReadInteger(Get(m, "kraked_size"));
    var savedBytes := ReadInteger(Get(m, "saved_bytes"));
    var krakedUrl := ReadString(Get(m, "kraked_url"));
    assert fileName == Ok(b.fileName) by {
      assert Get(m, "file_name") == if b.fileName.Some? then Some(JString(b.fileName.value)) else None;
    }
    assert originalSize == Ok(b.originalSize) by {
      assert Get(m, "original_size") == if b.originalSize.Some? then Some(JInt(b.originalSize.value)) else None;
    }
    assert krakedSize == Ok(b.krakedSize) by {
      assert Get(m, "kraked_size") == if b.krakedSize.Some? then Some(JInt(b.krakedSize.value)) else None;
    }
    assert savedBytes == Ok(b.savedBytes) by {
      assert Get(m, "saved_bytes") == if b.savedBytes.Some? then Some(JInt(b.savedBytes.value)) else None;
    }
    assert krakedUrl == Ok(b.krakedUrl) by {
      assert Get(m, "kraked_url") == if b.krakedUrl.Some? then Some(JString(b.krakedUrl.value)) else None;
    }
  }

  lemma FailedBodyReadsBack(v: ResponseValue)
    requires v.body.Failed?
    ensures ReadFailedBody(ToJson(v).members) == Ok(v.body)
  {
    var m := ToJson(v).members;
    assert Get(m, "message") == if v.body.message.Some? then Some(JString(v.body.message.value)) else None;
  }

  /** Only the two registered names select a variant. */
  lemma OnlyTwoTypeIds(m: map<string, Json>)
    requires TypeId(Get(m, "success")) != Some("true") && TypeId(Get(m, "success")) != Some("false")
    ensures Read(JObject(m)).Err?
  {
  }

  /** The failure the service sends for a rejected upload reads as the failure variant. */
  lemma ReadsFailureFixture()
    ensures Read(JObject(map["success" := JBool(false), "message" := JString("Unknown API Key")]))
            == Ok(ResponseValue(Some(false), Failed(Some("Unknown API Key"))))
  {
    var m := map["success" := JBool(false), "message" := JString("Unknown API Key")];
    assert Get(m, "success") == Some(JBool(false));
    assert Get(m, "message") == Some(JString("Unknown API Key"));
  }
}
