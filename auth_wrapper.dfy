/** The envelope a request is sent in: the credentials under `auth`, and the request's own
    properties beside them rather than nested (`AuthWrapper`). */
module AuthWrapper {
  import opened Wrappers
  import opened Json

  /** The credentials (`Auth`, not part of this model: how it is written is a parameter). */
  datatype Auth = Auth(apiKey: string, apiSecret: string)

  /** `new AuthWrapper(auth, payload)`: no checks, either may be null; the getters return them. */
  datatype AuthWrapper<T> = AuthWrapper(auth: Option<Auth>, payload: Option<T>)

  /** The envelope as written: `auth` unless it is null, and the payload's properties,
      `payloadFields`, unwrapped into the same object. */
  function ToJson<T>(w: AuthWrapper<T>, authJson: Auth -> Json, payloadFields: T -> map<string, Json>): Json {
    var unwrapped := if w.payload.Some? then payloadFields(w.payload.value) else map[];
    JObject(Put(unwrapped, "auth", OrNull(w.auth, authJson)))
  }

  /** Every property of the payload other than `auth` is a property of the envelope, with
      the same value; the envelope adds at most `auth`. */
  lemma PayloadFlattened<T>(auth: Option<Auth>, payload: T, authJson: Auth -> Json, payloadFields: T -> map<string, Json>)
    ensures var m := ToJson(AuthWrapper(auth, Some(payload)), authJson, payloadFields).members;
      && (forall k :: k in payloadFields(payload) && k != "auth" ==> k in m && m[k] == payloadFields(payload)[k])
      && m.Keys <= payloadFields(payload).Keys + {"auth"}
  {
  }

  /** Without a payload the envelope holds `auth` alone, written when the credentials are
      there and their form is not null. */
  lemma WrapperAddsOnlyAuth<T>(auth: Option<Auth>, authJson: Auth -> Json, payloadFields: T -> map<string, Json>)
    ensures var m := ToJson<T>(AuthWrapper(auth, None), authJson, payloadFields).members;
      && m.Keys <= {"auth"}
      && ("auth" in m <==> auth.Some? && Included(authJson(auth.value)))
  {
  }
}
