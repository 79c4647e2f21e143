/** JSON documents as value trees, with the emission and coercion rules of the client's
    object mapper (`DefaultKrakenIoClient.createObjectMapper`) written out. */
module Json {
  import opened Wrappers
  import Decimal

  datatype Json =
    | JNull
    | JBool(b: bool)
    | JInt(i: int)
    | JDecimal(d: Decimal.Decimal)
    | JString(s: string)
    | JArray(items: seq<Json>)
    | JObject(members: map<string, Json>)

  /** Why a document could not be bound to a Java type. */
  datatype ParseFailure = ParseFailure(reason: string)

  /** A property is written unless it is null (inclusion NON_NULL) or an empty array
      (WRITE_EMPTY_JSON_ARRAYS disabled). */
  predicate Included(v: Json) {
    !v.JNull? && !(v.JArray? && v.items == [])
  }

  /** Writes one property of an object under the inclusion rules. */
  function Put(m: map<string, Json>, key: string, v: Json): (r: map<string, Json>)
    ensures key in r <==> key in m || Included(v)
    ensures Included(v) ==> r[key] == v
    ensures forall k :: k != key ==> (k in r <==> k in m)
    ensures forall k :: k in m && k != key ==> r[k] == m[k]
  {
    if Included(v) then m[key := v] else m
  }

  /** A nullable value, written with `write` when present and as null otherwise. */
  function OrNull<T>(o: Option<T>, write: T -> Json): Json {
    match o
    case None => JNull
    case Some(x) => write(x)
  }

  /** The value of a property, `None` when it is absent. */
  function Get(members: map<string, Json>, key: string): Option<Json> {
    if key in members then Some(members[key]) else None
  }

  predicate IsInt32(i: int) {
    -0x8000_0000 <= i < 0x8000_0000
  }

  /** Binds a property to a `java.lang.Integer`: absent or null gives null, an integer
      within 32 bits gives its value, anything else fails. */
  function ReadInteger(v: Option<Json>): (r: Result<Option<int>, ParseFailure>)
    ensures r.Ok? && r.value.Some? ==> IsInt32(r.value.value)
    ensures (v.None? || v == Some(JNull)) ==> r == Ok(None)
  {
    match v
    case None => Ok(None)
    case Some(JNull) => Ok(None)
    case Some(JInt(i)) => if IsInt32(i) then Ok(Some(i)) else Err(ParseFailure("integer out of range"))
    case Some(_) => Err(ParseFailure("expected an integer"))
  }

  /** Binds a property to a `java.lang.String`. */
  function ReadString(v: Option<Json>): (r: Result<Option<string>, ParseFailure>)
    ensures (v.None? || v == Some(JNull)) ==> r == Ok(None)
  {
    match v
    case None => Ok(None)
    case Some(JNull) => Ok(None)
    case Some(JString(s)) => Ok(Some(s))
    case Some(_) => Err(ParseFailure("expected a string"))
  }

  /** Binds a property to a `java.lang.Boolean`. */
  function ReadBoolean(v: Option<Json>): (r: Result<Option<bool>, ParseFailure>)
    ensures (v.None? || v == Some(JNull)) ==> r == Ok(None)
  {
    match v
    case None => Ok(None)
    case Some(JNull) => Ok(None)
    case Some(JBool(b)) => Ok(Some(b))
    case Some(_) => Err(ParseFailure("expected a boolean"))
  }

  /** Binds a property to a `java.math.BigDecimal` (floats are read as BigDecimal). */
  function ReadBigDecimal(v: Option<Json>): (r: Result<Option<Decimal.Decimal>, ParseFailure>)
    ensures (v.None? || v == Some(JNull)) ==> r == Ok(None)
  {
    match v
    case None => Ok(None)
    case Some(JNull) => Ok(None)
    case Some(JInt(i)) => Ok(Some(Decimal.Decimal(i, 0)))
    case Some(JDecimal(d)) => Ok(Some(d))
    case Some(_) => Err(ParseFailure("expected a number"))
  }
}
