/**
 * An abstract JSON value and the accessors of the platform's org.json
 * JSONObject that the ad loader calls. The conversions org.json performs on
 * values of another type (String.valueOf of a non-string, the parse of a
 * numeric string, the unescaping of a Java literal) are not modelled: the
 * loader receives them as the functions of a `Host` value.
 */
module Json {
  import opened Wrappers

  /** Numbers are integral here; JSON doubles are not modelled. */
  datatype Json =
    | JNull
    | JBool(b: bool)
    | JNum(n: int)
    | JStr(s: string)
    | JArr(items: seq<Json>)
    | JObj(fields: map<string, Json>)

  /** Every accessor failure is the one checked exception org.json throws. */
  datatype JsonError = JsonException

  datatype Host = Host(
    text: Json -> string,             // String.valueOf of a non-string value ("null" for JSON null)
    parseInt: string -> Option<int>,  // the integer a numeric string coerces to, if any
    unescape: string -> string        // StringEscapeUtils.unescapeJava
  )

  /** The string a present value reads as: itself when it is a string. */
  function AsText(v: Json, host: Host): string
  {
    if v.JStr? then v.s else host.text(v)
  }

  /** The integer a value coerces to, when it does. */
  function AsInt(v: Json, host: Host): (r: Option<int>)
    ensures v.JNum? ==> r == Some(v.n)
    ensures !v.JNum? && !v.JStr? ==> r.None?
  {
    match v
    case JNum(n) => Some(n)
    case JStr(s) => host.parseInt(s)
    case _ => None
  }

  /** JSONObject.has: a key mapped to JSON null is present. */
  predicate Has(obj: map<string, Json>, key: string)
  {
    key in obj
  }

  /** JSONObject.getString: fails only on a missing key. */
  function GetString(obj: map<string, Json>, key: string, host: Host): (r: Result<string, JsonError>)
    ensures r.Ok? <==> Has(obj, key)
    ensures Has(obj, key) && obj[key].JStr? ==> r.value == obj[key].s
  {
    if key in obj then Ok(AsText(obj[key], host)) else Err(JsonException)
  }

  /** JSONObject.optString: the fallback exactly when the key is missing. */
  function OptString(obj: map<string, Json>, key: string, fallback: string, host: Host): (r: string)
    ensures !Has(obj, key) ==> r == fallback
    ensures Has(obj, key) && obj[key].JStr? ==> r == obj[key].s
  {
    if key in obj then AsText(obj[key], host) else fallback
  }

  /** JSONObject.getInt: fails on a missing key or a value that is not a number. */
  function GetInt(obj: map<string, Json>, key: string, host: Host): (r: Result<int, JsonError>)
    ensures r.Ok? <==> Has(obj, key) && AsInt(obj[key], host).Some?
    ensures Has(obj, key) && obj[key].JNum? ==> r == Ok(obj[key].n)
  {
    if key in obj && AsInt(obj[key], host).Some? then Ok(AsInt(obj[key], host).value) else Err(JsonException)
  }

  /** JSONObject.optInt: the fallback when the key is missing or not a number. */
  function OptInt(obj: map<string, Json>, key: string, fallback: int, host: Host): (r: int)
    ensures !Has(obj, key) ==> r == fallback
    ensures Has(obj, key) && obj[key].JNum? ==> r == obj[key].n
    ensures Has(obj, key) && !obj[key].JNum? && !obj[key].JStr? ==> r == fallback
  {
    if key in obj && AsInt(obj[key], host).Some? then AsInt(obj[key], host).value else fallback
  }

  /** JSONObject.getJSONArray. */
  function GetArray(obj: map<string, Json>, key: string): (r: Result<seq<Json>, JsonError>)
    ensures r.Ok? <==> Has(obj, key) && obj[key].JArr?
    ensures r.Ok? ==> r.value == obj[key].items
  {
    if key in obj && obj[key].JArr? then Ok(obj[key].items) else Err(JsonException)
  }

  /** JSONObject.getJSONObject and JSONArray.getJSONObject. */
  function AsObject(v: Json): (r: Result<map<string, Json>, JsonError>)
    ensures r.Ok? <==> v.JObj?
    ensures r.Ok? ==> r.value == v.fields
  {
    if v.JObj? then Ok(v.fields) else Err(JsonException)
  }
}
