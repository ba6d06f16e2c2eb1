/**
 * Values that cross the wire between the apps and their backends: the
 * JSON values that `JSONSerialization` produces and consumes, URLs as
 * scheme/host/port/path records, requests, and the outcome of a network
 * call. Byte-level (de)serialization and `URLSession` are not modelled:
 * a call's outcome is an input of the model.
 */
module Wire {

  datatype Option<+T> = None | Some(value: T)

  datatype Result<+T, +E> = Ok(value: T) | Err(error: E)

  /** A JSON value as `JSONSerialization` hands it to Swift. */
  datatype Json =
    | JNull
    | JBool(b: bool)
    | JNumber(n: real)
    | JString(s: string)
    | JArray(items: seq<Json>)
    | JObject(fields: map<string, Json>)

  /** `value as? [String: Any]` */
  function AsObject(j: Json): (r: Option<map<string, Json>>)
    ensures r.Some? <==> j.JObject?
    ensures r.Some? ==> r.value == j.fields
  {
    if j.JObject? then Some(j.fields) else None
  }

  /** `dict[key] as? [String: Any]` */
  function ObjectField(obj: map<string, Json>, key: string): (r: Option<map<string, Json>>)
    ensures r.Some? <==> key in obj && obj[key].JObject?
    ensures r.Some? ==> r.value == obj[key].fields
  {
    if key in obj then AsObject(obj[key]) else None
  }

  /** `dict[key] as? String` */
  function StringField(obj: map<string, Json>, key: string): (r: Option<string>)
    ensures r.Some? <==> key in obj && obj[key].JString?
    ensures r.Some? ==> obj[key] == JString(r.value)
  {
    if key in obj && obj[key].JString? then Some(obj[key].s) else None
  }

  /** `dict[key] as? Double`: any JSON number. */
  function DoubleField(obj: map<string, Json>, key: string): (r: Option<real>)
    ensures r.Some? <==> key in obj && obj[key].JNumber?
    ensures r.Some? ==> obj[key] == JNumber(r.value)
  {
    if key in obj && obj[key].JNumber? then Some(obj[key].n) else None
  }

  /** `dict[key] as? Int`: a JSON number with no fractional part. */
  function IntField(obj: map<string, Json>, key: string): (r: Option<int>)
    ensures r.Some? <==> key in obj && obj[key].JNumber? && obj[key].n == obj[key].n.Floor as real
    ensures r.Some? ==> obj[key] == JNumber(r.value as real)
  {
    if key in obj && obj[key].JNumber? && obj[key].n == obj[key].n.Floor as real
    then Some(obj[key].n.Floor)
    else None
  }

  /**
   * `value as? [String]`: an array all of whose elements are strings,
   * copied in order.
   */
  function StringArray(j: Json): (r: Option<seq<string>>)
    ensures r.Some? <==> j.JArray? && forall i :: 0 <= i < |j.items| ==> j.items[i].JString?
    ensures r.Some? ==> |r.value| == |j.items|
    ensures r.Some? ==> forall i :: 0 <= i < |r.value| ==> j.items[i] == JString(r.value[i])
  {
    if !j.JArray? then None
    else StringItems(j.items)
  }

  function StringItems(items: seq<Json>): (r: Option<seq<string>>)
    ensures r.Some? <==> forall i :: 0 <= i < |items| ==> items[i].JString?
    ensures r.Some? ==> |r.value| == |items|
    ensures r.Some? ==> forall i :: 0 <= i < |r.value| ==> items[i] == JString(r.value[i])
  {
    if items == [] then Some([])
    else if !items[0].JString? then None
    else
      match StringItems(items[1..])
      case None => None
      case Some(rest) => Some([items[0].s] + rest)
  }

  /** `value as? [[String: Any]]`: an array all of whose elements are objects. */
  function ObjectItems(items: seq<Json>): (r: Option<seq<map<string, Json>>>)
    ensures r.Some? <==> forall i :: 0 <= i < |items| ==> items[i].JObject?
    ensures r.Some? ==> |r.value| == |items|
    ensures r.Some? ==> forall i :: 0 <= i < |r.value| ==> items[i] == JObject(r.value[i])
  {
    if items == [] then Some([])
    else if !items[0].JObject? then None
    else
      match ObjectItems(items[1..])
      case None => None
      case Some(rest) => Some([items[0].fields] + rest)
  }

  /** A URL, already resolved against its base. */
  datatype Url = Url(scheme: string, host: string, port: Option<int>, path: string)

  datatype HttpMethod = GET | POST | PUT

  /** An HTTP request: method, URL, header fields and (for POST/PUT) a JSON body. */
  datatype Request = Request(verb: HttpMethod, url: Url, headers: map<string, string>, body: Option<Json>)

  const ContentTypeHeader := "Content-Type"
  const JsonContentType := "application/json"

  /**
   * The outcome of one network call: the transport failed (the URL error
   * is opaque here), or data arrived that does (`Some`) or does not
   * (`None`, which includes an empty body) parse as JSON.
   */
  datatype Reply = TransportError(code: int) | Received(body: Option<Json>)

  /**
   * `try? JSONSerialization.jsonObject(with: data) as? [String: Any]` on
   * the received data.
   */
  function BodyObject(body: Option<Json>): (r: Option<map<string, Json>>)
    ensures r.Some? <==> body.Some? && body.value.JObject?
    ensures r.Some? ==> body == Some(JObject(r.value))
  {
    if body.Some? then AsObject(body.value) else None
  }

  /**
   * The JSON request that both provider services build: the method, the
   * URL, `Content-Type: application/json` and the serialized payload.
   */
  function JsonRequest(verb: HttpMethod, url: Url, payload: map<string, Json>): (req: Request)
    ensures req.verb == verb && req.url == url
    ensures req.headers.Keys == {ContentTypeHeader} && req.headers[ContentTypeHeader] == JsonContentType
    ensures req.body == Some(JObject(payload))
  {
    Request(verb, url, map[ContentTypeHeader := JsonContentType], Some(JObject(payload)))
  }
}
