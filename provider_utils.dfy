/**
 * The consumer app's helpers for talking to the provider backend: the
 * provider URL and the wire format of a terminal location.
 */
module ProviderUtils {
  import opened Wire
  import opened SdkTypes

  /** `http://localhost:8080` */
  const ProviderScheme := "http"
  const ProviderHost := "localhost"
  const ProviderPort := 8080

  /**
   * `URL(string: path, relativeTo: URL(string: "http://localhost:8080"))`.
   * The base has an empty path, so a path without a leading `/` is
   * resolved as if it had one.
   */
  function ProviderURL(path: string): (u: Url)
    ensures u.scheme == ProviderScheme && u.host == ProviderHost && u.port == Some(ProviderPort)
    ensures |path| > 0 && path[0] == '/' ==> u.path == path
    ensures !(|path| > 0 && path[0] == '/') ==> u.path == "/" + path
  {
    Url(ProviderScheme, ProviderHost, Some(ProviderPort), if |path| > 0 && path[0] == '/' then path else "/" + path)
  }

  /**
   * `URL(string: segment, relativeTo: base)` for a base whose path ends
   * in `/` and a plain path segment: the segment replaces the empty last
   * segment of the base path.
   */
  function AppendSegment(base: Url, segment: string): (u: Url)
    ensures u == base.(path := base.path + segment)
  {
    base.(path := base.path + segment)
  }

  /**
   * Formats a terminal location as `{latitude, longitude}`; an unset
   * location is sent as (0, 0).
   */
  function FormattedParameterOfTerminalLocation(location: TerminalLocation): (r: map<string, real>)
    ensures r.Keys == {LatitudeKey, LongitudeKey}
    ensures location.point.None? ==> r[LatitudeKey] == 0.0 && r[LongitudeKey] == 0.0
    ensures location.point.Some? ==>
      r[LatitudeKey] == location.point.value.latitude && r[LongitudeKey] == location.point.value.longitude
  {
    match location.point
    case None => map[LatitudeKey := 0.0, LongitudeKey := 0.0]
    case Some(p) => map[LatitudeKey := p.latitude, LongitudeKey := p.longitude]
  }

  /** Formats each location in turn, keeping length and order. */
  function FormattedParameterOfArrayOfTerminalLocations(locations: seq<TerminalLocation>): (r: seq<map<string, real>>)
    ensures |r| == |locations|
    ensures forall i :: 0 <= i < |r| ==> r[i] == FormattedParameterOfTerminalLocation(locations[i])
  {
    if locations == [] then []
    else [FormattedParameterOfTerminalLocation(locations[0])]
         + FormattedParameterOfArrayOfTerminalLocations(locations[1..])
  }

  /** A `[String: Double]` dictionary as a JSON object. */
  function NumberObject(m: map<string, real>): (j: Json)
    ensures j.JObject? && j.fields.Keys == m.Keys
    ensures forall k :: k in m ==> j.fields[k] == JNumber(m[k])
  {
    JObject(map k | k in m :: JNumber(m[k]))
  }

  /** The formatted array as a JSON array of objects. */
  function NumberObjects(ms: seq<map<string, real>>): (j: Json)
    ensures j.JArray? && |j.items| == |ms|
    ensures forall i :: 0 <= i < |ms| ==> j.items[i] == NumberObject(ms[i])
  {
    JArray(seq(|ms|, i requires 0 <= i < |ms| => NumberObject(ms[i])))
  }

  /**
   * Whoever reads a formatted location back as a point gets the
   * location's own point, or (0, 0) for an unset location.
   */
  lemma FormattedLocationReadsBack(location: TerminalLocation)
    ensures NumberObject(FormattedParameterOfTerminalLocation(location)).JObject?
    ensures ReadLatLng(NumberObject(FormattedParameterOfTerminalLocation(location)).fields)
            == Some(if location.point.Some? then location.point.value else LatLng(0.0, 0.0))
  {
    var m := FormattedParameterOfTerminalLocation(location);
    var j := NumberObject(m);
    assert j.fields[LatitudeKey] == JNumber(m[LatitudeKey]);
    assert j.fields[LongitudeKey] == JNumber(m[LongitudeKey]);
  }

  /**
   * Reading back every element of the formatted array gives the points of
   * the input, in order.
   */
  lemma {:induction false} FormattedLocationsReadBack(locations: seq<TerminalLocation>, i: nat)
    requires i < |locations|
    ensures var j := NumberObjects(FormattedParameterOfArrayOfTerminalLocations(locations));
      |j.items| == |locations| && j.items[i].JObject? &&
      ReadLatLng(j.items[i].fields)
        == Some(if locations[i].point.Some? then locations[i].point.value else LatLng(0.0, 0.0))
  {
    FormattedLocationReadsBack(locations[i]);
  }
}
