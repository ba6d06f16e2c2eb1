/**
 * The driver app's provider-backend client: request builders and response
 * decoders for createVehicle, getVehicle, getTrip and updateTrip. Each
 * network call is modelled by the request it sends and by a function from
 * the call's `Reply` to the value or error the Swift method returns.
 */
module DriverProviderService {
  import opened Wire
  import opened SdkTypes
  import ProviderUtils

  /** URL paths. */
  const CreateVehiclePath := "/vehicle/new"
  const GetVehiclePath := "/vehicle/"
  const GetTripPath := "/trip/"

  /** Request keys. */
  const VehicleIDKey := "vehicleId"
  const BackToBackEnabledKey := "backToBackEnabled"
  const StatusKey := "status"
  const IntermediateDestinationIndexKey := "intermediateDestinationIndex"

  /** Response keys. */
  const NameKey := "name"
  const CurrentTripsIDsKey := "currentTripsIds"
  const TripKey := "trip"
  const TripStatusKey := "tripStatus"
  const WaypointsKey := "waypoints"
  const LocationKey := "location"
  const PointKey := "point"
  const WaypointTypeKey := "waypointType"

  const WaypointTypePickup := "PICKUP_WAYPOINT_TYPE"
  const WaypointTypeDropoff := "DROP_OFF_WAYPOINT_TYPE"
  const WaypointTypeIntermediateDestination := "INTERMEDIATE_DESTINATION_WAYPOINT_TYPE"

  /** The trip statuses the provider accepts from (and reports to) the driver. */
  datatype ProviderTripStatus =
    | New
    | EnrouteToPickup
    | ArrivedAtPickup
    | EnrouteToIntermediateDestination
    | ArrivedAtIntermediateDestination
    | EnrouteToDropoff
    | Complete

  /** The status's raw value on the wire. */
  function RawValue(status: ProviderTripStatus): string {
    match status
    case New => "NEW"
    case EnrouteToPickup => "ENROUTE_TO_PICKUP"
    case ArrivedAtPickup => "ARRIVED_AT_PICKUP"
    case EnrouteToIntermediateDestination => "ENROUTE_TO_INTERMEDIATE_DESTINATION"
    case ArrivedAtIntermediateDestination => "ARRIVED_AT_INTERMEDIATE_DESTINATION"
    case EnrouteToDropoff => "ENROUTE_TO_DROPOFF"
    case Complete => "COMPLETE"
  }

  /**
   * `ProviderTripStatus(rawValue:)`: the status whose raw value is `raw`,
   * if there is one.
   */
  function FromRawValue(raw: string): (r: Option<ProviderTripStatus>)
    ensures r.Some? ==> RawValue(r.value) == raw
    ensures r.None? ==> forall status :: RawValue(status) != raw
  {
    if raw == "NEW" then Some(New)
    else if raw == "ENROUTE_TO_PICKUP" then Some(EnrouteToPickup)
    else if raw == "ARRIVED_AT_PICKUP" then Some(ArrivedAtPickup)
    else if raw == "ENROUTE_TO_INTERMEDIATE_DESTINATION" then Some(EnrouteToIntermediateDestination)
    else if raw == "ARRIVED_AT_INTERMEDIATE_DESTINATION" then Some(ArrivedAtIntermediateDestination)
    else if raw == "ENROUTE_TO_DROPOFF" then Some(EnrouteToDropoff)
    else if raw == "COMPLETE" then Some(Complete)
    else None
  }

  /** Every status survives the trip to its raw value and back. */
  lemma RawValueRoundTrip(status: ProviderTripStatus)
    ensures FromRawValue(RawValue(status)) == Some(status)
  {
  }

  /** CANCELED is a trip status on the wire but not one the driver app knows. */
  lemma CanceledIsNotAProviderTripStatus()
    ensures FromRawValue("CANCELED") == None
  {
  }

  datatype ProviderError = Transport(code: int) | MissingData | MissingURL | InvalidVehicleName

  /* ---------------------------------------------------------------------- */
  /* createVehicle                                                           */

  function CreateVehicleRequest(vehicleID: string, isBackToBackEnabled: bool): (req: Request)
    ensures req.verb == POST && req.url == ProviderUtils.ProviderURL(CreateVehiclePath)
    ensures req.url.path == "/vehicle/new"
    ensures req.headers == map[ContentTypeHeader := JsonContentType]
    ensures req.body.Some? && req.body.value.JObject?
    ensures req.body.value.fields.Keys == {VehicleIDKey, BackToBackEnabledKey}
    ensures req.body.value.fields[VehicleIDKey] == JString(vehicleID)
    ensures req.body.value.fields[BackToBackEnabledKey] == JBool(isBackToBackEnabled)
  {
    JsonRequest(POST, ProviderUtils.ProviderURL(CreateVehiclePath),
      map[VehicleIDKey := JString(vehicleID), BackToBackEnabledKey := JBool(isBackToBackEnabled)])
  }

  /**
   * `components(separatedBy:)` with a one-character separator: the pieces
   * between separators, always at least one.
   */
  function Components(s: string, separator: char): (parts: seq<string>)
    ensures |parts| >= 1
  {
    if s == [] then [""]
    else
      var rest := Components(s[1..], separator);
      if s[0] == separator then [""] + rest
      else [[s[0]] + rest[0]] + rest[1..]
  }

  /** Glues the pieces back together with the separator between them. */
  function Join(parts: seq<string>, separator: char): string
    requires |parts| >= 1
  {
    if |parts| == 1 then parts[0] else parts[0] + [separator] + Join(parts[1..], separator)
  }

  /**
   * Splitting is undone by joining, and no piece contains the separator:
   * the pieces are exactly the text between separators.
   */
  lemma {:induction false} ComponentsJoin(s: string, separator: char)
    ensures Join(Components(s, separator), separator) == s
    ensures forall i :: 0 <= i < |Components(s, separator)| ==> separator !in Components(s, separator)[i]
  {
    if s != [] {
      ComponentsJoin(s[1..], separator);
      var rest := Components(s[1..], separator);
      if s[0] == separator {
        assert Components(s, separator) == [""] + rest;
        assert ([""] + rest)[1..] == rest;
        assert s == [] + [separator] + s[1..];
      } else {
        var parts := [[s[0]] + rest[0]] + rest[1..];
        assert Components(s, separator) == parts;
        if |rest| == 1 {
          assert s == [s[0]] + s[1..];
        } else {
          assert parts[1..] == rest[1..];
          assert Join(rest, separator) == rest[0] + [separator] + Join(rest[1..], separator);
          assert s == [s[0]] + s[1..];
        }
        forall i | 0 <= i < |parts|
          ensures separator !in parts[i]
        {
          if i > 0 { assert parts[i] == rest[i]; }
        }
      }
    }
  }

  /** The last of the pieces, the one `.last` picks. */
  function LastComponent(s: string, separator: char): string {
    var parts := Components(s, separator);
    parts[|parts| - 1]
  }

  /**
   * The last component is the text after the last separator: `s` is some
   * prefix that is empty or ends in the separator, followed by the last
   * component, which contains no separator.
   */
  lemma {:induction false} LastComponentIsSuffix(s: string, separator: char)
    ensures var last := LastComponent(s, separator);
      separator !in last && |last| <= |s| && s[|s| - |last|..] == last &&
      (|last| == |s| || s[|s| - |last| - 1] == separator)
  {
    ComponentsJoin(s, separator);
    LastOfJoin(Components(s, separator), separator);
  }

  lemma {:induction false} LastOfJoin(parts: seq<string>, separator: char)
    requires |parts| >= 1
    ensures var s := Join(parts, separator); var last := parts[|parts| - 1];
      |last| <= |s| && s[|s| - |last|..] == last && (|last| == |s| || s[|s| - |last| - 1] == separator)
  {
    if |parts| > 1 {
      LastOfJoin(parts[1..], separator);
      var tail := Join(parts[1..], separator);
      var s := parts[0] + [separator] + tail;
      assert s[|s| - |tail|..] == tail;
      assert parts[1..][|parts[1..]| - 1] == parts[|parts| - 1];
    }
  }

  /**
   * The vehicle ID createVehicle returns: the response must be an object
   * with a string `name`; the ID is that name's last `/`-separated
   * component. A transport failure is passed on unchanged.
   */
  function CreateVehicleResult(reply: Reply): (r: Result<string, ProviderError>)
    ensures reply.TransportError? ==> r == Err(Transport(reply.code))
    ensures reply.Received? ==>
      (r.Ok? <==> BodyObject(reply.body).Some? && StringField(BodyObject(reply.body).value, NameKey).Some?)
    ensures reply.Received? && r.Err? ==> r.error == MissingData
    ensures r.Ok? ==> r.value == LastComponent(StringField(BodyObject(reply.body).value, NameKey).value, '/')
  {
    match reply
    case TransportError(code) => Err(Transport(code))
    case Received(body) =>
      match BodyObject(body)
      case None => Err(MissingData)
      case Some(obj) =>
        match StringField(obj, NameKey)
        case None => Err(MissingData)
        case Some(vehicleName) => Ok(LastComponent(vehicleName, '/'))
  }

  /** The fully qualified name used in the service's own test yields the bare vehicle ID. */
  lemma CreateVehicleStripsQualifier()
    ensures CreateVehicleResult(Received(Some(JObject(map[NameKey := JString("providers/test-provider/vehicles/test-vehicle")]))))
            == Ok("test-vehicle")
  {
    var name := "providers/test-provider/vehicles/test-vehicle";
    assert name == "providers/test-provider/vehicles" + ['/'] + "test-vehicle";
    LastComponentAfterSeparator("providers/test-provider/vehicles", '/', "test-vehicle");
  }

  /** Text without the separator is a single component. */
  lemma {:induction false} ComponentsWithoutSeparator(t: string, separator: char)
    requires separator !in t
    ensures Components(t, separator) == [t]
  {
    if t != [] {
      ComponentsWithoutSeparator(t[1..], separator);
      assert [t[0]] + t[1..] == t;
    }
  }

  /** Text holding the separator splits into at least two components. */
  lemma {:induction false} ComponentsWithSeparator(t: string, separator: char)
    requires separator in t
    ensures |Components(t, separator)| >= 2
  {
    if t[0] != separator {
      ComponentsWithSeparator(t[1..], separator);
    }
  }

  /** Whatever follows the last separator is the last component. */
  lemma {:induction false} LastComponentAfterSeparator(prefix: string, separator: char, last: string)
    requires separator !in last
    ensures LastComponent(prefix + [separator] + last, separator) == last
  {
    var s := prefix + [separator] + last;
    if prefix == [] {
      assert s == [separator] + last;
      assert s[1..] == last;
      ComponentsWithoutSeparator(last, separator);
    } else {
      var tail := prefix[1..] + [separator] + last;
      assert s[1..] == tail;
      assert separator in tail by { assert tail[|prefix| - 1] == separator; }
      ComponentsWithSeparator(tail, separator);
      LastComponentAfterSeparator(prefix[1..], separator, last);
    }
  }

  /**
   * `invalidVehicleName` is never produced. The source guards
   * `components.last`, but that guard cannot fail, because `Components`
   * always returns at least one part (its `|parts| >= 1`); the model's
   * `CreateVehicleResult` therefore has no branch for it.
   */
  lemma InvalidVehicleNameUnreachable(reply: Reply)
    ensures CreateVehicleResult(reply) != Err(InvalidVehicleName)
  {
  }

  /** An empty object is not a vehicle. */
  lemma CreateVehicleRejectsEmptyObject()
    ensures CreateVehicleResult(Received(Some(JObject(map[])))) == Err(MissingData)
  {
  }

  /* ---------------------------------------------------------------------- */
  /* getVehicle                                                              */

  function GetVehicleURL(vehicleID: string): (u: Url)
    ensures u.scheme == ProviderUtils.ProviderScheme && u.port == Some(ProviderUtils.ProviderPort)
    ensures u.host == ProviderUtils.ProviderHost && u.path == GetVehiclePath + vehicleID
  {
    ProviderUtils.AppendSegment(ProviderUtils.ProviderURL(GetVehiclePath), vehicleID)
  }

  function GetVehicleRequest(vehicleID: string): (req: Request)
    ensures req.verb == GET && req.url == GetVehicleURL(vehicleID) && req.body.None?
  {
    Request(GET, GetVehicleURL(vehicleID), map[], None)
  }

  /**
   * The trip IDs matched to the vehicle: `currentTripsIds` must be an
   * array of strings, and is returned verbatim and in order.
   */
  function GetVehicleResult(reply: Reply): (r: Result<seq<string>, ProviderError>)
    ensures reply.TransportError? ==> r == Err(Transport(reply.code))
    ensures reply.Received? && r.Err? ==> r.error == MissingData
    ensures r.Ok? <==>
      reply.Received? && BodyObject(reply.body).Some? && CurrentTripsIDsKey in BodyObject(reply.body).value &&
      StringArray(BodyObject(reply.body).value[CurrentTripsIDsKey]).Some?
    ensures r.Ok? ==>
      var items := BodyObject(reply.body).value[CurrentTripsIDsKey].items;
      |r.value| == |items| && forall i :: 0 <= i < |items| ==> items[i] == JString(r.value[i])
  {
    match reply
    case TransportError(code) => Err(Transport(code))
    case Received(body) =>
      match BodyObject(body)
      case None => Err(MissingData)
      case Some(obj) =>
        if CurrentTripsIDsKey !in obj then Err(MissingData)
        else
          match StringArray(obj[CurrentTripsIDsKey])
          case None => Err(MissingData)
          case Some(ids) => Ok(ids)
  }

  /** The JSON array of strings the backend sends for a list of trip IDs. */
  function TripIDsJson(tripIDs: seq<string>): (j: Json)
    ensures j.JArray? && |j.items| == |tripIDs|
    ensures forall i :: 0 <= i < |tripIDs| ==> j.items[i] == JString(tripIDs[i])
  {
    JArray(seq(|tripIDs|, i requires 0 <= i < |tripIDs| => JString(tripIDs[i])))
  }

  /** Whatever list of trip IDs the backend sends is returned unchanged. */
  lemma GetVehicleReturnsSentTripIDs(tripIDs: seq<string>)
    ensures GetVehicleResult(Received(Some(JObject(map[CurrentTripsIDsKey := TripIDsJson(tripIDs)])))) == Ok(tripIDs)
  {
    var j := TripIDsJson(tripIDs);
    assert StringArray(j).Some?;
    var ids := StringArray(j).value;
    assert forall i :: 0 <= i < |ids| ==> JString(ids[i]) == JString(tripIDs[i]);
    assert ids == tripIDs;
  }

  /* ---------------------------------------------------------------------- */
  /* getTrip                                                                 */

  function GetTripURL(tripID: string): (u: Url)
    ensures u.scheme == ProviderUtils.ProviderScheme && u.port == Some(ProviderUtils.ProviderPort)
    ensures u.host == ProviderUtils.ProviderHost && u.path == GetTripPath + tripID
  {
    ProviderUtils.AppendSegment(ProviderUtils.ProviderURL(GetTripPath), tripID)
  }

  function GetTripRequest(tripID: string): (req: Request)
    ensures req.verb == GET && req.url == GetTripURL(tripID) && req.body.None?
  {
    Request(GET, GetTripURL(tripID), map[], None)
  }

  /** The wire string of a waypoint type; `unknown` has none. */
  function WaypointTypeWire(t: WaypointType): string
    requires t != Unknown
  {
    match t
    case PickUp => WaypointTypePickup
    case DropOff => WaypointTypeDropoff
    case IntermediateDestination => WaypointTypeIntermediateDestination
  }

  /** The waypoint-type switch in makeWaypoint: unrecognised strings become `unknown`. */
  function WaypointTypeFromWire(s: string): (t: WaypointType)
    ensures t != Unknown ==> WaypointTypeWire(t) == s
    ensures t == Unknown <==> s !in {WaypointTypePickup, WaypointTypeDropoff, WaypointTypeIntermediateDestination}
  {
    if s == WaypointTypePickup then PickUp
    else if s == WaypointTypeDropoff then DropOff
    else if s == WaypointTypeIntermediateDestination then IntermediateDestination
    else Unknown
  }

  /** Every known type survives the trip to its wire string and back. */
  lemma WaypointTypeRoundTrip(t: WaypointType)
    requires t != Unknown
    ensures WaypointTypeFromWire(WaypointTypeWire(t)) == t
  {
  }

  /**
   * makeWaypoint: a waypoint object must hold `location.point.latitude`,
   * `location.point.longitude` (numbers) and a string `waypointType`. The
   * waypoint carries the requested trip ID, distance 0 and ETA 0.
   */
  function MakeWaypoint(waypointJSON: map<string, Json>, tripID: string): (r: Option<TripWaypoint>)
    ensures r.Some? <==>
      ObjectField(waypointJSON, LocationKey).Some? &&
      ObjectField(ObjectField(waypointJSON, LocationKey).value, PointKey).Some? &&
      ReadLatLng(ObjectField(ObjectField(waypointJSON, LocationKey).value, PointKey).value).Some? &&
      StringField(waypointJSON, WaypointTypeKey).Some?
    ensures r.Some? ==>
      r.value.location.point == ReadLatLng(ObjectField(ObjectField(waypointJSON, LocationKey).value, PointKey).value) &&
      r.value.waypointType == WaypointTypeFromWire(StringField(waypointJSON, WaypointTypeKey).value) &&
      r.value.tripID == tripID && r.value.distanceToPreviousWaypointInMeters == 0 && r.value.eta == 0
  {
    match ObjectField(waypointJSON, LocationKey)
    case None => None
    case Some(locationJSON) =>
      match ObjectField(locationJSON, PointKey)
      case None => None
      case Some(pointJSON) =>
        match (ReadLatLng(pointJSON), StringField(waypointJSON, WaypointTypeKey))
        case (Some(latLng), Some(typeString)) =>
          Some(TripWaypoint(TerminalLocation(Some(latLng)), tripID, WaypointTypeFromWire(typeString), 0, 0))
        case _ => None
  }

  /**
   * `try? waypointsJSON.map(makeWaypoint)`: every waypoint must decode,
   * and the decoded list has the same length and order as the JSON array.
   */
  function MakeWaypoints(waypointsJSON: seq<map<string, Json>>, tripID: string): (r: Option<seq<TripWaypoint>>)
    ensures r.Some? <==> forall i :: 0 <= i < |waypointsJSON| ==> MakeWaypoint(waypointsJSON[i], tripID).Some?
    ensures r.Some? ==> |r.value| == |waypointsJSON|
    ensures r.Some? ==> forall i :: 0 <= i < |waypointsJSON| ==> r.value[i] == MakeWaypoint(waypointsJSON[i], tripID).value
  {
    if waypointsJSON == [] then Some([])
    else
      match MakeWaypoint(waypointsJSON[0], tripID)
      case None => None
      case Some(first) =>
        match MakeWaypoints(waypointsJSON[1..], tripID)
        case None => None
        case Some(rest) => Some([first] + rest)
  }

  /** The fields getTrip needs out of the response's `trip` object. */
  function TripFields(reply: Reply): Option<(string, seq<Json>)> {
    if !reply.Received? then None
    else
      match BodyObject(reply.body)
      case None => None
      case Some(obj) =>
        match ObjectField(obj, TripKey)
        case None => None
        case Some(trip) =>
          match StringField(trip, TripStatusKey)
          case None => None
          case Some(status) =>
            if WaypointsKey in trip && trip[WaypointsKey].JArray?
            then Some((status, trip[WaypointsKey].items))
            else None
  }

  /**
   * getTrip: `trip.tripStatus` must be one of the seven raw values and
   * `trip.waypoints` an array of objects each of which decodes; any other
   * shape, including the status CANCELED, fails the whole call.
   */
  function GetTripResult(reply: Reply, tripID: string): (r: Result<(ProviderTripStatus, seq<TripWaypoint>), ProviderError>)
    ensures reply.TransportError? ==> r == Err(Transport(reply.code))
    ensures reply.Received? && r.Err? ==> r.error == MissingData
    ensures r.Ok? <==>
      TripFields(reply).Some? &&
      FromRawValue(TripFields(reply).value.0).Some? &&
      ObjectItems(TripFields(reply).value.1).Some? &&
      MakeWaypoints(ObjectItems(TripFields(reply).value.1).value, tripID).Some?
    ensures r.Ok? ==>
      var items := TripFields(reply).value.1;
      RawValue(r.value.0) == TripFields(reply).value.0 &&
      |r.value.1| == |items| &&
      forall i :: 0 <= i < |items| ==>
        items[i].JObject? && r.value.1[i] == MakeWaypoint(items[i].fields, tripID).value
  {
    if reply.TransportError? then Err(Transport(reply.code))
    else
      match TripFields(reply)
      case None => Err(MissingData)
      case Some((statusString, items)) =>
        match (FromRawValue(statusString), ObjectItems(items))
        case (Some(status), Some(waypointsJSON)) =>
          (match MakeWaypoints(waypointsJSON, tripID)
           case None => Err(MissingData)
           case Some(waypoints) => Ok((status, waypoints)))
        case _ => Err(MissingData)
  }

  /** One waypoint missing its point makes the whole call fail. */
  lemma {:induction false} GetTripFailsOnOneBadWaypoint(reply: Reply, tripID: string, k: nat)
    requires TripFields(reply).Some?
    requires k < |TripFields(reply).value.1|
    requires TripFields(reply).value.1[k].JObject?
    requires ObjectField(TripFields(reply).value.1[k].fields, LocationKey).None?
    ensures GetTripResult(reply, tripID) == Err(MissingData)
  {
    var items := TripFields(reply).value.1;
    if ObjectItems(items).Some? {
      var objs := ObjectItems(items).value;
      assert items[k] == JObject(objs[k]);
      assert MakeWaypoint(objs[k], tripID).None?;
    }
  }

  /* ---------------------------------------------------------------------- */
  /* updateTrip                                                              */

  function UpdateTripURL(tripID: string): (u: Url)
    ensures u.scheme == ProviderUtils.ProviderScheme && u.port == Some(ProviderUtils.ProviderPort)
    ensures u.host == ProviderUtils.ProviderHost && u.path == GetTripPath + tripID
  {
    ProviderUtils.AppendSegment(ProviderUtils.ProviderURL(GetTripPath), tripID)
  }

  /**
   * Builds the updateTrip PUT: the status's raw value, plus the
   * intermediate destination index exactly when one is given.
   */
  method UpdateTripRequest(tripID: string, status: ProviderTripStatus, intermediateDestinationIndex: Option<int>)
    returns (req: Request)
    ensures req.verb == PUT && req.url == UpdateTripURL(tripID)
    ensures req.headers == map[ContentTypeHeader := JsonContentType]
    ensures req.body.Some? && req.body.value.JObject?
    ensures req.body.value.fields.Keys <= {StatusKey, IntermediateDestinationIndexKey}
    ensures StatusKey in req.body.value.fields
    ensures req.body.value.fields[StatusKey].JString?
    ensures FromRawValue(req.body.value.fields[StatusKey].s) == Some(status)
    ensures IntermediateDestinationIndexKey in req.body.value.fields <==> intermediateDestinationIndex.Some?
    ensures intermediateDestinationIndex.Some? ==>
      IntField(req.body.value.fields, IntermediateDestinationIndexKey) == intermediateDestinationIndex
  {
    var payloadDict := map[StatusKey := JString(RawValue(status))];
    if intermediateDestinationIndex.Some? {
      payloadDict := payloadDict[IntermediateDestinationIndexKey := JNumber(intermediateDestinationIndex.value as real)];
    }
    req := JsonRequest(PUT, UpdateTripURL(tripID), payloadDict);
    RawValueRoundTrip(status);
  }

  /** updateTrip ignores the response body; only a transport failure fails it. */
  function UpdateTripResult(reply: Reply): (r: Result<(), ProviderError>)
    ensures r.Ok? <==> reply.Received?
    ensures r.Err? ==> r.error == Transport(reply.code)
  {
    match reply
    case TransportError(code) => Err(Transport(code))
    case Received(_) => Ok(())
  }
}
