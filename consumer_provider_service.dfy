/**
 * The consumer app's provider-backend client: createTrip (POST
 * `/trip/new`) and cancelTrip (PUT `/trip/{id}` with status CANCELED).
 */
module ConsumerProviderService {
  import opened Wire
  import opened SdkTypes
  import ProviderUtils

  const CreateTripPath := "/trip/new"
  const UpdateTripPath := "/trip/"

  const StatusKey := "status"
  const PickupKey := "pickup"
  const DropoffKey := "dropoff"
  const IntermediateDestinationsKey := "intermediateDestinations"
  const TripNameKey := "name"
  const TripStatusCanceled := "CANCELED"

  datatype ProviderError = Transport(code: int) | MissingData | MissingURL

  /**
   * The createTrip body: the pickup, the drop-off and the intermediate
   * destinations, each formatted as `{latitude, longitude}`.
   */
  function CreateTripPayload(pickup: TerminalLocation, dropoff: TerminalLocation, intermediateDestinations: seq<TerminalLocation>)
    : (payload: map<string, Json>)
    ensures payload.Keys == {PickupKey, DropoffKey, IntermediateDestinationsKey}
    ensures payload[PickupKey] == ProviderUtils.NumberObject(ProviderUtils.FormattedParameterOfTerminalLocation(pickup))
    ensures payload[DropoffKey] == ProviderUtils.NumberObject(ProviderUtils.FormattedParameterOfTerminalLocation(dropoff))
    ensures payload[IntermediateDestinationsKey].JArray?
    ensures |payload[IntermediateDestinationsKey].items| == |intermediateDestinations|
  {
    map[
      PickupKey := ProviderUtils.NumberObject(ProviderUtils.FormattedParameterOfTerminalLocation(pickup)),
      DropoffKey := ProviderUtils.NumberObject(ProviderUtils.FormattedParameterOfTerminalLocation(dropoff)),
      IntermediateDestinationsKey := ProviderUtils.NumberObjects(
        ProviderUtils.FormattedParameterOfArrayOfTerminalLocations(intermediateDestinations))]
  }

  function CreateTripRequest(pickup: TerminalLocation, dropoff: TerminalLocation, intermediateDestinations: seq<TerminalLocation>)
    : (req: Request)
    ensures req.verb == POST && req.url == ProviderUtils.ProviderURL(CreateTripPath)
    ensures req.url.path == "/trip/new"
    ensures req.headers == map[ContentTypeHeader := JsonContentType]
    ensures req.body == Some(JObject(CreateTripPayload(pickup, dropoff, intermediateDestinations)))
  {
    JsonRequest(POST, ProviderUtils.ProviderURL(CreateTripPath), CreateTripPayload(pickup, dropoff, intermediateDestinations))
  }

  /** The point the backend reads out of a formatted location. */
  function SentPoint(location: TerminalLocation): LatLng {
    if location.point.Some? then location.point.value else LatLng(0.0, 0.0)
  }

  /**
   * The backend reads back from the createTrip body the pickup, the
   * drop-off and every intermediate destination, in order (an unset
   * location as (0, 0)).
   */
  lemma {:induction false} CreateTripPayloadReadsBack(pickup: TerminalLocation, dropoff: TerminalLocation, intermediateDestinations: seq<TerminalLocation>)
    ensures var payload := CreateTripPayload(pickup, dropoff, intermediateDestinations);
      payload[PickupKey].JObject? && ReadLatLng(payload[PickupKey].fields) == Some(SentPoint(pickup)) &&
      payload[DropoffKey].JObject? && ReadLatLng(payload[DropoffKey].fields) == Some(SentPoint(dropoff)) &&
      forall i :: 0 <= i < |intermediateDestinations| ==>
        payload[IntermediateDestinationsKey].items[i].JObject? &&
        ReadLatLng(payload[IntermediateDestinationsKey].items[i].fields) == Some(SentPoint(intermediateDestinations[i]))
  {
    ProviderUtils.FormattedLocationReadsBack(pickup);
    ProviderUtils.FormattedLocationReadsBack(dropoff);
    forall i | 0 <= i < |intermediateDestinations|
      ensures var items := CreateTripPayload(pickup, dropoff, intermediateDestinations)[IntermediateDestinationsKey].items;
        items[i].JObject? && ReadLatLng(items[i].fields) == Some(SentPoint(intermediateDestinations[i]))
    {
      ProviderUtils.FormattedLocationsReadBack(intermediateDestinations, i);
    }
  }

  /**
   * The trip name createTrip returns: the response's string `name`,
   * verbatim. Unparseable or empty data, a non-object or a missing name
   * fail with `missingData`; a transport failure is passed on.
   */
  function CreateTripResult(reply: Reply): (r: Result<string, ProviderError>)
    ensures reply.TransportError? ==> r == Err(Transport(reply.code))
    ensures reply.Received? && r.Err? ==> r.error == MissingData
    ensures r.Ok? <==> reply.Received? && BodyObject(reply.body).Some? && StringField(BodyObject(reply.body).value, TripNameKey).Some?
    ensures r.Ok? ==> reply.body.value.fields[TripNameKey] == JString(r.value)
  {
    match reply
    case TransportError(code) => Err(Transport(code))
    case Received(body) =>
      match BodyObject(body)
      case None => Err(MissingData)
      case Some(obj) =>
        match StringField(obj, TripNameKey)
        case None => Err(MissingData)
        case Some(tripName) => Ok(tripName)
  }

  /** An empty response body is a failed createTrip. */
  lemma CreateTripFailsOnEmptyBody()
    ensures CreateTripResult(Received(None)) == Err(MissingData)
  {
  }

  function CancelTripURL(tripID: string): (u: Url)
    ensures u.scheme == ProviderUtils.ProviderScheme && u.port == Some(ProviderUtils.ProviderPort)
    ensures u.host == ProviderUtils.ProviderHost && u.path == UpdateTripPath + tripID
  {
    ProviderUtils.AppendSegment(ProviderUtils.ProviderURL(UpdateTripPath), tripID)
  }

  function CancelTripRequest(tripID: string): (req: Request)
    ensures req.verb == PUT && req.url == CancelTripURL(tripID)
    ensures req.headers == map[ContentTypeHeader := JsonContentType]
    ensures req.body == Some(JObject(map[StatusKey := JString(TripStatusCanceled)]))
  {
    JsonRequest(PUT, CancelTripURL(tripID), map[StatusKey := JString(TripStatusCanceled)])
  }

  /** cancelTrip ignores the response, even an empty one; only a transport failure fails it. */
  function CancelTripResult(reply: Reply): (r: Result<(), ProviderError>)
    ensures r.Ok? <==> reply.Received?
    ensures r.Err? ==> r.error == Transport(reply.code)
  {
    match reply
    case TransportError(code) => Err(Transport(code))
    case Received(_) => Ok(())
  }
}
