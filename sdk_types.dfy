/**
 * Plain-value stand-ins for the fleet SDK's value types (`GMTSLatLng`,
 * `GMTSTerminalLocation`, `GMTSTripWaypoint`, `GMTSTripWaypointType`,
 * `GMTSTripStatus`). Only the parts the apps read or write are kept.
 */
module SdkTypes {
  import opened Wire

  /** Coordinates are only ever copied, never computed with. */
  datatype LatLng = LatLng(latitude: real, longitude: real)

  /**
   * A terminal location. The apps always build these with a nil label,
   * description, place ID, generated ID and access-point ID, so only the
   * optional point is kept; a location without a point is "unset".
   */
  datatype TerminalLocation = TerminalLocation(point: Option<LatLng>)

  const UnsetLocation := TerminalLocation(None)

  datatype WaypointType = PickUp | DropOff | IntermediateDestination | Unknown

  datatype TripWaypoint = TripWaypoint(
    location: TerminalLocation,
    tripID: string,
    waypointType: WaypointType,
    distanceToPreviousWaypointInMeters: int,
    eta: int)

  /** The trip statuses the consumer SDK reports to its subscribers. */
  datatype TripStatus =
    | StatusUnknown
    | StatusNew
    | StatusEnrouteToPickup
    | StatusArrivedAtPickup
    | StatusEnrouteToIntermediateDestination
    | StatusArrivedAtIntermediateDestination
    | StatusEnrouteToDropoff
    | StatusComplete
    | StatusCanceled

  const LatitudeKey := "latitude"
  const LongitudeKey := "longitude"

  /**
   * Reads `{latitude: Double, longitude: Double}`, the shape every
   * coordinate takes on the wire; other keys are ignored.
   */
  function ReadLatLng(obj: map<string, Json>): (r: Option<LatLng>)
    ensures r.Some? <==> DoubleField(obj, LatitudeKey).Some? && DoubleField(obj, LongitudeKey).Some?
    ensures r.Some? ==> obj[LatitudeKey] == JNumber(r.value.latitude) && obj[LongitudeKey] == JNumber(r.value.longitude)
  {
    match (DoubleField(obj, LatitudeKey), DoubleField(obj, LongitudeKey))
    case (Some(lat), Some(lng)) => Some(LatLng(lat, lng))
    case _ => None
  }
}
