/**
 * The driver app's shared state: the driver's state and the trip (if
 * any) it is working on, as the `ModelData` object the map view
 * controller updates and the control panel displays.
 */
module DriverModel {
  import opened Wire
  import opened SdkTypes

  /** The state of the driver and their assigned trip. */
  datatype DriverState =
    | Idle
    | New
    | EnrouteToPickup
    | ArrivedAtPickup
    | EnrouteToIntermediateDestination
    | ArrivedAtIntermediateDestination
    | EnrouteToDropoff
    | TripComplete

  /** A copy of every field of `ModelData`, for stating what an operation does to it. */
  datatype DriverRecord = DriverRecord(
    vehicleID: Option<string>,
    tripID: Option<string>,
    nextTripID: Option<string>,
    waypoints: Option<seq<TripWaypoint>>,
    driverState: DriverState,
    isEnrouteToWaypoint: bool,
    intermediateDestinationIndex: int)

  /** No vehicle, no trip, no waypoints; idle, not en route, index 0. */
  const InitialRecord := DriverRecord(None, None, None, None, Idle, false, 0)

  /** The first waypoint still to be reached, if there is one. */
  function FirstWaypoint(record: DriverRecord): (w: Option<TripWaypoint>)
    ensures w.Some? <==> record.waypoints.Some? && |record.waypoints.value| > 0
    ensures w.Some? ==> w.value == record.waypoints.value[0]
  {
    if record.waypoints.Some? && |record.waypoints.value| > 0 then Some(record.waypoints.value[0]) else None
  }

  class ModelData {
    var vehicleID: Option<string>
    var tripID: Option<string>
    var nextTripID: Option<string>
    var waypoints: Option<seq<TripWaypoint>>
    var driverState: DriverState
    var isEnrouteToWaypoint: bool
    var intermediateDestinationIndex: int

    /** The fields as one value. */
    function Record(): DriverRecord
      reads this
    {
      DriverRecord(vehicleID, tripID, nextTripID, waypoints, driverState, isEnrouteToWaypoint, intermediateDestinationIndex)
    }

    /** Every field starts at its declared initial value. */
    constructor()
      ensures Record() == InitialRecord
      ensures vehicleID.None? && tripID.None? && nextTripID.None? && waypoints.None?
      ensures driverState == Idle && !isEnrouteToWaypoint && intermediateDestinationIndex == 0
    {
      vehicleID := None;
      tripID := None;
      nextTripID := None;
      waypoints := None;
      driverState := Idle;
      isEnrouteToWaypoint := false;
      intermediateDestinationIndex := 0;
    }
  }
}
