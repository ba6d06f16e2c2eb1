/**
 * The consumer app's shared state: where the customer is in booking and
 * following a trip, the control panel's texts, and the chosen pickup,
 * drop-off and intermediate destinations.
 */
module ConsumerModel {
  import opened SdkTypes

  /**
   * Where the customer is. The state record declares `unInitialized` and
   * `initialized`; the views use `initial` and
   * `confirmingLocationSelectionPickupPoint`. All of them are kept.
   */
  datatype CustomerState =
    | UnInitialized
    | Initialized
    | Initial
    | SelectingPickup
    | ConfirmingLocationSelectionPickupPoint
    | SelectingDropoff
    | TripPreview
    | Booking
    | JourneySharing

  const RequestRideText := "REQUEST RIDE"

  /** A copy of every field of `ModelData` the model keeps, for stating what an operation does to it. */
  datatype CustomerRecord = CustomerRecord(
    customerState: CustomerState,
    controlButtonLabel: string,
    tripInfoLabel: string,
    staticLabel: string,
    pickupLocation: TerminalLocation,
    dropoffLocation: TerminalLocation,
    intermediateDestinations: seq<TerminalLocation>,
    timeToWaypoint: real,
    remainingDistanceInMeters: real,
    tripID: string,
    vehicleID: string,
    locationSelectionWalkingDistance: real)

  /**
   * The initializer's values: state `initialized`, the request-ride
   * button text, empty labels and IDs, unset locations, no intermediate
   * destinations, zero time and distance.
   */
  const InitialRecord := CustomerRecord(
    Initialized, RequestRideText, "", "", UnsetLocation, UnsetLocation, [], 0.0, 0.0, "", "", 0.0)

  class ModelData {
    var customerState: CustomerState
    var controlButtonLabel: string
    var tripInfoLabel: string
    var staticLabel: string
    var pickupLocation: TerminalLocation
    var dropoffLocation: TerminalLocation
    var intermediateDestinations: seq<TerminalLocation>
    var timeToWaypoint: real
    var remainingDistanceInMeters: real
    var tripID: string
    var vehicleID: string
    var locationSelectionWalkingDistance: real

    /** The fields as one value. */
    function Record(): CustomerRecord
      reads this
    {
      CustomerRecord(customerState, controlButtonLabel, tripInfoLabel, staticLabel, pickupLocation, dropoffLocation,
        intermediateDestinations, timeToWaypoint, remainingDistanceInMeters, tripID, vehicleID,
        locationSelectionWalkingDistance)
    }

    /** Every field starts at the initializer's value. */
    constructor()
      ensures Record() == InitialRecord
      ensures customerState == Initialized && controlButtonLabel == "REQUEST RIDE"
      ensures tripInfoLabel == "" && staticLabel == "" && tripID == "" && vehicleID == ""
      ensures pickupLocation.point.None? && dropoffLocation.point.None? && intermediateDestinations == []
      ensures timeToWaypoint == 0.0 && remainingDistanceInMeters == 0.0
    {
      customerState := Initialized;
      controlButtonLabel := RequestRideText;
      tripInfoLabel := "";
      staticLabel := "";
      tripID := "";
      timeToWaypoint := 0.0;
      remainingDistanceInMeters := 0.0;
      vehicleID := "";
      pickupLocation := UnsetLocation;
      dropoffLocation := UnsetLocation;
      intermediateDestinations := [];
      locationSelectionWalkingDistance := 0.0;
    }
  }
}
