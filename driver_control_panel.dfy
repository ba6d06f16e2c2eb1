/**
 * The driver app's control panel: a label naming the driver state, one
 * line per known trip ID, and the button that moves the trip on, whose
 * text names what the next tap will report.
 */
module DriverControlPanel {
  import opened Wire
  import opened SdkTypes
  import opened DriverModel
  import DriverMapView
  import P = DriverProviderService

  const TripIDText := "Trip ID: "
  const NextTripIDText := "Next Trip ID: "

  /** What the panel shows for a given model record. */
  datatype Panel = Panel(stateLabel: string, tripLine: Option<string>, nextTripLine: Option<string>, button: Option<string>)

  /** The driver-state label: empty while idle, one text per other state. */
  function DriverStateText(state: DriverState): (text: string)
    ensures text == "" <==> state == Idle
  {
    match state
    case New => "New trip"
    case EnrouteToPickup => "Picking up rider"
    case ArrivedAtPickup => "Arrived at pickup"
    case EnrouteToIntermediateDestination => "Driving to intermediate stop"
    case ArrivedAtIntermediateDestination => "Arrived at intermediate stop"
    case EnrouteToDropoff => "Dropping off rider"
    case TripComplete => "Trip completed"
    case Idle => ""
  }

  /** Every state other than idle has a label of its own. */
  lemma DriverStateTextDistinguishesStates(a: DriverState, b: DriverState)
    requires a != b
    ensures DriverStateText(a) != DriverStateText(b)
  {
  }

  /**
   * The button text: empty without a first waypoint or for one of
   * unknown type; otherwise it names the arrival while en route and the
   * departure while not.
   */
  function ButtonText(record: DriverRecord): (text: string)
    ensures text == "" <==> FirstWaypoint(record).None? || FirstWaypoint(record).value.waypointType == Unknown
  {
    match FirstWaypoint(record)
    case None => ""
    case Some(waypoint) =>
      if record.isEnrouteToWaypoint then
        match waypoint.waypointType
        case PickUp => "Arrived at Pickup"
        case IntermediateDestination => "Arrived at Intermediate Stop"
        case DropOff => "Complete Trip"
        case Unknown => ""
      else
        match waypoint.waypointType
        case PickUp => "Start Navigation"
        case IntermediateDestination => "Drive to Intermediate Stop"
        case DropOff => "Drive to Dropoff"
        case Unknown => ""
  }

  /**
   * The trip status each button text stands for: the one the tap that
   * follows reports to the provider.
   */
  function ButtonStatus(text: string): (status: Option<P.ProviderTripStatus>)
    ensures status.Some? ==> text != ""
  {
    if text == "Start Navigation" then Some(P.EnrouteToPickup)
    else if text == "Arrived at Pickup" then Some(P.ArrivedAtPickup)
    else if text == "Drive to Intermediate Stop" then Some(P.EnrouteToIntermediateDestination)
    else if text == "Arrived at Intermediate Stop" then Some(P.ArrivedAtIntermediateDestination)
    else if text == "Drive to Dropoff" then Some(P.EnrouteToDropoff)
    else if text == "Complete Trip" then Some(P.Complete)
    else None
  }

  /** The whole panel: trip lines only for known IDs, the button only while waypoints remain. */
  function PanelFor(record: DriverRecord): (panel: Panel)
    ensures panel.stateLabel == DriverStateText(record.driverState)
    ensures panel.tripLine.Some? <==> record.tripID.Some?
    ensures record.tripID.Some? ==> panel.tripLine.value == TripIDText + record.tripID.value
    ensures panel.nextTripLine.Some? <==> record.nextTripID.Some?
    ensures record.nextTripID.Some? ==> panel.nextTripLine.value == NextTripIDText + record.nextTripID.value
    ensures panel.button.Some? <==> FirstWaypoint(record).Some?
    ensures panel.button.Some? ==> panel.button.value == ButtonText(record)
  {
    Panel(
      DriverStateText(record.driverState),
      if record.tripID.Some? then Some(TripIDText + record.tripID.value) else None,
      if record.nextTripID.Some? then Some(NextTripIDText + record.nextTripID.value) else None,
      if record.waypoints.Some? && |record.waypoints.value| > 0 then Some(ButtonText(record)) else None)
  }

  /**
   * The button says what a tap does: with a current trip and a non-empty
   * button text, the first call the tap sends is a status update whose
   * status is the one the text names; with an empty text the tap sends
   * nothing.
   */
  lemma ButtonTextNamesReportedStatus(s: DriverMapView.Session)
    requires DriverMapView.Inv(s)
    ensures ButtonText(s.model) == "" ==> DriverMapView.Tap(s).outbox == s.outbox
    ensures ButtonText(s.model) != "" && s.model.tripID.Some? ==>
      var r := DriverMapView.Tap(s);
      |r.outbox| > |s.outbox| && r.outbox[|s.outbox|].UpdateTripCall? &&
      Some(r.outbox[|s.outbox|].status) == ButtonStatus(ButtonText(s.model))
  {
    if FirstWaypoint(s.model).Some? {
      if s.model.isEnrouteToWaypoint {
        ArrivalButton(s);
      } else {
        DepartureButton(s);
      }
    }
  }

  /** The not-en-route half: the tap departs for the first waypoint. */
  lemma DepartureButton(s: DriverMapView.Session)
    requires DriverMapView.Inv(s) && FirstWaypoint(s.model).Some? && !s.model.isEnrouteToWaypoint
    ensures ButtonText(s.model) == "" ==> DriverMapView.Tap(s).outbox == s.outbox
    ensures ButtonText(s.model) != "" && s.model.tripID.Some? ==>
      var r := DriverMapView.Tap(s);
      |r.outbox| > |s.outbox| && r.outbox[|s.outbox|].UpdateTripCall? &&
      Some(r.outbox[|s.outbox|].status) == ButtonStatus(ButtonText(s.model))
  {
    assert DriverMapView.Tap(s) == DriverMapView.Enroute(s);
  }

  /** The en-route half: the tap arrives at the first waypoint, case by case of its type. */
  lemma ArrivalButton(s: DriverMapView.Session)
    requires DriverMapView.Inv(s) && FirstWaypoint(s.model).Some? && s.model.isEnrouteToWaypoint
    ensures ButtonText(s.model) == "" ==> DriverMapView.Tap(s).outbox == s.outbox
    ensures ButtonText(s.model) != "" && s.model.tripID.Some? ==>
      var r := DriverMapView.Tap(s);
      |r.outbox| > |s.outbox| && r.outbox[|s.outbox|].UpdateTripCall? &&
      Some(r.outbox[|s.outbox|].status) == ButtonStatus(ButtonText(s.model))
  {
    if FirstWaypoint(s.model).value.waypointType == DropOff {
      ArrivalButtonAtDropoff(s);
    } else {
      ArrivalButtonElsewhere(s);
    }
  }

  /** Arriving at a pickup, an intermediate stop or a waypoint of unknown type. */
  lemma ArrivalButtonElsewhere(s: DriverMapView.Session)
    requires DriverMapView.Inv(s) && FirstWaypoint(s.model).Some? && s.model.isEnrouteToWaypoint
    requires FirstWaypoint(s.model).value.waypointType != DropOff
    ensures ButtonText(s.model) == "" ==> DriverMapView.Tap(s).outbox == s.outbox
    ensures ButtonText(s.model) != "" && s.model.tripID.Some? ==>
      var r := DriverMapView.Tap(s);
      |r.outbox| > |s.outbox| && r.outbox[|s.outbox|].UpdateTripCall? &&
      Some(r.outbox[|s.outbox|].status) == ButtonStatus(ButtonText(s.model))
  {
    var r := DriverMapView.Tap(s);
    assert r == DriverMapView.Arrive(s);
    var p := DriverMapView.Popped(s);
    match FirstWaypoint(s.model).value.waypointType
    case PickUp =>
      assert r == DriverMapView.ArrivedAtPickupStep(p);
    case IntermediateDestination =>
      assert r == DriverMapView.ArrivedAtStopStep(p);
    case Unknown =>
      assert r == p;
  }

  /** Arriving at the drop-off, with or without a next trip. */
  lemma ArrivalButtonAtDropoff(s: DriverMapView.Session)
    requires DriverMapView.Inv(s) && FirstWaypoint(s.model).Some? && s.model.isEnrouteToWaypoint
    requires FirstWaypoint(s.model).value.waypointType == DropOff
    ensures ButtonText(s.model) == "" ==> DriverMapView.Tap(s).outbox == s.outbox
    ensures ButtonText(s.model) != "" && s.model.tripID.Some? ==>
      var r := DriverMapView.Tap(s);
      |r.outbox| > |s.outbox| && r.outbox[|s.outbox|].UpdateTripCall? &&
      Some(r.outbox[|s.outbox|].status) == ButtonStatus(ButtonText(s.model))
  {
    var r := DriverMapView.Tap(s);
    assert r == DriverMapView.Arrive(s);
    var p := DriverMapView.Popped(s);
    if s.model.nextTripID.Some? {
      assert r == DriverMapView.NextTripPromoted(p);
    } else {
      assert r == DriverMapView.TripCompleted(p);
    }
  }
}
