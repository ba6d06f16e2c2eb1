/**
 * The consumer app's booking flow as transitions on a snapshot of its
 * state: the journey-sharing view's button, the map view controller's
 * reactions (book, cancel, status updates, camera idle, the state-change
 * notifications) and the Location Selection pickup-point lookup.
 *
 * Notifications are delivered synchronously, so a handler that posts one
 * includes the controller's reaction. Provider calls are recorded in an
 * outbox; their completions, the SDK's trip-status callbacks and the
 * delayed reset after a completed trip arrive as separate events.
 */
module ConsumerFlow {
  import opened Wire
  import opened SdkTypes
  import opened ConsumerModel
  import C = ConsumerProviderService
  import L = LocationSelectionService

  /* ---------------------------------------------------------------------- */
  /* Texts                                                                   */

  const ConfirmPickupText := "CONFIRM PICKUP"
  const ConfirmPickupPointText := "CONFIRM PICKUP POINT"
  const ConfirmDropoffText := "CONFIRM DROPOFF"
  const ConfirmTripText := "CONFIRM TRIP"
  const CancelTripText := "CANCEL TRIP"
  const SelectPickupLocationText := "pickup location"
  const SelectDropoffLocationText := "drop-off location"
  const UserSelectLocationStaticText := "Choose a "
  const LocationSelectionStaticText := "We found you the nearest available pickup point!\n"
  const LocationSelectionFailedStaticText := "No available pickup point nearby.\nPlease select another pickup location."
  const WalkingDistanceTextHead := "Walk "
  const WalkingDistanceTextTail := " meters to meet your driver."

  const SelectPickupNotification := "selectingPickup"
  const SelectDropoffNotification := "selectingDropoff"
  const BookTripNotification := "bookTrip"
  const CancelTripNotification := "cancelTrip"

  /** The title shown for a trip status that keeps the trip going; `None` for the others. */
  function StatusTitle(status: TripStatus): (title: Option<string>)
    ensures title.Some? <==> status !in {StatusComplete, StatusCanceled, StatusUnknown}
  {
    match status
    case StatusNew => Some("Waiting for driver match")
    case StatusEnrouteToPickup => Some("Driver is arriving at pickup")
    case StatusArrivedAtPickup => Some("Driver is at pickup")
    case StatusEnrouteToIntermediateDestination => Some("Driving to intermediate stop")
    case StatusArrivedAtIntermediateDestination => Some("Arrived at intermediate stop")
    case StatusEnrouteToDropoff => Some("Driving to dropoff")
    case _ => None
  }

  const TripCompleteTitleText := "Trip Complete"
  const CompleteLastTripTitleText := "Driver is completing another trip"

  /* ---------------------------------------------------------------------- */
  /* State                                                                   */

  /** A call the controller makes to a backend. */
  datatype Call =
    | CreateTripCall(pickup: TerminalLocation, dropoff: TerminalLocation, intermediateDestinations: seq<TerminalLocation>)
    | CancelTripCall(tripID: string)
    | PickupPointCall(searchLocation: TerminalLocation)

  /**
   * What the SDK's trip model reports about the current trip: its vehicle
   * ID and trip ID, each absent when unknown (both absent without a
   * current trip).
   */
  datatype CurrentTrip = CurrentTrip(vehicleID: Option<string>, tripID: Option<string>)

  /** The session state a trip model reports: only `inactive` matters to the controller. */
  datatype TripModelState = Active | Inactive

  /**
   * The model data with the controller's own state: the booked trip's
   * name, whether a journey-sharing session was ever created, the names
   * of the trips whose trip models the controller is registered with as a
   * subscriber, the snapped pickup point, and the calls and delayed resets
   * still outstanding.
   */
  datatype Session = Session(
    model: CustomerRecord,
    tripName: string,
    hasJourneySharingSession: bool,
    subscriptions: set<string>,
    locationSelectionPickupPoint: TerminalLocation,
    pendingCreates: nat,
    pendingCancels: nat,
    pendingLookups: nat,
    pendingCompleteResets: nat,
    outbox: seq<Call>)

  /** A freshly created controller over the given model data. */
  function Start(model: CustomerRecord): (s: Session)
    ensures s.model == model && s.outbox == [] && !s.hasJourneySharingSession && s.subscriptions == {}
  {
    Session(model, "", false, {}, UnsetLocation, 0, 0, 0, 0, [])
  }

  function At(target: LatLng): (location: TerminalLocation)
    ensures location.point == Some(target)
  {
    TerminalLocation(Some(target))
  }

  /* ---------------------------------------------------------------------- */
  /* Map view controller                                                     */

  /** `setPickupLocation`: the pickup becomes the given point. */
  function PickupLocationSet(s: Session, target: LatLng): (r: Session)
    ensures r == s.(model := s.model.(pickupLocation := At(target)))
  {
    s.(model := s.model.(pickupLocation := At(target)))
  }

  /** `setDropoffLocation`: the drop-off becomes the given point. */
  function DropoffLocationSet(s: Session, target: LatLng): (r: Session)
    ensures r == s.(model := s.model.(dropoffLocation := At(target)))
  {
    s.(model := s.model.(dropoffLocation := At(target)))
  }

  /**
   * `resetPanelView`: zero time and distance, empty trip and vehicle IDs,
   * and the request-ride text on both the title and the button; the state
   * and the locations are kept.
   */
  function PanelReset(s: Session): (r: Session)
    ensures r.model.timeToWaypoint == 0.0 && r.model.remainingDistanceInMeters == 0.0
    ensures r.model.tripID == "" && r.model.vehicleID == ""
    ensures r.model.tripInfoLabel == RequestRideText && r.model.controlButtonLabel == RequestRideText
    ensures r.model.customerState == s.model.customerState && r.model.staticLabel == s.model.staticLabel
    ensures r.model.pickupLocation == s.model.pickupLocation && r.model.dropoffLocation == s.model.dropoffLocation
    ensures r.model.intermediateDestinations == s.model.intermediateDestinations
    ensures r.model.locationSelectionWalkingDistance == s.model.locationSelectionWalkingDistance
    ensures r.(model := s.model) == s
  {
    s.(model := s.model.(timeToWaypoint := 0.0, remainingDistanceInMeters := 0.0, tripID := "", vehicleID := "",
                         tripInfoLabel := RequestRideText, controlButtonLabel := RequestRideText))
  }

  /** `bookTrip`: one createTrip call with the model's pickup, drop-off and intermediate destinations. */
  function BookTripSent(s: Session): (r: Session)
    ensures r.model == s.model && r.pendingCreates == s.pendingCreates + 1
    ensures r.outbox == s.outbox +
      [CreateTripCall(s.model.pickupLocation, s.model.dropoffLocation, s.model.intermediateDestinations)]
    ensures r.(pendingCreates := s.pendingCreates, outbox := s.outbox) == s
  {
    s.(pendingCreates := s.pendingCreates + 1,
       outbox := s.outbox + [CreateTripCall(s.model.pickupLocation, s.model.dropoffLocation, s.model.intermediateDestinations)])
  }

  /** `cancelTrip`: one cancelTrip call for the trip ID the model holds. */
  function CancelTripSent(s: Session): (r: Session)
    ensures r.model == s.model && r.pendingCancels == s.pendingCancels + 1
    ensures r.outbox == s.outbox + [CancelTripCall(s.model.tripID)]
    ensures r.(pendingCancels := s.pendingCancels, outbox := s.outbox) == s
  {
    s.(pendingCancels := s.pendingCancels + 1, outbox := s.outbox + [CancelTripCall(s.model.tripID)])
  }

  /**
   * `setActiveTrip`: journey sharing for the named trip. When the SDK has
   * a trip model for it the controller registers with that model and a
   * session is shown; otherwise only the state and the name change.
   * Registrations with earlier trips' models are kept.
   */
  function ActiveTripSet(s: Session, tripName: string, tripModelFound: bool): (r: Session)
    ensures r.model == s.model.(customerState := JourneySharing) && r.tripName == tripName
    ensures r.hasJourneySharingSession == (s.hasJourneySharingSession || tripModelFound)
    ensures r.subscriptions == (if tripModelFound then s.subscriptions + {tripName} else s.subscriptions)
    ensures r.outbox == s.outbox && r.pendingCreates == s.pendingCreates
  {
    var s1 := s.(model := s.model.(customerState := JourneySharing), tripName := tripName);
    if tripModelFound then s1.(subscriptions := s1.subscriptions + {tripName}, hasJourneySharingSession := true) else s1
  }

  /**
   * The createTrip call completes: a failure changes nothing; a trip name
   * moves the state to booking and at once to journey sharing for that
   * trip.
   */
  function TripCreated(s: Session, reply: Reply, tripModelFound: bool): (r: Session)
    requires s.pendingCreates > 0
    ensures r.pendingCreates == s.pendingCreates - 1 && r.outbox == s.outbox
    ensures C.CreateTripResult(reply).Err? ==> r == s.(pendingCreates := s.pendingCreates - 1)
    ensures C.CreateTripResult(reply).Ok? ==>
      r.model == s.model.(customerState := JourneySharing) && r.tripName == C.CreateTripResult(reply).value &&
      r.hasJourneySharingSession == (s.hasJourneySharingSession || tripModelFound) &&
      r.subscriptions == (if tripModelFound then s.subscriptions + {r.tripName} else s.subscriptions) &&
      r.pendingCancels == s.pendingCancels
  {
    var s1 := s.(pendingCreates := s.pendingCreates - 1);
    match C.CreateTripResult(reply)
    case Err(_) => s1
    case Ok(tripName) => ActiveTripSet(s1.(model := s1.model.(customerState := Booking)), tripName, tripModelFound)
  }

  /**
   * The cancelTrip call completes: a failure changes nothing; success
   * unregisters from the current trip's model, returns to `initial` and,
   * only when a journey-sharing session exists, resets the panel.
   */
  function TripCancelled(s: Session, reply: Reply): (r: Session)
    requires s.pendingCancels > 0
    ensures r.pendingCancels == s.pendingCancels - 1 && r.outbox == s.outbox
    ensures C.CancelTripResult(reply).Err? ==> r == s.(pendingCancels := s.pendingCancels - 1)
    ensures C.CancelTripResult(reply).Ok? ==>
      r.subscriptions == s.subscriptions - {s.tripName} && r.model.customerState == Initial &&
      r.model == (if s.hasJourneySharingSession then PanelReset(s).model else s.model).(customerState := Initial)
  {
    var s1 := s.(pendingCancels := s.pendingCancels - 1);
    match C.CancelTripResult(reply)
    case Err(_) => s1
    case Ok(_) => Returned(s1)
  }

  /**
   * Back to `initial` after a cancelled or completed trip: unregisters
   * from the model of the trip named last (only), and resets the panel
   * only with a session.
   */
  function Returned(s: Session): (r: Session)
    ensures r.subscriptions == s.subscriptions - {s.tripName} && r.model.customerState == Initial
    ensures r.model == (if s.hasJourneySharingSession then PanelReset(s).model else s.model).(customerState := Initial)
    ensures r.outbox == s.outbox && r.hasJourneySharingSession == s.hasJourneySharingSession
    ensures r.pendingCreates == s.pendingCreates && r.pendingCancels == s.pendingCancels
    ensures r.pendingCompleteResets == s.pendingCompleteResets && r.tripName == s.tripName
  {
    var s1 := s.(subscriptions := s.subscriptions - {s.tripName}, model := s.model.(customerState := Initial));
    if s1.hasJourneySharingSession then PanelReset(s1) else s1
  }

  /**
   * `updateTripInfo`: with a journey-sharing session, the vehicle ID
   * becomes the current trip's (or "") and the trip ID the current
   * trip's when it has one.
   */
  function TripInfoUpdated(s: Session, current: CurrentTrip): (r: Session)
    ensures !s.hasJourneySharingSession ==> r == s
    // Only the vehicle ID and the trip ID can change.
    ensures r.(model := s.model) == s
    ensures r.model == s.model.(vehicleID := r.model.vehicleID, tripID := r.model.tripID)
    ensures s.hasJourneySharingSession && current.vehicleID.Some? ==> r.model.vehicleID == current.vehicleID.value
    ensures s.hasJourneySharingSession && current.vehicleID.None? ==> r.model.vehicleID == ""
    ensures s.hasJourneySharingSession && current.tripID.Some? ==> r.model.tripID == current.tripID.value
    ensures current.tripID.None? ==> r.model.tripID == s.model.tripID
  {
    if !s.hasJourneySharingSession then s
    else
      s.(model := s.model.(
        vehicleID := if current.vehicleID.Some? then current.vehicleID.value else "",
        tripID := if current.tripID.Some? then current.tripID.value else s.model.tripID))
  }

  /**
   * `tripModel(_:didUpdate:)`, called by the model of trip `sender`, with
   * which the controller is registered: a status that keeps the trip
   * going sets its title (and NEW the cancel button) and refreshes the
   * trip info; COMPLETE shows its title, refreshes the trip info, clears
   * the button and schedules the delayed return to `initial`; CANCELED
   * and UNKNOWN change nothing. The handler does not look at which trip
   * called it, and only the labels, the IDs and the delayed resets change.
   */
  function StatusUpdated(s: Session, sender: string, status: TripStatus, current: CurrentTrip): (r: Session)
    requires sender in s.subscriptions
    ensures r.(model := s.model, pendingCompleteResets := s.pendingCompleteResets) == s
    ensures r.model == s.model.(tripInfoLabel := r.model.tripInfoLabel, controlButtonLabel := r.model.controlButtonLabel,
                                vehicleID := r.model.vehicleID, tripID := r.model.tripID)
    ensures StatusTitle(status).Some? || status == StatusComplete ==>
      r.model.vehicleID == TripInfoUpdated(s, current).model.vehicleID &&
      r.model.tripID == TripInfoUpdated(s, current).model.tripID
    ensures StatusTitle(status).Some? ==>
      r.model.tripInfoLabel == StatusTitle(status).value && r.pendingCompleteResets == s.pendingCompleteResets &&
      r.model.controlButtonLabel == (if status == StatusNew then CancelTripText else s.model.controlButtonLabel)
    ensures status == StatusComplete ==>
      r.model.tripInfoLabel == TripCompleteTitleText && r.model.controlButtonLabel == "" &&
      r.pendingCompleteResets == s.pendingCompleteResets + 1
    ensures status in {StatusCanceled, StatusUnknown} ==> r == s
  {
    match status
    case StatusNew =>
      TripInfoUpdated(s.(model := s.model.(tripInfoLabel := StatusTitle(status).value, controlButtonLabel := CancelTripText)), current)
    case StatusComplete =>
      var s1 := TripInfoUpdated(s.(model := s.model.(tripInfoLabel := TripCompleteTitleText)), current);
      s1.(model := s1.model.(controlButtonLabel := ""), pendingCompleteResets := s1.pendingCompleteResets + 1)
    case StatusCanceled => s
    case StatusUnknown => s
    case _ => TripInfoUpdated(s.(model := s.model.(tripInfoLabel := StatusTitle(status).value)), current)
  }

  /** Four seconds after COMPLETE: unsubscribe and return to `initial`. */
  function CompleteResetFired(s: Session): (r: Session)
    requires s.pendingCompleteResets > 0
    ensures r == Returned(s.(pendingCompleteResets := s.pendingCompleteResets - 1))
    ensures r.model.customerState == Initial && r.pendingCompleteResets == s.pendingCompleteResets - 1
  {
    Returned(s.(pendingCompleteResets := s.pendingCompleteResets - 1))
  }

  /**
   * `tripModel(_:didUpdateRemaining:)`: when the first remaining waypoint
   * belongs to another trip than the current one (the driver is finishing
   * an earlier trip) and has a point, the title says so; otherwise
   * nothing changes.
   */
  function RemainingWaypointsUpdated(s: Session, currentTripID: Option<string>, remaining: Option<seq<TripWaypoint>>)
    : (r: Session)
    ensures r.(model := s.model) == s
    ensures r.model == s.model || r.model == s.model.(tripInfoLabel := CompleteLastTripTitleText)
    ensures r.model.tripInfoLabel == CompleteLastTripTitleText <==>
      s.model.tripInfoLabel == CompleteLastTripTitleText ||
      (remaining.Some? && |remaining.value| > 0 && currentTripID != Some(remaining.value[0].tripID) &&
       remaining.value[0].location.point.Some?)
  {
    match remaining
    case None => s
    case Some(waypoints) =>
      if |waypoints| == 0 then s
      else if currentTripID == Some(waypoints[0].tripID) then s
      else if waypoints[0].location.point.None? then s
      else s.(model := s.model.(tripInfoLabel := CompleteLastTripTitleText))
  }

  /**
   * `tripModel(_:didUpdate:)` for a session state: once the model of
   * trip `sender` reports `inactive`, the controller unregisters from it,
   * so that trip's status updates no longer reach it; any other state
   * changes nothing.
   */
  function SessionStateUpdated(s: Session, sender: string, state: TripModelState): (r: Session)
    ensures r.(subscriptions := s.subscriptions) == s
    ensures r.subscriptions <= s.subscriptions
    ensures forall name :: name in s.subscriptions && name != sender ==> name in r.subscriptions
    ensures sender in r.subscriptions <==> sender in s.subscriptions && state.Active?
  {
    if state.Inactive? then s.(subscriptions := s.subscriptions - {sender}) else s
  }

  /**
   * `mapView(_:idleAt:)`: the camera's target becomes the pickup while
   * selecting the pickup, the drop-off while selecting the drop-off, and
   * nothing changes in any other state.
   */
  function CameraIdle(s: Session, target: LatLng): (r: Session)
    ensures s.model.customerState == SelectingPickup ==> r.model == s.model.(pickupLocation := At(target))
    ensures s.model.customerState == SelectingDropoff ==> r.model == s.model.(dropoffLocation := At(target))
    ensures s.model.customerState !in {SelectingPickup, SelectingDropoff} ==> r == s
    ensures r.(model := s.model) == s
  {
    match s.model.customerState
    case SelectingPickup => PickupLocationSet(s, target)
    case SelectingDropoff => DropoffLocationSet(s, target)
    case _ => s
  }

  /**
   * `consumerStateUpdate`: the notification's object, when it is a
   * string, selects the reaction: place the pickup at the camera target;
   * show the confirmed pickup and place the drop-off at the camera target
   * (only when the pickup has a point); book; cancel. Anything else is
   * ignored.
   */
  function ConsumerStateUpdated(s: Session, objectType: Option<string>, cameraTarget: LatLng): (r: Session)
    ensures objectType == Some(SelectPickupNotification) ==> r == PickupLocationSet(s, cameraTarget)
    ensures objectType == Some(SelectDropoffNotification) ==>
      r == (if s.model.pickupLocation.point.None? then s else DropoffLocationSet(s, cameraTarget))
    ensures objectType == Some(BookTripNotification) ==> r == BookTripSent(s)
    ensures objectType == Some(CancelTripNotification) ==> r == CancelTripSent(s)
    ensures objectType.None? ||
      objectType.value !in {SelectPickupNotification, SelectDropoffNotification, BookTripNotification, CancelTripNotification}
      ==> r == s
  {
    match objectType
    case None => s
    case Some(kind) =>
      if kind == SelectPickupNotification then PickupLocationSet(s, cameraTarget)
      else if kind == SelectDropoffNotification then
        if s.model.pickupLocation.point.None? then s else DropoffLocationSet(s, cameraTarget)
      else if kind == BookTripNotification then BookTripSent(s)
      else if kind == CancelTripNotification then CancelTripSent(s)
      else s
  }

  /* ---------------------------------------------------------------------- */
  /* Location Selection                                                      */

  /** `startLocationSelection`: asks for the pickup point nearest the given pickup. */
  function LocationSelectionStarted(s: Session, pickupLocation: TerminalLocation): (r: Session)
    ensures r.model == s.model && r.pendingLookups == s.pendingLookups + 1
    ensures r.outbox == s.outbox + [PickupPointCall(pickupLocation)]
  {
    s.(pendingLookups := s.pendingLookups + 1, outbox := s.outbox + [PickupPointCall(pickupLocation)])
  }

  /** The walking-distance title, around the distance already formatted with two decimals. */
  function WalkingDistanceText(formattedDistance: string): (text: string)
    ensures |text| == |WalkingDistanceTextHead| + |formattedDistance| + |WalkingDistanceTextTail|
    ensures text[..|WalkingDistanceTextHead|] == WalkingDistanceTextHead
    ensures text[|WalkingDistanceTextHead|..|text| - |WalkingDistanceTextTail|] == formattedDistance
    ensures text[|text| - |WalkingDistanceTextTail|..] == WalkingDistanceTextTail
  {
    WalkingDistanceTextHead + formattedDistance + WalkingDistanceTextTail
  }

  /**
   * A pickup point was found: it is kept, becomes the pickup, its walking
   * distance is stored, and the customer is asked to confirm it.
   */
  function PickupPointFound(s: Session, point: L.PickupPoint, formattedDistance: string): (r: Session)
    ensures r.locationSelectionPickupPoint == At(point.latLng)
    ensures r.model == s.model.(
      pickupLocation := At(point.latLng),
      locationSelectionWalkingDistance := point.walkingDistance,
      customerState := ConfirmingLocationSelectionPickupPoint,
      controlButtonLabel := ConfirmPickupPointText,
      staticLabel := LocationSelectionStaticText,
      tripInfoLabel := WalkingDistanceText(formattedDistance))
    ensures r.outbox == s.outbox && r.pendingLookups == s.pendingLookups
  {
    var s1 := s.(locationSelectionPickupPoint := At(point.latLng));
    s1.(model := s1.model.(
      locationSelectionWalkingDistance := point.walkingDistance,
      pickupLocation := TerminalLocation(s1.locationSelectionPickupPoint.point),
      customerState := ConfirmingLocationSelectionPickupPoint,
      controlButtonLabel := ConfirmPickupPointText,
      staticLabel := LocationSelectionStaticText,
      tripInfoLabel := WalkingDistanceText(formattedDistance)))
  }

  /**
   * `getLocationSelectionPickupPointFailed`: back to selecting the pickup,
   * with the failure text, and (through the notification it posts) the
   * pickup placed at the camera target.
   */
  function PickupPointNotFound(s: Session, cameraTarget: LatLng): (r: Session)
    ensures r.model == s.model.(
      customerState := SelectingPickup,
      controlButtonLabel := ConfirmPickupText,
      staticLabel := LocationSelectionFailedStaticText,
      tripInfoLabel := "",
      pickupLocation := At(cameraTarget))
    ensures r.(model := s.model) == s
  {
    var s1 := s.(model := s.model.(
      customerState := SelectingPickup,
      controlButtonLabel := ConfirmPickupText,
      staticLabel := LocationSelectionFailedStaticText,
      tripInfoLabel := ""));
    ConsumerStateUpdated(s1, Some(SelectPickupNotification), cameraTarget)
  }

  /**
   * The pickup-point lookup completes. A point found is shown for
   * confirmation; a response without data and one without the expected
   * fields are handled alike; a transport failure is not caught and
   * changes nothing.
   */
  function PickupPointReplied(s: Session, reply: Reply, formattedDistance: string, cameraTarget: LatLng): (r: Session)
    requires s.pendingLookups > 0
    ensures r.pendingLookups == s.pendingLookups - 1 && r.outbox == s.outbox
    ensures reply.TransportError? ==> r == s.(pendingLookups := s.pendingLookups - 1)
    ensures L.GetPickupPointResult(reply).Ok? ==>
      r == PickupPointFound(s.(pendingLookups := s.pendingLookups - 1), L.GetPickupPointResult(reply).value, formattedDistance)
    ensures reply.Received? && L.GetPickupPointResult(reply).Err? ==>
      r == PickupPointNotFound(s.(pendingLookups := s.pendingLookups - 1), cameraTarget)
  {
    var s1 := s.(pendingLookups := s.pendingLookups - 1);
    match L.GetPickupPointResult(reply)
    case Ok(point) => PickupPointFound(s1, point, formattedDistance)
    case Err(error) => if error.Transport? then s1 else PickupPointNotFound(s1, cameraTarget)
  }

  /* ---------------------------------------------------------------------- */
  /* Journey-sharing view                                                    */

  /**
   * `startPickupSelection`: asks for the pickup, then (through the
   * notification) places it at the camera target.
   */
  function PickupSelectionStarted(s: Session, cameraTarget: LatLng): (r: Session)
    ensures r.model == s.model.(
      controlButtonLabel := ConfirmPickupText,
      staticLabel := UserSelectLocationStaticText,
      tripInfoLabel := SelectPickupLocationText,
      customerState := SelectingPickup,
      pickupLocation := At(cameraTarget))
    ensures r.(model := s.model) == s
  {
    var s1 := s.(model := s.model.(
      controlButtonLabel := ConfirmPickupText,
      staticLabel := UserSelectLocationStaticText,
      tripInfoLabel := SelectPickupLocationText,
      customerState := SelectingPickup));
    ConsumerStateUpdated(s1, Some(SelectPickupNotification), cameraTarget)
  }

  /**
   * `startDropoffSelection`: asks for the drop-off, forgets the
   * intermediate destinations, then (through the notification) places
   * the drop-off at the camera target when the pickup has a point.
   */
  function DropoffSelectionStarted(s: Session, cameraTarget: LatLng): (r: Session)
    ensures r.model == s.model.(
      controlButtonLabel := ConfirmDropoffText,
      tripInfoLabel := SelectDropoffLocationText,
      staticLabel := UserSelectLocationStaticText,
      customerState := SelectingDropoff,
      intermediateDestinations := [],
      dropoffLocation := if s.model.pickupLocation.point.None? then s.model.dropoffLocation else At(cameraTarget))
    ensures r.(model := s.model) == s
  {
    var s1 := s.(model := s.model.(
      controlButtonLabel := ConfirmDropoffText,
      tripInfoLabel := SelectDropoffLocationText,
      staticLabel := UserSelectLocationStaticText,
      customerState := SelectingDropoff,
      intermediateDestinations := []));
    ConsumerStateUpdated(s1, Some(SelectDropoffNotification), cameraTarget)
  }

  /** `startTripPreview`: both labels cleared, the confirm-trip button, state `tripPreview`. */
  function TripPreviewStarted(s: Session): (r: Session)
    ensures r.model == s.model.(
      staticLabel := "", controlButtonLabel := ConfirmTripText, customerState := TripPreview, tripInfoLabel := "")
    ensures r.(model := s.model) == s
  {
    s.(model := s.model.(staticLabel := "", controlButtonLabel := ConfirmTripText, customerState := TripPreview, tripInfoLabel := ""))
  }

  /**
   * `tapButtonAction`: initial → selecting the pickup → selecting the
   * drop-off → trip preview; in trip preview a tap books (the state stays
   * until the reply), while booking it does nothing, and while journey
   * sharing it cancels. States the dispatch does not name do nothing.
   */
  function TapButton(s: Session, cameraTarget: LatLng): (r: Session)
    ensures s.model.customerState == Initial ==> r == PickupSelectionStarted(s, cameraTarget)
    ensures s.model.customerState == SelectingPickup ==> r == DropoffSelectionStarted(s, cameraTarget)
    ensures s.model.customerState == SelectingDropoff ==> r == TripPreviewStarted(s)
    ensures s.model.customerState == TripPreview ==> r == BookTripSent(s)
    ensures s.model.customerState == JourneySharing ==> r == CancelTripSent(s)
    ensures s.model.customerState in {UnInitialized, Initialized, ConfirmingLocationSelectionPickupPoint, Booking} ==> r == s
  {
    match s.model.customerState
    case Initial => PickupSelectionStarted(s, cameraTarget)
    case SelectingPickup => DropoffSelectionStarted(s, cameraTarget)
    case SelectingDropoff => TripPreviewStarted(s)
    case TripPreview => ConsumerStateUpdated(s, Some(BookTripNotification), cameraTarget)
    case Booking => s
    case JourneySharing => ConsumerStateUpdated(s, Some(CancelTripNotification), cameraTarget)
    case _ => s
  }

  /**
   * `tapAddIntermediateDestinationAction`, offered only while selecting
   * the drop-off: the current drop-off is appended to the intermediate
   * destinations; the state is unchanged.
   */
  function IntermediateDestinationAdded(s: Session): (r: Session)
    requires s.model.customerState == SelectingDropoff
    ensures |r.model.intermediateDestinations| == |s.model.intermediateDestinations| + 1
    ensures r.model.intermediateDestinations[..|s.model.intermediateDestinations|] == s.model.intermediateDestinations
    ensures r.model.intermediateDestinations[|s.model.intermediateDestinations|] == s.model.dropoffLocation
    ensures r.model.customerState == SelectingDropoff
    ensures r == s.(model := s.model.(intermediateDestinations := r.model.intermediateDestinations))
  {
    s.(model := s.model.(intermediateDestinations := s.model.intermediateDestinations + [s.model.dropoffLocation]))
  }

  /* ---------------------------------------------------------------------- */
  /* Properties over several events                                          */

  /**
   * The state record starts in `initialized`, which the button's dispatch
   * does not name: a tap on a fresh controller changes nothing.
   */
  lemma FreshTapDoesNothing(cameraTarget: LatLng)
    ensures TapButton(Start(InitialRecord), cameraTarget) == Start(InitialRecord)
  {
  }

  /**
   * From `initial`, four taps pick the pickup and the drop-off at the
   * camera targets of the first two taps, preview the trip and send
   * exactly one createTrip call for those two locations.
   */
  lemma SelectAndBook(s: Session, t1: LatLng, t2: LatLng, t3: LatLng, t4: LatLng)
    requires s.model.customerState == Initial
    ensures var r := TapButton(TapButton(TapButton(TapButton(s, t1), t2), t3), t4);
      r.outbox == s.outbox + [CreateTripCall(At(t1), At(t2), [])] &&
      r.model.customerState == TripPreview && r.pendingCreates == s.pendingCreates + 1
  {
    var s1 := TapButton(s, t1);
    assert s1.model.pickupLocation == At(t1) && s1.model.customerState == SelectingPickup;
    var s2 := TapButton(s1, t2);
    assert s2.model.dropoffLocation == At(t2) && s2.model.intermediateDestinations == [];
    var s3 := TapButton(s2, t3);
    assert s3.model.customerState == TripPreview && s3.outbox == s.outbox;
  }

  /**
   * An intermediate destination added while choosing the drop-off is
   * booked after the ones before it, ahead of the drop-off itself.
   */
  lemma AddedStopIsBooked(s: Session, t1: LatLng, t2: LatLng)
    requires s.model.customerState == SelectingDropoff
    ensures var r := TapButton(TapButton(IntermediateDestinationAdded(s), t1), t2);
      r.outbox == s.outbox + [CreateTripCall(s.model.pickupLocation, s.model.dropoffLocation,
                                             s.model.intermediateDestinations + [s.model.dropoffLocation])]
  {
    var s1 := IntermediateDestinationAdded(s);
    assert s1.model.intermediateDestinations == s.model.intermediateDestinations + [s.model.dropoffLocation];
    var s2 := TapButton(s1, t1);
    assert s2.model.customerState == TripPreview && s2.outbox == s.outbox;
    assert s2.model.intermediateDestinations == s1.model.intermediateDestinations;
  }

  /**
   * Trip preview is left only when the createTrip reply arrives, so a
   * second tap before then books the same trip a second time.
   */
  lemma SecondTapBooksAgain(s: Session, t1: LatLng, t2: LatLng)
    requires s.model.customerState == TripPreview
    ensures var call := CreateTripCall(s.model.pickupLocation, s.model.dropoffLocation, s.model.intermediateDestinations);
      TapButton(TapButton(s, t1), t2).outbox == s.outbox + [call, call]
  {
    var call := CreateTripCall(s.model.pickupLocation, s.model.dropoffLocation, s.model.intermediateDestinations);
    assert s.outbox + [call] + [call] == s.outbox + [call, call];
  }

  /**
   * Booking does not set the model's trip ID (only a status update does),
   * so a cancel right after booking goes out for the trip ID the model
   * held before.
   */
  lemma CancelAfterBookingUsesHeldTripID(s: Session, reply: Reply, tripModelFound: bool, cameraTarget: LatLng)
    requires s.pendingCreates > 0 && C.CreateTripResult(reply).Ok?
    ensures TapButton(TripCreated(s, reply, tripModelFound), cameraTarget).outbox == s.outbox + [CancelTripCall(s.model.tripID)]
  {
    var r := TripCreated(s, reply, tripModelFound);
    assert r.model.customerState == JourneySharing && r.model.tripID == s.model.tripID;
  }

  /** Both kinds of unusable lookup response lead to the same state, whatever distance text was prepared. */
  lemma LookupErrorsHandledAlike(s: Session, reply1: Reply, reply2: Reply, f1: string, f2: string, cameraTarget: LatLng)
    requires s.pendingLookups > 0
    requires reply1.Received? && L.GetPickupPointResult(reply1).Err?
    requires reply2.Received? && L.GetPickupPointResult(reply2).Err?
    ensures PickupPointReplied(s, reply1, f1, cameraTarget) == PickupPointReplied(s, reply2, f2, cameraTarget)
    ensures PickupPointReplied(s, reply1, f1, cameraTarget).model.customerState == SelectingPickup
  {
  }

  /**
   * Once a pickup point is found, neither the button nor the camera moves
   * the snapped pickup: in that state both do nothing.
   */
  lemma SnappedPickupIsKept(s: Session, point: L.PickupPoint, f: string, t1: LatLng, t2: LatLng)
    ensures var r := PickupPointFound(s, point, f);
      TapButton(r, t1) == r && CameraIdle(r, t2) == r && r.model.pickupLocation == At(point.latLng)
  {
  }

  /**
   * A completed trip, once its delay has passed, is back in `initial`
   * with the controller no longer registered with the current trip's
   * model; with a journey-sharing session the panel shows the
   * request-ride texts and no trip.
   */
  lemma CompletedTripReturnsToInitial(s: Session, sender: string, current: CurrentTrip)
    requires sender in s.subscriptions
    ensures var r := CompleteResetFired(StatusUpdated(s, sender, StatusComplete, current));
      r.model.customerState == Initial && r.subscriptions == s.subscriptions - {s.tripName} &&
      (s.hasJourneySharingSession ==>
        r.model.controlButtonLabel == RequestRideText && r.model.tripInfoLabel == RequestRideText && r.model.tripID == "")
  {
    var s1 := StatusUpdated(s, sender, StatusComplete, current);
    assert s1.hasJourneySharingSession == s.hasJourneySharingSession;
  }

  /**
   * Two bookings that both complete register the controller with both
   * trips' models, but a successful cancel unregisters it from the second
   * only: the first trip's status updates still reach the controller back
   * in `initial`, and a NEW from it puts the cancel button up again.
   */
  lemma EarlierBookingStaysSubscribed(s: Session, reply1: Reply, reply2: Reply, cancelReply: Reply, current: CurrentTrip)
    requires s.pendingCreates >= 2 && s.pendingCancels > 0
    requires C.CreateTripResult(reply1).Ok? && C.CreateTripResult(reply2).Ok?
    requires C.CreateTripResult(reply1).value != C.CreateTripResult(reply2).value
    requires C.CancelTripResult(cancelReply).Ok?
    ensures var first := C.CreateTripResult(reply1).value;
      var r := TripCancelled(TripCreated(TripCreated(s, reply1, true), reply2, true), cancelReply);
      r.model.customerState == Initial &&
      first in r.subscriptions && C.CreateTripResult(reply2).value !in r.subscriptions &&
      StatusUpdated(r, first, StatusNew, current).model.controlButtonLabel == CancelTripText &&
      StatusUpdated(r, first, StatusNew, current).model.customerState == Initial
  {
    var s1 := TripCreated(s, reply1, true);
    var s2 := TripCreated(s1, reply2, true);
    assert s2.tripName == C.CreateTripResult(reply2).value;
    assert C.CreateTripResult(reply1).value in s2.subscriptions;
  }

  /**
   * The stale registration of `EarlierBookingStaysSubscribed` lasts only
   * until the first trip's model reports `inactive`: after that neither
   * booked trip is subscribed, and the other registrations are as before
   * the two bookings.
   */
  lemma InactiveEarlierBookingUnsubscribes(s: Session, reply1: Reply, reply2: Reply, cancelReply: Reply)
    requires s.pendingCreates >= 2 && s.pendingCancels > 0
    requires C.CreateTripResult(reply1).Ok? && C.CreateTripResult(reply2).Ok?
    requires C.CancelTripResult(cancelReply).Ok?
    ensures var first := C.CreateTripResult(reply1).value;
      var second := C.CreateTripResult(reply2).value;
      var r := TripCancelled(TripCreated(TripCreated(s, reply1, true), reply2, true), cancelReply);
      SessionStateUpdated(r, first, Inactive).subscriptions == s.subscriptions - {first, second}
  {
    var first := C.CreateTripResult(reply1).value;
    var second := C.CreateTripResult(reply2).value;
    var s1 := TripCreated(s, reply1, true);
    assert s1.subscriptions == s.subscriptions + {first};
    var s2 := TripCreated(s1, reply2, true);
    assert s2.tripName == second && s2.subscriptions == s1.subscriptions + {second};
  }
}
