/**
 * The driver app's trip state machine, as driven by its map view
 * controller: polling the provider for a matched trip, loading the
 * trip's waypoints, and moving through them one control-panel tap at a
 * time while reporting each step to the provider.
 *
 * Timer ticks, the delayed restart after a completed trip and the
 * completions of the provider calls arrive as separate events. The
 * provider calls the controller makes are recorded, in order, in an
 * outbox. A `Task` the controller starts runs on the main actor after
 * the handler that started it has returned, so a call that reads
 * `modelData.tripID` inside its task sees the state the handler left.
 */
module DriverMapView {
  import opened Wire
  import opened SdkTypes
  import opened DriverModel
  import P = DriverProviderService

  /** How often the poll timer fires, in seconds. */
  const PollFetchVehicleTimeInterval := 2
  /** How long after a completed trip polling restarts, in seconds. */
  const RestartPollingDelay := 5

  /** A call the controller makes to the provider backend. */
  datatype Call =
    | GetVehicleCall(vehicleID: string)
    | GetTripCall(tripID: string)
    | UpdateTripCall(tripID: string, status: P.ProviderTripStatus, intermediateDestinationIndex: Option<int>)

  /**
   * The model data together with the controller's own fields.
   * `timerHeld` says whether `pollFetchVehicleTimer` refers to a timer;
   * `liveTimers` counts the repeating timers that are still scheduled
   * (one that is no longer referenced keeps firing). `pendingRestarts`
   * counts delayed restarts not yet run, `pendingTripFetches` the getTrip
   * calls not yet answered, and `completedVehicleFetches` the getVehicle
   * calls that have completed.
   */
  datatype Session = Session(
    model: DriverRecord,
    isVehicleOnline: bool,
    isFetchVehicleInProgress: bool,
    timerHeld: bool,
    liveTimers: nat,
    pendingRestarts: nat,
    pendingTripFetches: multiset<string>,
    completedVehicleFetches: nat,
    outbox: seq<Call>)

  /** A freshly created controller over the given model data. */
  function Start(model: DriverRecord): Session {
    Session(model, false, false, false, 0, 0, multiset{}, 0, [])
  }

  /** How many getVehicle calls a sequence of calls holds. */
  function VehicleFetchCount(calls: seq<Call>): nat {
    if calls == [] then 0
    else VehicleFetchCount(calls[..|calls| - 1]) + (if calls[|calls| - 1].GetVehicleCall? then 1 else 0)
  }

  lemma VehicleFetchCountAppend(calls: seq<Call>, call: Call)
    ensures VehicleFetchCount(calls + [call]) == VehicleFetchCount(calls) + (if call.GetVehicleCall? then 1 else 0)
  {
    assert (calls + [call])[..|calls|] == calls;
  }

  /**
   * What every reachable session satisfies: a next trip only alongside a
   * current one, no trip while idle, a held timer is a live one, a
   * non-negative destination index, and at most one getVehicle call
   * outstanding at any time.
   */
  ghost predicate Inv(s: Session) {
    (s.model.nextTripID.Some? ==> s.model.tripID.Some?) &&
    (s.model.driverState == Idle ==> s.model.tripID.None?) &&
    (s.timerHeld ==> s.liveTimers > 0) &&
    s.model.intermediateDestinationIndex >= 0 &&
    VehicleFetchCount(s.outbox) == s.completedVehicleFetches + (if s.isFetchVehicleInProgress then 1 else 0)
  }

  /** The controller starts out satisfying the invariant over fresh model data. */
  lemma StartInv()
    ensures Inv(Start(InitialRecord))
  {
  }

  /** Appends a call to the outbox. */
  function Sent(s: Session, call: Call): (r: Session)
    ensures r == s.(outbox := s.outbox + [call])
    ensures VehicleFetchCount(r.outbox) == VehicleFetchCount(s.outbox) + (if call.GetVehicleCall? then 1 else 0)
  {
    VehicleFetchCountAppend(s.outbox, call);
    s.(outbox := s.outbox + [call])
  }

  /** `pollFetchVehicle`: schedules a new repeating timer; a previously held one is not invalidated. */
  function WithNewPollTimer(s: Session): Session {
    s.(timerHeld := true, liveTimers := s.liveTimers + 1)
  }

  /** `pollFetchVehicleTimer?.invalidate(); pollFetchVehicleTimer = nil` */
  function WithoutPollTimer(s: Session): Session
    requires s.timerHeld ==> s.liveTimers > 0
  {
    s.(timerHeld := false, liveTimers := if s.timerHeld then s.liveTimers - 1 else s.liveTimers)
  }

  /**
   * `updateTrip(status:intermediateDestinationIndex:)` as its task runs:
   * the call goes to the trip current at that moment, and is skipped
   * when there is none.
   */
  function TripUpdateSent(s: Session, status: P.ProviderTripStatus, index: Option<int>): (r: Session)
    ensures s.model.tripID.None? ==> r == s
    ensures s.model.tripID.Some? ==> r == Sent(s, UpdateTripCall(s.model.tripID.value, status, index))
  {
    if s.model.tripID.None? then s else Sent(s, UpdateTripCall(s.model.tripID.value, status, index))
  }

  /** `handleNewTrip`: asks for the current trip's details, if there is a current trip. */
  function TripDetailsRequested(s: Session): (r: Session)
    ensures s.model.tripID.None? ==> r == s
    ensures s.model.tripID.Some? ==>
      r == Sent(s, GetTripCall(s.model.tripID.value)).(pendingTripFetches := s.pendingTripFetches + multiset{s.model.tripID.value})
  {
    if s.model.tripID.None? then s
    else
      var tripID := s.model.tripID.value;
      Sent(s, GetTripCall(tripID)).(pendingTripFetches := s.pendingTripFetches + multiset{tripID})
  }

  /* ---------------------------------------------------------------------- */
  /* Events                                                                  */

  /** `handleCreateVehicle`: the created vehicle's ID is recorded; nothing is sent. */
  function VehicleCreated(s: Session, vehicleID: string): (r: Session)
    requires Inv(s)
    ensures Inv(r)
    ensures r.model.vehicleID == Some(vehicleID) && r.outbox == s.outbox
    ensures r.model.(vehicleID := s.model.vehicleID) == s.model
  {
    s.(model := s.model.(vehicleID := Some(vehicleID)))
  }

  /**
   * `vehicleReporter(_:didSucceed:)`: the first update that reports the
   * vehicle online starts polling; later ones, and offline ones, do
   * nothing.
   */
  function VehicleUpdateSucceeded(s: Session, isOnline: bool): (r: Session)
    requires Inv(s)
    ensures Inv(r)
    ensures r.model == s.model && r.outbox == s.outbox
    ensures r.isVehicleOnline == (s.isVehicleOnline || isOnline)
    ensures r.liveTimers == s.liveTimers + (if isOnline && !s.isVehicleOnline then 1 else 0)
  {
    if isOnline && !s.isVehicleOnline then WithNewPollTimer(s.(isVehicleOnline := true)) else s
  }

  /** Whether the current and the next trip are both known, which ends polling. */
  predicate BothTripsKnown(model: DriverRecord) {
    model.tripID.Some? && model.nextTripID.Some?
  }

  /**
   * `fetchVehicle`, run by a tick of a live poll timer. Without a vehicle
   * ID, or while a getVehicle call is outstanding, nothing happens; when
   * both trips are known the held timer is cancelled instead; otherwise
   * exactly one getVehicle call is sent and marked in progress.
   */
  function PollTick(s: Session): (r: Session)
    requires Inv(s) && s.liveTimers > 0
    ensures Inv(r)
    ensures r.model == s.model
    ensures |r.outbox| > |s.outbox| <==>
      s.model.vehicleID.Some? && !s.isFetchVehicleInProgress && !BothTripsKnown(s.model)
    ensures |r.outbox| > |s.outbox| ==>
      r.outbox == s.outbox + [GetVehicleCall(s.model.vehicleID.value)] && r.isFetchVehicleInProgress
    ensures |r.outbox| == |s.outbox| ==> r.outbox == s.outbox && r.isFetchVehicleInProgress == s.isFetchVehicleInProgress
    ensures r.timerHeld ==
      (s.timerHeld && !(s.model.vehicleID.Some? && !s.isFetchVehicleInProgress && BothTripsKnown(s.model)))
  {
    if s.model.vehicleID.None? then s
    else if s.isFetchVehicleInProgress then s
    else if BothTripsKnown(s.model) then WithoutPollTimer(s)
    else Sent(s.(isFetchVehicleInProgress := true), GetVehicleCall(s.model.vehicleID.value))
  }

  /**
   * `handleFetchVehicle`: an empty list changes nothing and polling goes
   * on. Otherwise polling stops; the first ID becomes the current trip
   * (state `new`, its details requested) only if there was none, and a
   * second ID becomes the next trip.
   */
  function TripsMatched(s: Session, matchedTripIDs: seq<string>): (r: Session)
    requires Inv(s)
    ensures Inv(r)
    ensures r.isFetchVehicleInProgress == s.isFetchVehicleInProgress
    ensures r.completedVehicleFetches == s.completedVehicleFetches
    ensures matchedTripIDs == [] ==> r == s
    ensures matchedTripIDs != [] ==>
      !r.timerHeld &&
      r.model.tripID == (if s.model.tripID.Some? then s.model.tripID else Some(matchedTripIDs[0])) &&
      r.model.nextTripID == (if |matchedTripIDs| >= 2 then Some(matchedTripIDs[1]) else s.model.nextTripID) &&
      r.model.driverState == (if s.model.tripID.Some? then s.model.driverState else New) &&
      r.model.waypoints == s.model.waypoints &&
      r.model.intermediateDestinationIndex == s.model.intermediateDestinationIndex &&
      r.outbox == s.outbox + (if s.model.tripID.Some? then [] else [GetTripCall(matchedTripIDs[0])])
  {
    if matchedTripIDs == [] then s
    else
      var s1 := WithoutPollTimer(s);
      var s2 :=
        if s1.model.tripID.None?
        then TripDetailsRequested(s1.(model := s1.model.(driverState := New, tripID := Some(matchedTripIDs[0]))))
        else s1;
      if |matchedTripIDs| >= 2 then s2.(model := s2.model.(nextTripID := Some(matchedTripIDs[1]))) else s2
  }

  /**
   * The getVehicle call completes: the in-progress flag is cleared on
   * success and failure alike; a failure changes nothing else.
   */
  function VehicleFetched(s: Session, reply: Reply): (r: Session)
    requires Inv(s) && s.isFetchVehicleInProgress
    ensures Inv(r)
    ensures !r.isFetchVehicleInProgress
    ensures P.GetVehicleResult(reply).Err? ==>
      r == s.(isFetchVehicleInProgress := false, completedVehicleFetches := s.completedVehicleFetches + 1)
    ensures P.GetVehicleResult(reply).Ok? ==>
      r == TripsMatched(s.(isFetchVehicleInProgress := false, completedVehicleFetches := s.completedVehicleFetches + 1),
                              P.GetVehicleResult(reply).value)
  {
    var s1 := s.(isFetchVehicleInProgress := false, completedVehicleFetches := s.completedVehicleFetches + 1);
    match P.GetVehicleResult(reply)
    case Err(_) => s1
    case Ok(matchedTripIDs) => TripsMatched(s1, matchedTripIDs)
  }

  /**
   * The getTrip call for `tripID` completes: on success the waypoints are
   * replaced by the fetched ones, in order, and the destination index is
   * reset; on failure nothing changes.
   */
  function TripFetched(s: Session, tripID: string, reply: Reply): (r: Session)
    requires Inv(s) && tripID in s.pendingTripFetches
    ensures Inv(r)
    ensures r.pendingTripFetches == s.pendingTripFetches - multiset{tripID}
    ensures r.outbox == s.outbox
    ensures P.GetTripResult(reply, tripID).Err? ==> r.model == s.model
    ensures P.GetTripResult(reply, tripID).Ok? ==>
      r.model == s.model.(waypoints := Some(P.GetTripResult(reply, tripID).value.1), intermediateDestinationIndex := 0)
  {
    var s1 := s.(pendingTripFetches := s.pendingTripFetches - multiset{tripID});
    match P.GetTripResult(reply, tripID)
    case Err(_) => s1
    case Ok((_, waypoints)) => s1.(model := s1.model.(waypoints := Some(waypoints), intermediateDestinationIndex := 0))
  }

  /** The status reported on setting off towards a waypoint of a known type. */
  function EnrouteStatus(t: WaypointType): P.ProviderTripStatus
    requires t != Unknown
  {
    match t
    case PickUp => P.EnrouteToPickup
    case IntermediateDestination => P.EnrouteToIntermediateDestination
    case DropOff => P.EnrouteToDropoff
  }

  /** The driver state on setting off towards a waypoint of a known type. */
  function EnrouteState(t: WaypointType): DriverState
    requires t != Unknown
  {
    match t
    case PickUp => EnrouteToPickup
    case IntermediateDestination => EnrouteToIntermediateDestination
    case DropOff => EnrouteToDropoff
  }

  /**
   * `updateTripStatusToEnrouteToWaypoint`: with a first waypoint, marks
   * the driver en route without removing it, reports the matching
   * ENROUTE status (the intermediate one with the current index) and sets
   * the matching state; setting off to the drop-off also restarts
   * polling. An unknown waypoint type reports nothing.
   */
  function Enroute(s: Session): (r: Session)
    requires Inv(s)
    ensures Inv(r)
    ensures FirstWaypoint(s.model).None? ==> r == s
    ensures FirstWaypoint(s.model).Some? ==>
      var t := FirstWaypoint(s.model).value.waypointType;
      r.model.isEnrouteToWaypoint &&
      r.model.waypoints == s.model.waypoints &&
      r.model.tripID == s.model.tripID && r.model.nextTripID == s.model.nextTripID &&
      r.model.intermediateDestinationIndex == s.model.intermediateDestinationIndex &&
      r.model.driverState == (if t == Unknown then s.model.driverState else EnrouteState(t)) &&
      r.outbox == s.outbox +
        (if t == Unknown || s.model.tripID.None? then []
         else [UpdateTripCall(s.model.tripID.value, EnrouteStatus(t),
                              if t == IntermediateDestination then Some(s.model.intermediateDestinationIndex) else None)]) &&
      r.liveTimers == s.liveTimers + (if t == DropOff then 1 else 0) &&
      r.pendingRestarts == s.pendingRestarts && r.pendingTripFetches == s.pendingTripFetches
  {
    match FirstWaypoint(s.model)
    case None => s
    case Some(waypoint) =>
      var s1 := s.(model := s.model.(isEnrouteToWaypoint := true));
      match waypoint.waypointType
      case PickUp =>
        TripUpdateSent(s1.(model := s1.model.(driverState := EnrouteToPickup)), P.EnrouteToPickup, None)
      case IntermediateDestination =>
        TripUpdateSent(s1.(model := s1.model.(driverState := EnrouteToIntermediateDestination)),
          P.EnrouteToIntermediateDestination, Some(s1.model.intermediateDestinationIndex))
      case DropOff =>
        WithNewPollTimer(TripUpdateSent(s1.(model := s1.model.(driverState := EnrouteToDropoff)), P.EnrouteToDropoff, None))
      case Unknown => s1
  }

  /**
   * `updateTripStatusToArrivedAtWaypoint`: with a first waypoint, removes
   * exactly that waypoint and clears the en-route flag, then:
   * at a pickup reports ARRIVED_AT_PICKUP; at an intermediate stop
   * reports ARRIVED_AT_INTERMEDIATE_DESTINATION and moves the index on by
   * one; at the drop-off reports COMPLETE and either promotes the next
   * trip (state `new`, its details requested) or, without one, completes
   * and schedules the delayed restart. An unknown type is removed
   * silently. The COMPLETE call's task runs after the promotion, so it
   * goes to the trip current at that moment.
   */
  function Arrive(s: Session): (r: Session)
    requires Inv(s)
    ensures Inv(r)
    ensures FirstWaypoint(s.model).None? ==> r == s
    ensures FirstWaypoint(s.model).Some? ==>
      !r.model.isEnrouteToWaypoint && r.model.waypoints == Some(s.model.waypoints.value[1..]) &&
      r.liveTimers == s.liveTimers && r.timerHeld == s.timerHeld &&
      match FirstWaypoint(s.model).value.waypointType
      case PickUp => r == ArrivedAtPickupStep(Popped(s))
      case IntermediateDestination => r == ArrivedAtStopStep(Popped(s))
      case DropOff => r == ArrivedAtDropoffStep(Popped(s))
      case Unknown => r == Popped(s)
  {
    match FirstWaypoint(s.model)
    case None => s
    case Some(waypoint) =>
      match waypoint.waypointType
      case PickUp => ArrivedAtPickupStep(Popped(s))
      case IntermediateDestination => ArrivedAtStopStep(Popped(s))
      case DropOff => ArrivedAtDropoffStep(Popped(s))
      case Unknown => Popped(s)
  }

  /** `removeFirst` on the waypoints, with the en-route flag cleared. */
  function Popped(s: Session): (r: Session)
    requires FirstWaypoint(s.model).Some?
  {
    s.(model := s.model.(isEnrouteToWaypoint := false, waypoints := Some(s.model.waypoints.value[1..])))
  }

  /** Arriving at a pickup reports ARRIVED_AT_PICKUP for the current trip. */
  function ArrivedAtPickupStep(s: Session): (r: Session)
    requires Inv(s)
    ensures Inv(r)
    ensures r.model == s.model.(driverState := ArrivedAtPickup)
    ensures r.outbox == s.outbox + (if s.model.tripID.None? then [] else [UpdateTripCall(s.model.tripID.value, P.ArrivedAtPickup, None)])
    ensures r.pendingRestarts == s.pendingRestarts && r.pendingTripFetches == s.pendingTripFetches && r.liveTimers == s.liveTimers && r.timerHeld == s.timerHeld
  {
    TripUpdateSent(s.(model := s.model.(driverState := ArrivedAtPickup)), P.ArrivedAtPickup, None)
  }

  /**
   * Arriving at an intermediate stop reports
   * ARRIVED_AT_INTERMEDIATE_DESTINATION (without an index) and moves the
   * index on by one.
   */
  function ArrivedAtStopStep(s: Session): (r: Session)
    requires Inv(s)
    ensures Inv(r)
    ensures r.model == s.model.(driverState := ArrivedAtIntermediateDestination,
      intermediateDestinationIndex := s.model.intermediateDestinationIndex + 1)
    ensures r.outbox == s.outbox +
      (if s.model.tripID.None? then [] else [UpdateTripCall(s.model.tripID.value, P.ArrivedAtIntermediateDestination, None)])
    ensures r.pendingRestarts == s.pendingRestarts && r.pendingTripFetches == s.pendingTripFetches && r.liveTimers == s.liveTimers && r.timerHeld == s.timerHeld
  {
    TripUpdateSent(s.(model := s.model.(driverState := ArrivedAtIntermediateDestination,
                                        intermediateDestinationIndex := s.model.intermediateDestinationIndex + 1)),
      P.ArrivedAtIntermediateDestination, None)
  }

  /**
   * Arriving at the drop-off reports COMPLETE. With a next trip, that trip
   * becomes current (state `new`, no next trip, its details requested),
   * and the COMPLETE call, whose task runs after this, goes to it.
   * Without one, the trip is complete and the delayed restart is
   * scheduled.
   */
  function ArrivedAtDropoffStep(s: Session): (r: Session)
    requires Inv(s)
    ensures Inv(r)
    ensures s.model.nextTripID.Some? ==> r == NextTripPromoted(s)
    ensures s.model.nextTripID.None? ==> r == TripCompleted(s)
  {
    if s.model.nextTripID.Some? then NextTripPromoted(s) else TripCompleted(s)
  }

  /**
   * The next trip becomes current: state `new`, no next trip, its details
   * requested; the COMPLETE call goes to it, not to the trip just ended.
   */
  function NextTripPromoted(s: Session): (r: Session)
    requires Inv(s) && s.model.nextTripID.Some?
    ensures Inv(r)
    ensures var next := s.model.nextTripID.value;
      r.model == s.model.(driverState := New, tripID := Some(next), nextTripID := None) &&
      r.outbox == s.outbox + [UpdateTripCall(next, P.Complete, None), GetTripCall(next)] &&
      r.pendingTripFetches == s.pendingTripFetches + multiset{next} && r.pendingRestarts == s.pendingRestarts &&
      r.liveTimers == s.liveTimers && r.timerHeld == s.timerHeld
  {
    var s1 := s.(model := s.model.(driverState := New, tripID := s.model.nextTripID, nextTripID := None));
    TripDetailsRequested(TripUpdateSent(s1, P.Complete, None))
  }

  /** Without a next trip the trip is complete and the delayed restart is scheduled. */
  function TripCompleted(s: Session): (r: Session)
    requires Inv(s)
    ensures Inv(r)
    ensures r.model == s.model.(driverState := TripComplete)
    ensures r.outbox == s.outbox + (if s.model.tripID.None? then [] else [UpdateTripCall(s.model.tripID.value, P.Complete, None)])
    ensures r.pendingRestarts == s.pendingRestarts + 1 && r.pendingTripFetches == s.pendingTripFetches
    ensures r.liveTimers == s.liveTimers && r.timerHeld == s.timerHeld
  {
    TripUpdateSent(s.(model := s.model.(driverState := TripComplete), pendingRestarts := s.pendingRestarts + 1),
      P.Complete, None)
  }

  /** `didTapControlPanelButton`: arrive when en route, set off otherwise. */
  function Tap(s: Session): (r: Session)
    requires Inv(s)
    ensures Inv(r)
    ensures s.model.isEnrouteToWaypoint ==> r == Arrive(s)
    ensures !s.model.isEnrouteToWaypoint ==> r == Enroute(s)
  {
    if s.model.isEnrouteToWaypoint then Arrive(s) else Enroute(s)
  }

  /**
   * `startPollingForTrip`, run by the delayed restart: back to idle with
   * no current or next trip, and polling again.
   */
  function DelayedRestart(s: Session): (r: Session)
    requires Inv(s) && s.pendingRestarts > 0
    ensures Inv(r)
    ensures r.model == s.model.(driverState := Idle, tripID := None, nextTripID := None)
    ensures r.timerHeld && r.liveTimers == s.liveTimers + 1 && r.pendingRestarts == s.pendingRestarts - 1
    ensures r.outbox == s.outbox
  {
    WithNewPollTimer(s.(pendingRestarts := s.pendingRestarts - 1,
      model := s.model.(driverState := Idle, tripID := None, nextTripID := None)))
  }

  /* ---------------------------------------------------------------------- */
  /* Properties over several events                                          */

  /**
   * Setting off and then arriving removes exactly the first waypoint and
   * reports, in order, the ENROUTE and the ARRIVED status for it.
   */
  lemma SetOffThenArrivePopsFirst(s: Session)
    requires Inv(s) && !s.model.isEnrouteToWaypoint && FirstWaypoint(s.model).Some?
    requires s.model.tripID.Some?
    requires FirstWaypoint(s.model).value.waypointType == PickUp
    ensures Tap(Tap(s)).model.waypoints == Some(s.model.waypoints.value[1..])
    ensures !Tap(Tap(s)).model.isEnrouteToWaypoint
    ensures Tap(Tap(s)).outbox == s.outbox +
      [UpdateTripCall(s.model.tripID.value, P.EnrouteToPickup, None), UpdateTripCall(s.model.tripID.value, P.ArrivedAtPickup, None)]
  {
    PassStopIsTwoTaps(s);
  }

  /** Whether no waypoint in `ws` is a drop-off or of unknown type. */
  predicate AllStops(ws: seq<TripWaypoint>) {
    forall i :: 0 <= i < |ws| ==> ws[i].waypointType in {PickUp, IntermediateDestination}
  }

  /** How many intermediate destinations `ws` holds. */
  function IntermediateCount(ws: seq<TripWaypoint>): nat {
    if ws == [] then 0
    else (if ws[0].waypointType == IntermediateDestination then 1 else 0) + IntermediateCount(ws[1..])
  }

  /** The ENROUTE update for setting off to a stop of type `t`, with `index` for an intermediate one. */
  function EnrouteCall(tripID: string, t: WaypointType, index: int): Call
    requires t in {PickUp, IntermediateDestination}
  {
    if t == PickUp then UpdateTripCall(tripID, P.EnrouteToPickup, None)
    else UpdateTripCall(tripID, P.EnrouteToIntermediateDestination, Some(index))
  }

  /** The ARRIVED update for a stop of type `t`, without an index. */
  function ArrivedCall(tripID: string, t: WaypointType): Call
    requires t in {PickUp, IntermediateDestination}
  {
    if t == PickUp then UpdateTripCall(tripID, P.ArrivedAtPickup, None)
    else UpdateTripCall(tripID, P.ArrivedAtIntermediateDestination, None)
  }

  /**
   * The two status updates for setting off to and arriving at a stop of
   * type `t` on trip `tripID`: ENROUTE (with `index` for an intermediate
   * stop) and then ARRIVED.
   */
  function StopCallsFor(tripID: string, t: WaypointType, index: int): seq<Call>
    requires t in {PickUp, IntermediateDestination}
  {
    [EnrouteCall(tripID, t, index), ArrivedCall(tripID, t)]
  }

  /**
   * The status updates for passing the stops `ws` in order, the first
   * intermediate one at destination index `index`.
   */
  function StopCalls(tripID: string, ws: seq<TripWaypoint>, index: int): seq<Call>
    requires AllStops(ws)
    decreases |ws|
  {
    if ws == [] then []
    else
      StopCallsFor(tripID, ws[0].waypointType, index) +
      StopCalls(tripID, ws[1..], index + (if ws[0].waypointType == IntermediateDestination then 1 else 0))
  }

  /**
   * Setting off to and arriving at a pickup or intermediate stop: the stop
   * is removed, the destination index moves past it when it is an
   * intermediate stop, and the two status updates go to the current trip.
   * `PassStopIsTwoTaps` shows this is what two taps of the control button
   * do.
   */
  function PassStop(s: Session): (r: Session)
    requires !s.model.isEnrouteToWaypoint && FirstWaypoint(s.model).Some?
    requires FirstWaypoint(s.model).value.waypointType in {PickUp, IntermediateDestination}
    ensures r.model.waypoints == Some(s.model.waypoints.value[1..]) && !r.model.isEnrouteToWaypoint
    ensures r.model.intermediateDestinationIndex == s.model.intermediateDestinationIndex +
      (if FirstWaypoint(s.model).value.waypointType == IntermediateDestination then 1 else 0)
    ensures r.model.tripID == s.model.tripID && r.model.nextTripID == s.model.nextTripID
    ensures r.model.driverState in {ArrivedAtPickup, ArrivedAtIntermediateDestination}
    ensures r.outbox == s.outbox +
      (if s.model.tripID.None? then []
       else StopCallsFor(s.model.tripID.value, FirstWaypoint(s.model).value.waypointType,
                         s.model.intermediateDestinationIndex))
    ensures r.liveTimers == s.liveTimers && r.timerHeld == s.timerHeld
    ensures r.completedVehicleFetches == s.completedVehicleFetches
    ensures r.isFetchVehicleInProgress == s.isFetchVehicleInProgress
  {
    if s.model.tripID.Some? then
      var id := s.model.tripID.value;
      var t := FirstWaypoint(s.model).value.waypointType;
      OneThenOther(s.outbox, EnrouteCall(id, t, s.model.intermediateDestinationIndex), ArrivedCall(id, t));
      ArrivedAt(SetOff(s))
    else
      assert s.outbox + [] + [] == s.outbox + [] == s.outbox;
      ArrivedAt(SetOff(s))
  }

  /** Passing a stop keeps the session invariant: the two updates are not vehicle fetches. */
  lemma PassStopKeepsInv(s: Session)
    requires Inv(s) && !s.model.isEnrouteToWaypoint && FirstWaypoint(s.model).Some?
    requires FirstWaypoint(s.model).value.waypointType in {PickUp, IntermediateDestination}
    ensures Inv(PassStop(s))
  {
    if s.model.tripID.Some? {
      var id := s.model.tripID.value;
      var t := FirstWaypoint(s.model).value.waypointType;
      var enroute := EnrouteCall(id, t, s.model.intermediateDestinationIndex);
      VehicleFetchCountAppend(s.outbox, enroute);
      VehicleFetchCountAppend(s.outbox + [enroute], ArrivedCall(id, t));
      OneThenOther(s.outbox, enroute, ArrivedCall(id, t));
      assert PassStop(s).outbox == s.outbox + [enroute] + [ArrivedCall(id, t)];
    } else {
      assert PassStop(s).outbox == s.outbox;
    }
  }

  /** The state after setting off towards the first waypoint, a stop. */
  function SetOff(s: Session): Session
    requires FirstWaypoint(s.model).Some?
    requires FirstWaypoint(s.model).value.waypointType in {PickUp, IntermediateDestination}
  {
    var t := FirstWaypoint(s.model).value.waypointType;
    s.(model := s.model.(isEnrouteToWaypoint := true, driverState := EnrouteState(t)),
       outbox := s.outbox +
         (if s.model.tripID.None? then []
          else [EnrouteCall(s.model.tripID.value, t, s.model.intermediateDestinationIndex)]))
  }

  /** The state after arriving at the first waypoint, a stop. */
  function ArrivedAt(s: Session): Session
    requires FirstWaypoint(s.model).Some?
    requires FirstWaypoint(s.model).value.waypointType in {PickUp, IntermediateDestination}
  {
    var t := FirstWaypoint(s.model).value.waypointType;
    s.(model := s.model.(
         isEnrouteToWaypoint := false,
         waypoints := Some(s.model.waypoints.value[1..]),
         driverState := if t == PickUp then ArrivedAtPickup else ArrivedAtIntermediateDestination,
         intermediateDestinationIndex :=
           s.model.intermediateDestinationIndex + (if t == IntermediateDestination then 1 else 0)),
       outbox := s.outbox + (if s.model.tripID.None? then [] else [ArrivedCall(s.model.tripID.value, t)]))
  }

  /**
   * `didTapControlPanelButton` twice at a pickup or intermediate stop:
   * the first tap sets off towards it, the second arrives there.
   */
  lemma PassStopIsTwoTaps(s: Session)
    requires Inv(s) && !s.model.isEnrouteToWaypoint && FirstWaypoint(s.model).Some?
    requires FirstWaypoint(s.model).value.waypointType in {PickUp, IntermediateDestination}
    ensures Inv(Tap(s)) && Tap(Tap(s)) == PassStop(s)
  {
    PassStopKeepsInv(s);
    SetOffToStop(s);
    ArriveAtStop(SetOff(s));
  }

  /** Sending one call and then another sends the two in that order. */
  lemma OneThenOther(outbox: seq<Call>, first: Call, second: Call)
    ensures outbox + [first] + [second] == outbox + [first, second]
  {
  }

  /** Setting off towards a stop: only the flag and the state change, and one ENROUTE update is sent. */
  lemma SetOffToStop(s: Session)
    requires Inv(s) && !s.model.isEnrouteToWaypoint && FirstWaypoint(s.model).Some?
    requires FirstWaypoint(s.model).value.waypointType in {PickUp, IntermediateDestination}
    ensures Tap(s) == SetOff(s)
  {
  }

  /** Arriving at a stop pops it, moves the index past an intermediate one, and sends one ARRIVED update. */
  lemma ArriveAtStop(s: Session)
    requires Inv(s) && s.model.isEnrouteToWaypoint && FirstWaypoint(s.model).Some?
    requires FirstWaypoint(s.model).value.waypointType in {PickUp, IntermediateDestination}
    ensures Tap(s) == ArrivedAt(s)
  {
  }

  /** Passing the first `k` waypoints, all of them stops. */
  function PassStops(s: Session, k: nat): (r: Session)
    requires !s.model.isEnrouteToWaypoint
    requires s.model.waypoints.Some? && k <= |s.model.waypoints.value|
    requires AllStops(s.model.waypoints.value[..k])
    decreases k
  {
    if k == 0 then s
    else
      var ws := s.model.waypoints.value;
      assert ws[..k][0] == ws[0];
      assert ws[1..][..k - 1] == ws[..k][1..];
      PassStops(PassStop(s), k - 1)
  }

  /** Driving through stops keeps the session invariant. */
  lemma {:induction false} PassStopsKeepInv(s: Session, k: nat)
    decreases k
    requires Inv(s) && !s.model.isEnrouteToWaypoint
    requires s.model.waypoints.Some? && k <= |s.model.waypoints.value|
    requires AllStops(s.model.waypoints.value[..k])
    ensures Inv(PassStops(s, k))
  {
    if k > 0 {
      var ws := s.model.waypoints.value;
      StopsAfterFirst(ws, k);
      PassStopKeepsInv(s);
      assert PassStop(s).model.waypoints.value[..k - 1] == ws[1..][..k - 1];
      PassStopsKeepInv(PassStop(s), k - 1);
    }
  }

  /**
   * Driving through pickups and intermediate stops leaves the remaining
   * waypoints in order, moves the destination index on by the number of
   * intermediate stops passed, keeps the trip, and sends, in order, the
   * ENROUTE and ARRIVED updates of each stop to that trip.
   */
  lemma {:induction false} DriveThroughStops(s: Session, k: nat)
    decreases k
    requires !s.model.isEnrouteToWaypoint
    requires s.model.waypoints.Some? && k <= |s.model.waypoints.value|
    requires AllStops(s.model.waypoints.value[..k])
    ensures var r := PassStops(s, k);
      r.model.waypoints == Some(s.model.waypoints.value[k..]) &&
      !r.model.isEnrouteToWaypoint &&
      r.model.intermediateDestinationIndex ==
        s.model.intermediateDestinationIndex + IntermediateCount(s.model.waypoints.value[..k]) &&
      r.model.tripID == s.model.tripID && r.model.nextTripID == s.model.nextTripID &&
      r.outbox == s.outbox +
        (if s.model.tripID.None? then []
         else StopCalls(s.model.tripID.value, s.model.waypoints.value[..k], s.model.intermediateDestinationIndex)) &&
      r.liveTimers == s.liveTimers
  {
    var ws := s.model.waypoints.value;
    if k == 0 {
      assert ws[0..] == ws;
    } else {
      assert ws[..k][0] == ws[0];
      assert ws[1..][..k - 1] == ws[..k][1..];
      assert IntermediateCount(ws[..k]) ==
        (if ws[0].waypointType == IntermediateDestination then 1 else 0) + IntermediateCount(ws[1..][..k - 1]);
      DriveThroughStops(PassStop(s), k - 1);
      assert ws[1..][k - 1..] == ws[k..];
    }
    StopsReported(s, k);
  }

  /** The updates sent while driving through the first `k` waypoints, all of them stops. */
  lemma {:induction false} StopsReported(s: Session, k: nat)
    decreases k
    requires !s.model.isEnrouteToWaypoint
    requires s.model.waypoints.Some? && k <= |s.model.waypoints.value|
    requires AllStops(s.model.waypoints.value[..k])
    ensures PassStops(s, k).outbox == s.outbox + StopsSent(s, k)
  {
    if k > 0 {
      var ws := s.model.waypoints.value;
      StopsAfterFirst(ws, k);
      var s1 := PassStop(s);
      assert s1.model.waypoints.value[..k - 1] == ws[1..][..k - 1];
      StopsReported(s1, k - 1);
      StopsAppended(s.outbox, s1.outbox, PassStops(s1, k - 1).outbox, s.model.tripID, ws, k,
                    s.model.intermediateDestinationIndex);
    } else {
      assert s.outbox + [] == s.outbox;
    }
  }

  /** Sending the first stop's updates and then the rest's sends the updates for all of them. */
  lemma StopsAppended(outbox: seq<Call>, middle: seq<Call>, last: seq<Call>, tripID: Option<string>,
                      ws: seq<TripWaypoint>, k: nat, index: int)
    requires 0 < k <= |ws| && AllStops(ws[..k])
    requires ws[0].waypointType in {PickUp, IntermediateDestination} && AllStops(ws[1..][..k - 1])
    requires middle == outbox +
      (if tripID.None? then [] else StopCallsFor(tripID.value, ws[0].waypointType, index))
    requires last == middle +
      (if tripID.None? then []
       else StopCalls(tripID.value, ws[1..][..k - 1],
                      index + (if ws[0].waypointType == IntermediateDestination then 1 else 0)))
    ensures last == outbox + (if tripID.None? then [] else StopCalls(tripID.value, ws[..k], index))
  {
    if tripID.Some? {
      StopCallsUnfold(tripID.value, ws, k, index);
      assert outbox + StopCallsFor(tripID.value, ws[0].waypointType, index) +
        StopCalls(tripID.value, ws[1..][..k - 1],
                  index + (if ws[0].waypointType == IntermediateDestination then 1 else 0)) ==
        outbox + (StopCallsFor(tripID.value, ws[0].waypointType, index) +
        StopCalls(tripID.value, ws[1..][..k - 1],
                  index + (if ws[0].waypointType == IntermediateDestination then 1 else 0)));
    } else {
      assert outbox + [] + [] == outbox + [];
    }
  }

  /** The updates for the first `k` waypoints, all of them stops, to the current trip; none without one. */
  ghost function StopsSent(s: Session, k: nat): seq<Call>
    requires s.model.waypoints.Some? && k <= |s.model.waypoints.value|
    requires AllStops(s.model.waypoints.value[..k])
  {
    if s.model.tripID.None? then []
    else StopCalls(s.model.tripID.value, s.model.waypoints.value[..k], s.model.intermediateDestinationIndex)
  }

  /** A non-empty prefix of stops starts with a stop and goes on with stops. */
  lemma StopsAfterFirst(ws: seq<TripWaypoint>, k: nat)
    requires 0 < k <= |ws| && AllStops(ws[..k])
    ensures ws[0].waypointType in {PickUp, IntermediateDestination} && AllStops(ws[1..][..k - 1])
  {
    assert ws[..k][0] == ws[0];
    assert ws[1..][..k - 1] == ws[..k][1..];
  }

  /** `StopCalls` on a non-empty prefix: the first stop's two updates, then the rest's. */
  lemma StopCallsUnfold(tripID: string, ws: seq<TripWaypoint>, k: nat, index: int)
    requires 0 < k <= |ws| && AllStops(ws[..k])
    ensures ws[0].waypointType in {PickUp, IntermediateDestination} && AllStops(ws[1..][..k - 1])
    ensures StopCalls(tripID, ws[..k], index) ==
      StopCallsFor(tripID, ws[0].waypointType, index) +
      StopCalls(tripID, ws[1..][..k - 1], index + (if ws[0].waypointType == IntermediateDestination then 1 else 0))
  {
    StopsAfterFirst(ws, k);
    assert ws[1..][..k - 1] == ws[..k][1..];
  }

  /**
   * Arriving at the drop-off with a next trip queued reports COMPLETE for
   * the NEXT trip, not for the one just dropped off: the call's task reads
   * the trip ID after the handler has promoted the next trip.
   */
  lemma CompleteGoesToPromotedTrip(s: Session)
    requires Inv(s) && s.model.isEnrouteToWaypoint && FirstWaypoint(s.model).Some?
    requires FirstWaypoint(s.model).value.waypointType == DropOff
    requires s.model.tripID.Some? && s.model.nextTripID.Some? && s.model.tripID != s.model.nextTripID
    ensures UpdateTripCall(s.model.nextTripID.value, P.Complete, None) in Tap(s).outbox[|s.outbox|..]
    ensures forall c :: c in Tap(s).outbox[|s.outbox|..] ==> c.tripID != s.model.tripID.value
  {
    var r := Tap(s);
    assert r.outbox[|s.outbox|..] == [UpdateTripCall(s.model.nextTripID.value, P.Complete, None), GetTripCall(s.model.nextTripID.value)];
  }

  /**
   * Setting off to the drop-off while the poll timer is still held
   * schedules a second timer without cancelling the first; cancelling
   * the held one later leaves a timer running that nothing refers to.
   */
  lemma PollTimerLeaks(s: Session)
    requires Inv(s) && !s.model.isEnrouteToWaypoint && FirstWaypoint(s.model).Some?
    requires FirstWaypoint(s.model).value.waypointType == DropOff
    requires s.timerHeld
    ensures Tap(s).liveTimers == s.liveTimers + 1
    ensures var r := WithoutPollTimer(Tap(s)); !r.timerHeld && r.liveTimers >= 1
  {
  }

  /** One poll round whose answer lists no trips. */
  function EmptyPoll(s: Session): (r: Session)
    requires Inv(s) && s.liveTimers > 0
    requires s.model.vehicleID.Some? && !s.isFetchVehicleInProgress && !BothTripsKnown(s.model)
    ensures Inv(r)
    ensures r.model == s.model && r.timerHeld == s.timerHeld && r.liveTimers == s.liveTimers
    ensures !r.isFetchVehicleInProgress
    ensures r.outbox == s.outbox + [GetVehicleCall(s.model.vehicleID.value)]
  {
    VehicleFetched(PollTick(s), Received(Some(JObject(map[P.CurrentTripsIDsKey := JArray([])]))))
  }

  /** `n` poll rounds whose answers list no trips. */
  function EmptyPolls(s: Session, n: nat): (r: Session)
    requires Inv(s) && s.liveTimers > 0
    requires s.model.vehicleID.Some? && !s.isFetchVehicleInProgress && !BothTripsKnown(s.model)
    ensures Inv(r) && !r.isFetchVehicleInProgress
    ensures r.model == s.model && r.timerHeld == s.timerHeld && r.liveTimers == s.liveTimers
    decreases n
  {
    if n == 0 then s else EmptyPolls(EmptyPoll(s), n - 1)
  }

  /** `n` copies of one call. */
  function Repeated(call: Call, n: nat): (calls: seq<Call>)
    ensures |calls| == n && forall i :: 0 <= i < n ==> calls[i] == call
  {
    if n == 0 then [] else [call] + Repeated(call, n - 1)
  }

  /**
   * Any number of poll rounds that find no trip leave the model data and
   * the timer untouched, and send one getVehicle call each.
   */
  lemma {:induction false} EmptyPollsChangeNothing(s: Session, n: nat)
    decreases n
    requires Inv(s) && s.liveTimers > 0
    requires s.model.vehicleID.Some? && !s.isFetchVehicleInProgress && !BothTripsKnown(s.model)
    ensures var r := EmptyPolls(s, n);
      r.model == s.model && r.timerHeld == s.timerHeld && r.liveTimers == s.liveTimers &&
      r.outbox == s.outbox + Repeated(GetVehicleCall(s.model.vehicleID.value), n)
  {
    if n > 0 {
      var s1 := EmptyPoll(s);
      var call := GetVehicleCall(s.model.vehicleID.value);
      EmptyPollsChangeNothing(s1, n - 1);
      assert EmptyPolls(s, n) == EmptyPolls(s1, n - 1);
      assert s1.outbox == s.outbox + [call];
      assert s.outbox + [call] + Repeated(call, n - 1) == s.outbox + Repeated(call, n);
    }
  }

  /**
   * From launch: the vehicle is created and reported online, the first
   * poll finds one trip; the driver is then on that trip in state `new`,
   * polling has stopped, and exactly one getVehicle and one getTrip call
   * were sent.
   */
  lemma FirstMatch(vehicleID: string, tripID: string)
    ensures var s0 := VehicleUpdateSucceeded(VehicleCreated(Start(InitialRecord), vehicleID), true);
      s0.liveTimers == 1 &&
      var r := VehicleFetched(PollTick(s0), Received(Some(JObject(map[P.CurrentTripsIDsKey := P.TripIDsJson([tripID])]))));
      r.model.driverState == New && r.model.tripID == Some(tripID) && r.model.nextTripID.None? &&
      !r.timerHeld && r.liveTimers == 0 &&
      r.outbox == [GetVehicleCall(vehicleID), GetTripCall(tripID)]
  {
    StartInv();
    var s0 := VehicleUpdateSucceeded(VehicleCreated(Start(InitialRecord), vehicleID), true);
    var s1 := PollTick(s0);
    assert s1.outbox == [GetVehicleCall(vehicleID)] && s1.isFetchVehicleInProgress;
    P.GetVehicleReturnsSentTripIDs([tripID]);
  }

  /* ---------------------------------------------------------------------- */
  /* The controller                                                          */

  class MapViewController {
    const modelData: ModelData
    var isVehicleOnline: bool
    var isFetchVehicleInProgress: bool
    /** Whether `pollFetchVehicleTimer` refers to a timer. */
    var timerHeld: bool
    /** Repeating poll timers still scheduled, referenced or not. */
    var liveTimers: nat
    var pendingRestarts: nat
    var pendingTripFetches: multiset<string>
    var completedVehicleFetches: nat
    /** The provider calls made so far, in order. */
    var outbox: seq<Call>

    function Snapshot(): Session
      reads this, modelData
    {
      Session(modelData.Record(), isVehicleOnline, isFetchVehicleInProgress, timerHeld, liveTimers,
        pendingRestarts, pendingTripFetches, completedVehicleFetches, outbox)
    }

    ghost predicate Valid()
      reads this, modelData
    {
      Inv(Snapshot())
    }

    constructor(modelData: ModelData)
      requires Inv(Start(modelData.Record()))
      ensures this.modelData == modelData
      ensures Snapshot() == Start(old(modelData.Record())) && Valid()
    {
      this.modelData := modelData;
      isVehicleOnline := false;
      isFetchVehicleInProgress := false;
      timerHeld := false;
      liveTimers := 0;
      pendingRestarts := 0;
      pendingTripFetches := multiset{};
      completedVehicleFetches := 0;
      outbox := [];
    }

    method HandleCreateVehicle(vehicleID: string)
      requires Valid()
      modifies modelData
      ensures Snapshot() == VehicleCreated(old(Snapshot()), vehicleID) && Valid()
    {
      modelData.vehicleID := Some(vehicleID);
    }

    method VehicleReporterDidSucceed(isOnline: bool)
      requires Valid()
      modifies this
      ensures Snapshot() == VehicleUpdateSucceeded(old(Snapshot()), isOnline) && Valid()
    {
      if isOnline && !isVehicleOnline {
        isVehicleOnline := true;
        PollFetchVehicle();
      }
    }

    method PollFetchVehicle()
      modifies this
      ensures Snapshot() == WithNewPollTimer(old(Snapshot()))
    {
      timerHeld := true;
      liveTimers := liveTimers + 1;
    }

    method InvalidateTimer()
      requires timerHeld ==> liveTimers > 0
      modifies this
      ensures Snapshot() == WithoutPollTimer(old(Snapshot()))
    {
      if timerHeld {
        liveTimers := liveTimers - 1;
      }
      timerHeld := false;
    }

    method Send(call: Call)
      modifies this
      ensures Snapshot() == Sent(old(Snapshot()), call)
    {
      outbox := outbox + [call];
    }

    /** A tick of a live poll timer. */
    method FetchVehicle()
      requires Valid() && liveTimers > 0
      modifies this
      ensures Snapshot() == PollTick(old(Snapshot())) && Valid()
    {
      if modelData.vehicleID.None? {
        return;
      }
      if isFetchVehicleInProgress {
        return;
      }
      if modelData.tripID.Some? && modelData.nextTripID.Some? {
        InvalidateTimer();
        return;
      }
      isFetchVehicleInProgress := true;
      Send(GetVehicleCall(modelData.vehicleID.value));
    }

    /** The outstanding getVehicle call completes with `reply`. */
    method OnGetVehicleReply(reply: Reply)
      requires Valid() && isFetchVehicleInProgress
      modifies this, modelData
      ensures Snapshot() == VehicleFetched(old(Snapshot()), reply) && Valid()
    {
      isFetchVehicleInProgress := false;
      completedVehicleFetches := completedVehicleFetches + 1;
      var result := P.GetVehicleResult(reply);
      if result.Ok? {
        HandleFetchVehicle(result.value);
      }
    }

    method HandleFetchVehicle(matchedTripIDs: seq<string>)
      requires Valid()
      modifies this, modelData
      ensures Snapshot() == TripsMatched(old(Snapshot()), matchedTripIDs) && Valid()
    {
      if matchedTripIDs == [] {
        return;
      }
      InvalidateTimer();
      if modelData.tripID.None? {
        modelData.driverState := New;
        modelData.tripID := Some(matchedTripIDs[0]);
        HandleNewTrip();
      }
      if |matchedTripIDs| >= 2 {
        modelData.nextTripID := Some(matchedTripIDs[1]);
      }
    }

    method HandleNewTrip()
      modifies this
      ensures Snapshot() == TripDetailsRequested(old(Snapshot()))
    {
      if modelData.tripID.None? {
        return;
      }
      var tripID := modelData.tripID.value;
      pendingTripFetches := pendingTripFetches + multiset{tripID};
      Send(GetTripCall(tripID));
    }

    /** The getTrip call made for `tripID` completes with `reply`. */
    method OnGetTripReply(tripID: string, reply: Reply)
      requires Valid() && tripID in pendingTripFetches
      modifies this, modelData
      ensures Snapshot() == TripFetched(old(Snapshot()), tripID, reply) && Valid()
    {
      pendingTripFetches := pendingTripFetches - multiset{tripID};
      var result := P.GetTripResult(reply, tripID);
      if result.Ok? {
        modelData.waypoints := Some(result.value.1);
        modelData.intermediateDestinationIndex := 0;
      }
    }

    method UpdateTrip(status: P.ProviderTripStatus, index: Option<int>)
      modifies this
      ensures Snapshot() == TripUpdateSent(old(Snapshot()), status, index)
    {
      if modelData.tripID.None? {
        return;
      }
      Send(UpdateTripCall(modelData.tripID.value, status, index));
    }

    method DidTapControlPanelButton()
      requires Valid()
      modifies this, modelData
      ensures Snapshot() == Tap(old(Snapshot())) && Valid()
    {
      if modelData.isEnrouteToWaypoint {
        UpdateTripStatusToArrivedAtWaypoint();
      } else {
        UpdateTripStatusToEnrouteToWaypoint();
      }
    }

    method UpdateTripStatusToArrivedAtWaypoint()
      requires Valid()
      modifies this, modelData
      ensures Snapshot() == Arrive(old(Snapshot())) && Valid()
    {
      if modelData.waypoints.None? || |modelData.waypoints.value| == 0 {
        return;
      }
      var waypoint := modelData.waypoints.value[0];
      modelData.isEnrouteToWaypoint := false;
      modelData.waypoints := Some(modelData.waypoints.value[1..]);
      match waypoint.waypointType {
        case PickUp => ArriveAtPickup();
        case IntermediateDestination => ArriveAtIntermediateDestination();
        case DropOff => ArriveAtDropoff();
        case Unknown =>
      }
    }

    method ArriveAtPickup()
      requires Valid()
      modifies this, modelData
      ensures Snapshot() == ArrivedAtPickupStep(old(Snapshot())) && Valid()
    {
      modelData.driverState := ArrivedAtPickup;
      UpdateTrip(P.ArrivedAtPickup, None);
    }

    method ArriveAtIntermediateDestination()
      requires Valid()
      modifies this, modelData
      ensures Snapshot() == ArrivedAtStopStep(old(Snapshot())) && Valid()
    {
      modelData.driverState := ArrivedAtIntermediateDestination;
      UpdateTrip(P.ArrivedAtIntermediateDestination, None);
      modelData.intermediateDestinationIndex := modelData.intermediateDestinationIndex + 1;
    }

    method ArriveAtDropoff()
      requires Valid()
      modifies this, modelData
      ensures Snapshot() == ArrivedAtDropoffStep(old(Snapshot())) && Valid()
    {
      if modelData.nextTripID.Some? {
        SwitchToNextTrip();
      } else {
        CompleteTrip();
      }
    }

    method SwitchToNextTrip()
      requires Valid() && modelData.nextTripID.Some?
      modifies this, modelData
      ensures Snapshot() == NextTripPromoted(old(Snapshot())) && Valid()
    {
      modelData.driverState := New;
      modelData.tripID := modelData.nextTripID;
      modelData.nextTripID := None;
      UpdateTrip(P.Complete, None);
      HandleNewTrip();
    }

    method CompleteTrip()
      requires Valid()
      modifies this, modelData
      ensures Snapshot() == TripCompleted(old(Snapshot())) && Valid()
    {
      modelData.driverState := TripComplete;
      pendingRestarts := pendingRestarts + 1;
      ghost var s := old(Snapshot());
      assert Snapshot() == s.(model := s.model.(driverState := TripComplete), pendingRestarts := s.pendingRestarts + 1);
      UpdateTrip(P.Complete, None);
    }

    method UpdateTripStatusToEnrouteToWaypoint()
      requires Valid()
      modifies this, modelData
      ensures Snapshot() == Enroute(old(Snapshot())) && Valid()
    {
      if modelData.waypoints.None? || |modelData.waypoints.value| == 0 {
        return;
      }
      var waypoint := modelData.waypoints.value[0];
      modelData.isEnrouteToWaypoint := true;
      match waypoint.waypointType {
        case PickUp =>
          modelData.driverState := EnrouteToPickup;
          UpdateTrip(P.EnrouteToPickup, None);
        case IntermediateDestination =>
          modelData.driverState := EnrouteToIntermediateDestination;
          UpdateTrip(P.EnrouteToIntermediateDestination, Some(modelData.intermediateDestinationIndex));
        case DropOff =>
          modelData.driverState := EnrouteToDropoff;
          UpdateTrip(P.EnrouteToDropoff, None);
          PollFetchVehicle();
        case Unknown =>
      }
    }

    /** The delayed `startPollingForTrip` fires. */
    method StartPollingForTrip()
      requires Valid() && pendingRestarts > 0
      modifies this, modelData
      ensures Snapshot() == DelayedRestart(old(Snapshot())) && Valid()
    {
      pendingRestarts := pendingRestarts - 1;
      modelData.driverState := Idle;
      modelData.tripID := None;
      modelData.nextTripID := None;
      PollFetchVehicle();
    }
  }
}
