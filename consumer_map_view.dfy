/**
 * The consumer app's map view controller and journey-sharing view as
 * objects that update the shared `ModelData` in place. Every handler is
 * specified by the transition it performs on the snapshot of the state
 * (`ConsumerFlow`), where the properties of the flow are proved.
 */
module ConsumerMapView {
  import opened Wire
  import opened SdkTypes
  import opened ConsumerModel
  import opened ConsumerFlow
  import C = ConsumerProviderService
  import L = LocationSelectionService

  class MapViewController {
    const modelData: ModelData
    var tripName: string
    var hasJourneySharingSession: bool
    var subscriptions: set<string>
    var locationSelectionPickupPoint: TerminalLocation
    var pendingCreates: nat
    var pendingCancels: nat
    var pendingLookups: nat
    var pendingCompleteResets: nat
    var outbox: seq<Call>

    /** The model data and the controller's fields as one value. */
    function Snapshot(): Session
      reads this, modelData
    {
      Session(modelData.Record(), tripName, hasJourneySharingSession, subscriptions, locationSelectionPickupPoint,
        pendingCreates, pendingCancels, pendingLookups, pendingCompleteResets, outbox)
    }

    constructor(modelData: ModelData)
      ensures this.modelData == modelData
      ensures Snapshot() == Start(modelData.Record())
    {
      this.modelData := modelData;
      tripName := "";
      hasJourneySharingSession := false;
      subscriptions := {};
      locationSelectionPickupPoint := UnsetLocation;
      pendingCreates, pendingCancels, pendingLookups, pendingCompleteResets := 0, 0, 0, 0;
      outbox := [];
    }

    method SetPickupLocation(target: LatLng)
      modifies modelData
      ensures Snapshot() == PickupLocationSet(old(Snapshot()), target)
    {
      modelData.pickupLocation := TerminalLocation(Some(target));
    }

    method SetDropoffLocation(target: LatLng)
      modifies modelData
      ensures Snapshot() == DropoffLocationSet(old(Snapshot()), target)
    {
      modelData.dropoffLocation := TerminalLocation(Some(target));
    }

    method ResetPanelView()
      modifies modelData
      ensures Snapshot() == PanelReset(old(Snapshot()))
    {
      modelData.timeToWaypoint := 0.0;
      modelData.remainingDistanceInMeters := 0.0;
      modelData.tripID := "";
      modelData.vehicleID := "";
      modelData.tripInfoLabel := RequestRideText;
      modelData.controlButtonLabel := RequestRideText;
    }

    method BookTrip()
      modifies this
      ensures Snapshot() == BookTripSent(old(Snapshot()))
    {
      outbox := outbox + [CreateTripCall(modelData.pickupLocation, modelData.dropoffLocation, modelData.intermediateDestinations)];
      pendingCreates := pendingCreates + 1;
    }

    method CancelTrip()
      modifies this
      ensures Snapshot() == CancelTripSent(old(Snapshot()))
    {
      outbox := outbox + [CancelTripCall(modelData.tripID)];
      pendingCancels := pendingCancels + 1;
    }

    method SetActiveTrip(tripName: string, tripModelFound: bool)
      modifies this, modelData
      ensures Snapshot() == ActiveTripSet(old(Snapshot()), tripName, tripModelFound)
    {
      modelData.customerState := JourneySharing;
      this.tripName := tripName;
      if tripModelFound {
        subscriptions := subscriptions + {tripName};
        hasJourneySharingSession := true;
      }
    }

    /** The createTrip call's completion. */
    method OnCreateTripReply(reply: Reply, tripModelFound: bool)
      requires pendingCreates > 0
      modifies this, modelData
      ensures Snapshot() == TripCreated(old(Snapshot()), reply, tripModelFound)
    {
      pendingCreates := pendingCreates - 1;
      match C.CreateTripResult(reply)
      case Err(_) =>
      case Ok(name) =>
        modelData.customerState := Booking;
        SetActiveTrip(name, tripModelFound);
    }

    /** Back to `initial`, resetting the panel only when a session exists. */
    method ReturnToInitial()
      modifies this, modelData
      ensures Snapshot() == Returned(old(Snapshot()))
    {
      subscriptions := subscriptions - {tripName};
      modelData.customerState := Initial;
      if hasJourneySharingSession {
        ResetPanelView();
      }
    }

    /** The cancelTrip call's completion. */
    method OnCancelTripReply(reply: Reply)
      requires pendingCancels > 0
      modifies this, modelData
      ensures Snapshot() == TripCancelled(old(Snapshot()), reply)
    {
      pendingCancels := pendingCancels - 1;
      if reply.Received? {
        ReturnToInitial();
      }
    }

    method UpdateTripInfo(current: CurrentTrip)
      modifies modelData
      ensures Snapshot() == TripInfoUpdated(old(Snapshot()), current)
    {
      if hasJourneySharingSession {
        modelData.vehicleID := if current.vehicleID.Some? then current.vehicleID.value else "";
        if current.tripID.Some? {
          modelData.tripID := current.tripID.value;
        }
      }
    }

    /** `tripModel(_:didUpdate:)` for a trip status, called by the model of trip `sender`. */
    method TripModelDidUpdateStatus(sender: string, status: TripStatus, current: CurrentTrip)
      requires sender in subscriptions
      modifies this, modelData
      ensures Snapshot() == StatusUpdated(old(Snapshot()), sender, status, current)
    {
      match status
      case StatusNew =>
        modelData.tripInfoLabel := StatusTitle(status).value;
        modelData.controlButtonLabel := CancelTripText;
        UpdateTripInfo(current);
      case StatusComplete =>
        modelData.tripInfoLabel := TripCompleteTitleText;
        UpdateTripInfo(current);
        modelData.controlButtonLabel := "";
        pendingCompleteResets := pendingCompleteResets + 1;
      case StatusCanceled =>
      case StatusUnknown =>
      case _ =>
        modelData.tripInfoLabel := StatusTitle(status).value;
        UpdateTripInfo(current);
    }

    /** The delayed block scheduled by COMPLETE. */
    method OnCompleteDelayElapsed()
      requires pendingCompleteResets > 0
      modifies this, modelData
      ensures Snapshot() == CompleteResetFired(old(Snapshot()))
    {
      pendingCompleteResets := pendingCompleteResets - 1;
      ReturnToInitial();
    }

    /** `tripModel(_:didUpdateRemaining:)`, with the trip model's current trip ID. */
    /** `tripModel(_:didUpdate:)` for a session state: `inactive` unregisters from the sender. */
    method TripModelDidUpdateSessionState(sender: string, state: TripModelState)
      modifies this
      ensures Snapshot() == SessionStateUpdated(old(Snapshot()), sender, state)
    {
      if state.Inactive? {
        subscriptions := subscriptions - {sender};
      }
    }

    method TripModelDidUpdateRemaining(currentTripID: Option<string>, remaining: Option<seq<TripWaypoint>>)
      modifies modelData
      ensures Snapshot() == RemainingWaypointsUpdated(old(Snapshot()), currentTripID, remaining)
    {
      if remaining.None? || |remaining.value| == 0 {
        return;
      }
      var first := remaining.value[0];
      if currentTripID != Some(first.tripID) {
        if first.location.point.None? {
          return;
        }
        modelData.tripInfoLabel := CompleteLastTripTitleText;
      }
    }

    /** `mapView(_:idleAt:)` */
    method MapViewIdleAt(target: LatLng)
      modifies modelData
      ensures Snapshot() == CameraIdle(old(Snapshot()), target)
    {
      match modelData.customerState
      case SelectingPickup => SetPickupLocation(target);
      case SelectingDropoff => SetDropoffLocation(target);
      case _ =>
    }

    /** `consumerStateUpdate`, with the notification's object and the camera's current target. */
    method ConsumerStateUpdate(objectType: Option<string>, cameraTarget: LatLng)
      modifies this, modelData
      ensures Snapshot() == ConsumerStateUpdated(old(Snapshot()), objectType, cameraTarget)
    {
      if objectType.None? {
        return;
      }
      var kind := objectType.value;
      if kind == SelectPickupNotification {
        SetPickupLocation(cameraTarget);
      } else if kind == SelectDropoffNotification {
        if modelData.pickupLocation.point.None? {
          return;
        }
        SetDropoffLocation(cameraTarget);
      } else if kind == BookTripNotification {
        BookTrip();
      } else if kind == CancelTripNotification {
        CancelTrip();
      }
    }

    method StartLocationSelection(pickupLocation: TerminalLocation)
      modifies this
      ensures Snapshot() == LocationSelectionStarted(old(Snapshot()), pickupLocation)
    {
      outbox := outbox + [PickupPointCall(pickupLocation)];
      pendingLookups := pendingLookups + 1;
    }

    /**
     * The pickup-point lookup's completion. `formattedDistance` is the
     * walking distance as formatted with two decimals.
     */
    method OnPickupPointReply(reply: Reply, formattedDistance: string, cameraTarget: LatLng)
      requires pendingLookups > 0
      modifies this, modelData
      ensures Snapshot() == PickupPointReplied(old(Snapshot()), reply, formattedDistance, cameraTarget)
    {
      pendingLookups := pendingLookups - 1;
      match L.GetPickupPointResult(reply)
      case Ok(point) =>
        locationSelectionPickupPoint := TerminalLocation(Some(point.latLng));
        modelData.locationSelectionWalkingDistance := point.walkingDistance;
        ShowLocationSelectionPickupPointInMapView();
        GetLocationSelectionPickupPointSucceeded(formattedDistance);
      case Err(error) =>
        if !error.Transport? {
          GetLocationSelectionPickupPointFailed(cameraTarget);
        }
    }

    method ShowLocationSelectionPickupPointInMapView()
      modifies modelData
      ensures Snapshot() == old(Snapshot()).(model := old(Snapshot()).model.(
        pickupLocation := TerminalLocation(locationSelectionPickupPoint.point)))
    {
      modelData.pickupLocation := TerminalLocation(locationSelectionPickupPoint.point);
    }

    method GetLocationSelectionPickupPointSucceeded(formattedDistance: string)
      modifies modelData
      ensures Snapshot() == old(Snapshot()).(model := old(Snapshot()).model.(
        customerState := ConfirmingLocationSelectionPickupPoint,
        controlButtonLabel := ConfirmPickupPointText,
        staticLabel := LocationSelectionStaticText,
        tripInfoLabel := WalkingDistanceText(formattedDistance)))
    {
      modelData.customerState := ConfirmingLocationSelectionPickupPoint;
      modelData.controlButtonLabel := ConfirmPickupPointText;
      modelData.staticLabel := LocationSelectionStaticText;
      modelData.tripInfoLabel := WalkingDistanceTextHead + formattedDistance + WalkingDistanceTextTail;
    }

    method GetLocationSelectionPickupPointFailed(cameraTarget: LatLng)
      modifies this, modelData
      ensures Snapshot() == PickupPointNotFound(old(Snapshot()), cameraTarget)
    {
      modelData.customerState := SelectingPickup;
      modelData.controlButtonLabel := ConfirmPickupText;
      modelData.staticLabel := LocationSelectionFailedStaticText;
      modelData.tripInfoLabel := "";
      ConsumerStateUpdate(Some(SelectPickupNotification), cameraTarget);
    }
  }

  /**
   * The journey-sharing view: the control panel's button and the
   * add-stop button. Its notifications reach `controller`, whose model
   * data is the view's environment object.
   */
  class JourneySharingView {
    const controller: MapViewController

    constructor(controller: MapViewController)
      ensures this.controller == controller
    {
      this.controller := controller;
    }

    /** `tapButtonAction`, with the camera's target at the moment of the tap. */
    method TapButtonAction(cameraTarget: LatLng)
      modifies controller, controller.modelData
      ensures controller.Snapshot() == TapButton(old(controller.Snapshot()), cameraTarget)
    {
      match controller.modelData.customerState
      case Initial => StartPickupSelection(cameraTarget);
      case SelectingPickup => StartDropoffSelection(cameraTarget);
      case SelectingDropoff => StartTripPreview();
      case TripPreview => controller.ConsumerStateUpdate(Some(BookTripNotification), cameraTarget);
      case Booking =>
      case JourneySharing => controller.ConsumerStateUpdate(Some(CancelTripNotification), cameraTarget);
      case _ =>
    }

    /** `tapAddIntermediateDestinationAction`, offered only while choosing the drop-off. */
    method TapAddIntermediateDestinationAction()
      requires controller.modelData.customerState == SelectingDropoff
      modifies controller.modelData
      ensures controller.Snapshot() == IntermediateDestinationAdded(old(controller.Snapshot()))
    {
      var modelData := controller.modelData;
      modelData.intermediateDestinations := modelData.intermediateDestinations + [modelData.dropoffLocation];
    }

    method StartPickupSelection(cameraTarget: LatLng)
      modifies controller, controller.modelData
      ensures controller.Snapshot() == PickupSelectionStarted(old(controller.Snapshot()), cameraTarget)
    {
      var modelData := controller.modelData;
      modelData.controlButtonLabel := ConfirmPickupText;
      modelData.staticLabel := UserSelectLocationStaticText;
      modelData.tripInfoLabel := SelectPickupLocationText;
      modelData.customerState := SelectingPickup;
      controller.ConsumerStateUpdate(Some(SelectPickupNotification), cameraTarget);
    }

    method StartDropoffSelection(cameraTarget: LatLng)
      modifies controller, controller.modelData
      ensures controller.Snapshot() == DropoffSelectionStarted(old(controller.Snapshot()), cameraTarget)
    {
      var modelData := controller.modelData;
      modelData.controlButtonLabel := ConfirmDropoffText;
      modelData.tripInfoLabel := SelectDropoffLocationText;
      modelData.staticLabel := UserSelectLocationStaticText;
      modelData.customerState := SelectingDropoff;
      modelData.intermediateDestinations := [];
      controller.ConsumerStateUpdate(Some(SelectDropoffNotification), cameraTarget);
    }

    method StartTripPreview()
      modifies controller.modelData
      ensures controller.Snapshot() == TripPreviewStarted(old(controller.Snapshot()))
    {
      var modelData := controller.modelData;
      modelData.staticLabel := "";
      modelData.controlButtonLabel := ConfirmTripText;
      modelData.customerState := TripPreview;
      modelData.tripInfoLabel := "";
      modelData.customerState := TripPreview;
    }
  }
}
