# On-demand rides and deliveries samples: a Dafny model

This project models the core logic of the iOS sample apps for Google's On-demand Rides and Deliveries solution. There are two SwiftUI apps that talk to a sample provider backend:

- The **driver app** creates a vehicle on the provider and polls it for matched trips. It loads each trip's waypoints and drives through them one control-panel tap at a time. Every step it takes is reported to the provider as a trip status update. A second, back-to-back trip can be queued behind the current one.
- The **consumer app** lets a customer pick a pickup and a drop-off on the map, with optional intermediate stops. The customer then books and follows the trip, or cancels it. A pickup can be snapped to the nearest pickup point found by the Location Selection service.

Both apps fetch short-lived authorization tokens from the provider and keep the last token they received.

The model is organised by source file:

- `wire.dfy` covers JSON values, URLs, requests and replies. A reply is either a transport failure or a received body.
- `sdk_types.dfy` holds the SDK values the apps exchange: coordinates, terminal locations, waypoints and trip statuses.
- Four files model the provider and Location Selection clients, as pure request builders and response decoders:
  - `provider_utils.dfy`
  - `driver_provider_service.dfy`
  - `consumer_provider_service.dfy`
  - `location_selection_service.dfy`
- `auth_token.dfy` holds the token cache logic the two apps share. `driver_auth_token_provider.dfy` and `consumer_auth_token_provider.dfy` hold each app's provider object, which keeps the cached token as a field.
- `driver_model_data.dfy` and `consumer_model_data.dfy` hold each app's observable model data as a class.
- The driver's map view controller is `driver_map_view.dfy`. It is a pure state machine over a snapshot of the model data and the controller's fields, plus a class whose handlers are each proved to perform one transition of that machine.
- The driver's control panel texts are in `driver_control_panel.dfy`. The launch-time API constant check and its regular expressions are in `driver_app_config.dfy`.
- The consumer's flow is in `consumer_flow.dfy`: the map view controller, its Location Selection extension and the journey-sharing view. It is a pure state machine, and `consumer_map_view.dfy` holds the two classes that perform its transitions in place.

The provider calls each controller makes are recorded in an outbox, in order. Their completions arrive as separate events, and so do timer ticks and delayed tasks.

## Model

| member | source | states |
|---|---|---|
| Wire.BodyObject | swift/driver_swiftui/App/Services/ProviderService.swift:94-98 | A reply body is usable as a dictionary exactly when it is a JSON object, and the dictionary is that object's fields |
| Wire.JsonRequest | swift/driver_swiftui/App/Services/ProviderService.swift:197-207 | A JSON request has the given method and URL, exactly one header (Content-Type: application/json), and the payload as its body |
| SdkTypes.ReadLatLng | swift/driver_swiftui/App/Services/ProviderService.swift:168-169 | A coordinate is read exactly when both the latitude and the longitude fields are numbers, and it carries those two numbers |
| ProviderUtils.ProviderURL | swift/consumer_swiftui/App/Utils/ProviderUtils.swift:23-28 | Provider URLs use the provider's scheme, host and port, and the path is the given path made absolute |
| ProviderUtils.FormattedParameterOfTerminalLocation | swift/consumer_swiftui/App/Utils/ProviderUtils.swift:31-44 | The parameter has exactly the latitude and longitude keys; an unset location becomes (0, 0), and a set one keeps its coordinates |
| ProviderUtils.FormattedParameterOfArrayOfTerminalLocations | swift/consumer_swiftui/App/Utils/ProviderUtils.swift:47-51 | One parameter per location, in order, each the single-location formatting of the same element |
| ProviderUtils.FormattedLocationReadsBack | swift/consumer_swiftui/App/Utils/ProviderUtils.swift:31-44 | Reading a formatted location back gives its point, or (0, 0) when it is unset |
| ProviderUtils.FormattedLocationsReadBack | swift/consumer_swiftui/App/Utils/ProviderUtils.swift:47-51 | Every element of a formatted location array reads back as the location at the same index |
| DriverProviderService.FromRawValue | swift/driver_swiftui/App/Services/ProviderService.swift:57-65 | Parsing a status string gives a status whose raw value is that string, and fails only when no status has that raw value |
| DriverProviderService.RawValueRoundTrip | swift/driver_swiftui/App/Services/ProviderService.swift:57-65 | Parsing a status's raw value gives back that status |
| DriverProviderService.CanceledIsNotAProviderTripStatus | swift/driver_swiftui/App/Services/ProviderService.swift:57-65 | "CANCELED" is not among the statuses the driver reports |
| DriverProviderService.CreateVehicleRequest | swift/driver_swiftui/App/Services/ProviderService.swift:83-92 | POST to /vehicle/new with a JSON body holding exactly the vehicle ID and the back-to-back flag |
| DriverProviderService.Components | swift/driver_swiftui/App/Services/ProviderService.swift:102 | Splitting a string always yields at least one part |
| DriverProviderService.ComponentsJoin | swift/driver_swiftui/App/Services/ProviderService.swift:102 | The split parts contain no separator and join back to the original string |
| DriverProviderService.LastComponentIsSuffix | swift/driver_swiftui/App/Services/ProviderService.swift:100-106 | The last component is a separator-free suffix of the name, and is preceded by a separator whenever it is not the whole name |
| DriverProviderService.CreateVehicleResult | swift/driver_swiftui/App/Services/ProviderService.swift:93-106 | A transport failure is passed on; a body without a string `name` is missing data; otherwise the vehicle ID is the last `/`-separated component of the name |
| DriverProviderService.CreateVehicleStripsQualifier | swift/driver_swiftui/App/Services/ProviderService.swift:100-106 | "providers/test-provider/vehicles/test-vehicle" yields the vehicle ID "test-vehicle" |
| DriverProviderService.InvalidVehicleNameUnreachable | swift/driver_swiftui/App/Services/ProviderService.swift:102-104 | The invalid-vehicle-name error is never produced. The source's guard on the last component cannot fail, because `Components` always returns at least one part (its `|parts| >= 1`). So `CreateVehicleResult` has no branch for that error, and this lemma records the consequence |
| DriverProviderService.CreateVehicleRejectsEmptyObject | swift/driver_swiftui/App/Services/ProviderService.swift:94-98 | An empty JSON object is missing data |
| DriverProviderService.GetVehicleURL | swift/driver_swiftui/App/Services/ProviderService.swift:209-212 | `http://localhost:8080` (scheme, host and port) with the vehicle path followed by the vehicle ID |
| DriverProviderService.GetVehicleRequest | swift/driver_swiftui/App/Services/ProviderService.swift:110-114 | A GET without a body to the vehicle's URL |
| DriverProviderService.GetVehicleResult | swift/driver_swiftui/App/Services/ProviderService.swift:110-122 | Succeeds exactly when `currentTripsIds` is an array of strings, and returns those strings in order; otherwise missing data, or the transport failure |
| DriverProviderService.GetVehicleReturnsSentTripIDs | swift/driver_swiftui/App/Services/ProviderService.swift:116-121 | A body listing some trip IDs decodes to exactly those IDs |
| DriverProviderService.GetTripURL | swift/driver_swiftui/App/Services/ProviderService.swift:214-217 | `http://localhost:8080` (scheme, host and port) with the trip path followed by the trip ID |
| DriverProviderService.GetTripRequest | swift/driver_swiftui/App/Services/ProviderService.swift:125-129 | A GET without a body to the trip's URL |
| DriverProviderService.WaypointTypeFromWire | swift/driver_swiftui/App/Services/ProviderService.swift:180-190 | Known wire names map to the type with that name, and every other string maps to unknown |
| DriverProviderService.WaypointTypeRoundTrip | swift/driver_swiftui/App/Services/ProviderService.swift:180-190 | Every known waypoint type survives a trip through its wire name |
| DriverProviderService.MakeWaypoint | swift/driver_swiftui/App/Services/ProviderService.swift:163-195 | A waypoint is built exactly when the location object holds a readable point and the type is a string; it carries that point, the parsed type and the trip ID |
| DriverProviderService.MakeWaypoints | swift/driver_swiftui/App/Services/ProviderService.swift:136-137 | Succeeds exactly when every element converts, and yields the converted elements in order |
| DriverProviderService.GetTripResult | swift/driver_swiftui/App/Services/ProviderService.swift:125-142 | Succeeds exactly when the trip status parses and every waypoint converts, giving the status and the waypoints in order; otherwise missing data, or the transport failure |
| DriverProviderService.GetTripFailsOnOneBadWaypoint | swift/driver_swiftui/App/Services/ProviderService.swift:136-140 | One waypoint without a location makes the whole trip fail with missing data |
| DriverProviderService.UpdateTripURL | swift/driver_swiftui/App/Services/ProviderService.swift:219-222 | `http://localhost:8080` (scheme, host and port) with the trip path followed by the trip ID |
| DriverProviderService.UpdateTripRequest | swift/driver_swiftui/App/Services/ProviderService.swift:145-157 | A PUT to the trip URL whose status field parses back to the given status; it has an index field exactly when an index is given, holding that index |
| DriverProviderService.UpdateTripResult | swift/driver_swiftui/App/Services/ProviderService.swift:159 | Succeeds exactly when a reply was received, whatever its body |
| ConsumerProviderService.CreateTripPayload | swift/consumer_swiftui/App/Services/ProviderService.swift:66-77 | Exactly the pickup, drop-off and intermediate-destinations keys, one formatted entry per intermediate destination |
| ConsumerProviderService.CreateTripRequest | swift/consumer_swiftui/App/Services/ProviderService.swift:65-80 | A JSON POST to /trip/new carrying the create-trip payload |
| ConsumerProviderService.CreateTripPayloadReadsBack | swift/consumer_swiftui/App/Services/ProviderService.swift:66-77 | The pickup, the drop-off and every intermediate destination read back from the payload as the points sent ((0, 0) when unset) |
| ConsumerProviderService.CreateTripResult | swift/consumer_swiftui/App/Services/ProviderService.swift:81-88 | Succeeds exactly when the body is an object with a string `name`, returning that name; otherwise missing data, or the transport failure |
| ConsumerProviderService.CreateTripFailsOnEmptyBody | swift/consumer_swiftui/App/Services/ProviderService.swift:82-87 | A reply without data is missing data |
| ConsumerProviderService.CancelTripURL | swift/consumer_swiftui/App/Services/ProviderService.swift:115-118 | `http://localhost:8080` (scheme, host and port) with the trip path followed by the trip ID |
| ConsumerProviderService.CancelTripRequest | swift/consumer_swiftui/App/Services/ProviderService.swift:92-101 | A JSON PUT to the trip URL whose body is exactly the status CANCELED |
| ConsumerProviderService.CancelTripResult | swift/consumer_swiftui/App/Services/ProviderService.swift:102 | Succeeds exactly when a reply was received |
| LocationSelectionService.SearchLocationObject | swift/consumer_swiftui/App/Services/LocationSelectionService.swift:90-96 | Empty for an unset location; otherwise it reads back as the location's point |
| LocationSelectionService.PickupPointPayload | swift/consumer_swiftui/App/Services/LocationSelectionService.swift:97-108 | Exactly six keys: the search location, at most one result, ordering by walking ETA, walking travel mode, walking ETA computed, and localization preferences of language en-US and region US |
| LocationSelectionService.PickupPointRequest | swift/consumer_swiftui/App/Services/LocationSelectionService.swift:136-151 | A POST to the Location Selection endpoint with the JSON content type, the API key header and the payload |
| LocationSelectionService.ParseResponse | swift/consumer_swiftui/App/Services/LocationSelectionService.swift:55-69 | A pickup point is parsed exactly when `HasPickupPoint` holds: the results array is non-empty and its first entry's pickup point has a numeric latitude and longitude and a numeric walking distance. The parsed point carries those values |
| LocationSelectionService.OnlyFirstResultMatters | swift/consumer_swiftui/App/Services/LocationSelectionService.swift:57 | Results after the first do not change what is parsed |
| LocationSelectionService.ParseWellFormedResponse | swift/consumer_swiftui/App/Services/LocationSelectionService.swift:55-69 | A well-formed response parses to its coordinates and walking distance |
| LocationSelectionService.GetPickupPointResult | swift/consumer_swiftui/App/Services/LocationSelectionService.swift:113-125 | A transport failure is passed on; no object body means missing response data; an unparsable one means missing expected fields; otherwise the parsed point |
| LocationSelectionService.GetPickupPointErrorCases | swift/consumer_swiftui/App/Services/LocationSelectionService.swift:114-124 | A reply without data and one with an unexpected key give the two different errors |
| AuthTokenCore.TokenRequest | swift/driver_swiftui/App/Services/AuthTokenProvider.swift:58-64 | A bodiless GET to the token path followed by the subject ID |
| AuthTokenCore.Fetch | swift/driver_swiftui/App/Services/AuthTokenProvider.swift:44-65 | Without a context, a missing-context error. A cached token for the same subject that has not expired is returned without a request. Otherwise a request is made for the context's ID |
| AuthTokenCore.DecodeTokenBody | swift/driver_swiftui/App/Services/AuthTokenProvider.swift:71-78 | Decodes exactly when the body has a string token and an integer expiration, returning both |
| AuthTokenCore.ExpirationSeconds | swift/driver_swiftui/App/Services/AuthTokenProvider.swift:82 | The expiration in seconds is the milliseconds divided by 1000 |
| AuthTokenCore.TokenFromBody | swift/driver_swiftui/App/Services/AuthTokenProvider.swift:80-83 | A token is built exactly when the body decodes; it carries the token, the converted expiration and the subject ID |
| AuthTokenCore.StoredTokenIsReused | swift/driver_swiftui/App/Services/AuthTokenProvider.swift:51-56 | A token built from a response is returned from the cache for the same subject until it expires |
| AuthTokenCore.StaleOrForeignTokenRefetched | swift/driver_swiftui/App/Services/AuthTokenProvider.swift:51-56 | An expired token, or one for another subject, leads to a new request |
| DriverAuthTokenProvider.Respond | swift/driver_swiftui/App/Services/AuthTokenProvider.swift:65-85 | A transport failure is passed on and an undecodable body is missing data, both leaving the cache as it was; a decoded token replaces the cache and its string is returned |
| DriverAuthTokenProvider.FetchAfterResponseUsesCache | swift/driver_swiftui/App/Services/AuthTokenProvider.swift:51-56 | After a successful response, the next fetch for the same vehicle before expiry needs no request |
| DriverAuthTokenProvider.SuccessEvictsOtherVehicle | swift/driver_swiftui/App/Services/AuthTokenProvider.swift:80-83 | A successful response for one vehicle replaces the cache, so a fetch for any other vehicle makes a new request |
| DriverAuthTokenProvider.AuthTokenProvider.constructor | swift/driver_swiftui/App/Services/AuthTokenProvider.swift:38 | No token is cached at first |
| DriverAuthTokenProvider.AuthTokenProvider.FetchToken | swift/driver_swiftui/App/Services/AuthTokenProvider.swift:40-65 | Performs the cache decision on the cached token; a request goes to /token/driver/ followed by the vehicle ID |
| DriverAuthTokenProvider.AuthTokenProvider.OnTokenResponse | swift/driver_swiftui/App/Services/AuthTokenProvider.swift:65-85 | The new cached token and the result are those of the response rule |
| ConsumerAuthTokenProvider.Respond | swift/consumer_swiftui/App/Services/AuthTokenProvider.swift:66-82 | Every failure, transport failures included, is missing data and leaves the cache as it was; a decoded token replaces the cache |
| ConsumerAuthTokenProvider.FetchAfterResponseUsesCache | swift/consumer_swiftui/App/Services/AuthTokenProvider.swift:45-66 | After a successful response, the next fetch for the same trip before expiry needs no request |
| ConsumerAuthTokenProvider.SuccessEvictsOtherTrip | swift/consumer_swiftui/App/Services/AuthTokenProvider.swift:77-80 | A successful response for one trip replaces the cache, so a fetch for any other trip makes a new request |
| ConsumerAuthTokenProvider.AuthTokenProvider.constructor | swift/consumer_swiftui/App/Services/AuthTokenProvider.swift:39 | No token is cached at first |
| ConsumerAuthTokenProvider.AuthTokenProvider.FetchToken | swift/consumer_swiftui/App/Services/AuthTokenProvider.swift:41-66 | Performs the cache decision on the cached token; a request goes to /token/consumer/ followed by the trip ID |
| ConsumerAuthTokenProvider.AuthTokenProvider.OnTokenResponse | swift/consumer_swiftui/App/Services/AuthTokenProvider.swift:66-82 | The new cached token and the result are those of the response rule |
| DriverModel.FirstWaypoint | swift/driver_swiftui/App/Views/ControlPanelView.swift:77 | There is a first waypoint exactly when the waypoint list is present and non-empty, and it is the list's head |
| DriverModel.ModelData.constructor | swift/driver_swiftui/App/Models/ModelData.swift:50-68 | The driver starts idle and not en route, with no vehicle, trip, next trip or waypoints, and index 0 |
| DriverMapView.StartInv | swift/driver_swiftui/App/Views/MapViewController.swift:65-72 | A fresh controller over fresh model data satisfies the session invariant: a next trip only with a current one, no trip while idle, a held timer is live, at most one getVehicle call outstanding |
| DriverMapView.Sent | swift/driver_swiftui/App/Views/MapViewController.swift:346-353 | Sending a call appends it to the outbox and counts one more getVehicle call exactly when it is one |
| DriverMapView.TripUpdateSent | swift/driver_swiftui/App/Views/MapViewController.swift:346-353 | The status update goes to the trip current when its task runs, and is skipped without a trip |
| DriverMapView.TripDetailsRequested | swift/driver_swiftui/App/Views/MapViewController.swift:255-267 | The current trip's details are requested exactly when there is a current trip |
| DriverMapView.VehicleCreated | swift/driver_swiftui/App/Views/MapViewController.swift:177-203 | Only the vehicle ID changes; nothing is sent; the invariant is kept |
| DriverMapView.VehicleUpdateSucceeded | swift/driver_swiftui/App/Views/MapViewController.swift:402-415 | Only the first report of being online starts a poll timer; the model and the outbox are unchanged |
| DriverMapView.PollTick | swift/driver_swiftui/App/Views/MapViewController.swift:211-234 | A tick sends a getVehicle call exactly when there is a vehicle, none is outstanding and not both trips are known. It then sends exactly one and marks it in progress. The held timer is dropped once both trips are known |
| DriverMapView.TripsMatched | swift/driver_swiftui/App/Views/MapViewController.swift:236-253 | An empty match changes nothing. Otherwise polling stops, the first ID becomes the current trip (state new, details requested) only if there was none, and a second ID becomes the next trip |
| DriverMapView.VehicleFetched | swift/driver_swiftui/App/Views/MapViewController.swift:225-233 | The in-progress flag is cleared on success and on failure; a failure changes nothing else, and a success hands the IDs to the matcher |
| DriverMapView.TripFetched | swift/driver_swiftui/App/Views/MapViewController.swift:258-266 | On success the waypoints become the fetched ones in order and the index is reset; on failure the model is unchanged |
| DriverMapView.Enroute | swift/driver_swiftui/App/Views/MapViewController.swift:321-344 | With a first waypoint of known type, the driver is marked en route without removing it, the matching ENROUTE status is reported and the matching state is set; a drop-off also restarts polling |
| DriverMapView.Arrive | swift/driver_swiftui/App/Views/MapViewController.swift:277-319 | With a first waypoint, exactly that waypoint is removed and the en-route flag is cleared, and the arrival step for its type follows |
| DriverMapView.ArrivedAtPickupStep | swift/driver_swiftui/App/Views/MapViewController.swift:288-291 | State arrived-at-pickup, and ARRIVED_AT_PICKUP is reported for the current trip |
| DriverMapView.ArrivedAtStopStep | swift/driver_swiftui/App/Views/MapViewController.swift:292-296 | State arrived-at-intermediate, the index moves on by one, and the arrival is reported without an index |
| DriverMapView.ArrivedAtDropoffStep | swift/driver_swiftui/App/Views/MapViewController.swift:297-315 | With a next trip, that trip is promoted; otherwise the trip completes |
| DriverMapView.NextTripPromoted | swift/driver_swiftui/App/Views/MapViewController.swift:305-309 | The next trip becomes current in state new with no next trip and its details requested; the COMPLETE call goes to it |
| DriverMapView.TripCompleted | swift/driver_swiftui/App/Views/MapViewController.swift:310-314 | State trip-complete, COMPLETE is reported for the current trip, and one delayed restart is scheduled |
| DriverMapView.Tap | swift/driver_swiftui/App/Views/MapViewController.swift:269-275 | A tap arrives when en route and sets off otherwise |
| DriverMapView.DelayedRestart | swift/driver_swiftui/App/Views/MapViewController.swift:355-362 | Back to idle with no current or next trip, and a new poll timer held |
| DriverMapView.SetOffThenArrivePopsFirst | swift/driver_swiftui/App/Views/MapViewController.swift:277-291 | Two taps at a pickup remove exactly the first waypoint and report ENROUTE_TO_PICKUP then ARRIVED_AT_PICKUP for the trip, whether or not a next trip is queued |
| DriverMapView.PassStop | swift/driver_swiftui/App/Views/MapViewController.swift:277-296 | Passing a pickup or intermediate stop removes it, moves the index past an intermediate stop and keeps the trips. It appends exactly the ENROUTE update and then the ARRIVED update for the current trip; only the intermediate ENROUTE carries the index. Nothing is sent without a trip |
| DriverMapView.PassStopIsTwoTaps | swift/driver_swiftui/App/Views/MapViewController.swift:269-296 | Two taps of the control button at a pickup or intermediate stop lead to exactly the `PassStop` state |
| DriverMapView.PassStopKeepsInv | swift/driver_swiftui/App/Views/MapViewController.swift:277-296 | Passing a stop keeps the session invariant |
| DriverMapView.PassStopsKeepInv | swift/driver_swiftui/App/Views/MapViewController.swift:277-296 | Passing any number of stops keeps the session invariant |
| DriverMapView.StopsReported | swift/driver_swiftui/App/Views/MapViewController.swift:321-334 | Passing k stops appends exactly `StopCalls`: for each stop in order, its ENROUTE and ARRIVED updates to the current trip, with the running intermediate index |
| DriverMapView.DriveThroughStops | swift/driver_swiftui/App/Views/MapViewController.swift:321-334 | Passing k stops leaves the remaining waypoints in order, moves the index by the number of intermediate stops passed and keeps the trip. The outbox grows by exactly `StopCalls` of those stops |
| DriverMapView.CompleteGoesToPromotedTrip | swift/driver_swiftui/App/Views/MapViewController.swift:298-309 | Arriving at the drop-off with a queued trip reports COMPLETE for the queued trip, and sends nothing for the trip just dropped off |
| DriverMapView.PollTimerLeaks | swift/driver_swiftui/App/Views/MapViewController.swift:205-209 | Setting off to the drop-off while a poll timer is held schedules a second timer; invalidating the held one leaves a live timer nothing refers to |
| DriverMapView.EmptyPoll | swift/driver_swiftui/App/Views/MapViewController.swift:236-238 | One poll round with no trips sends one getVehicle call and leaves the model and the timer as they were |
| DriverMapView.EmptyPollsChangeNothing | swift/driver_swiftui/App/Views/MapViewController.swift:236-238 | n poll rounds with no trips leave the model and the timer unchanged and send exactly n getVehicle calls |
| DriverMapView.FirstMatch | swift/driver_swiftui/App/Views/MapViewController.swift:177-266 | From launch to the first matched trip: the driver is on that trip in state new, polling has stopped, and one getVehicle and one getTrip call were sent |
| DriverMapView.MapViewController.constructor | swift/driver_swiftui/App/Views/MapViewController.swift:65-72 | The controller starts in the initial session over the given model data |
| DriverMapView.MapViewController.HandleCreateVehicle | swift/driver_swiftui/App/Views/MapViewController.swift:177-203 | Performs the vehicle-created transition |
| DriverMapView.MapViewController.VehicleReporterDidSucceed | swift/driver_swiftui/App/Views/MapViewController.swift:402-415 | Performs the vehicle-update transition |
| DriverMapView.MapViewController.PollFetchVehicle | swift/driver_swiftui/App/Views/MapViewController.swift:205-209 | Schedules and holds a new repeating timer |
| DriverMapView.MapViewController.InvalidateTimer | swift/driver_swiftui/App/Views/MapViewController.swift:241-242 | Drops the held timer and stops it from firing |
| DriverMapView.MapViewController.Send | swift/driver_swiftui/App/Views/MapViewController.swift:346-353 | Appends the call to the outbox |
| DriverMapView.MapViewController.FetchVehicle | swift/driver_swiftui/App/Views/MapViewController.swift:211-224 | Performs the poll-tick transition |
| DriverMapView.MapViewController.OnGetVehicleReply | swift/driver_swiftui/App/Views/MapViewController.swift:225-233 | Performs the vehicle-fetched transition |
| DriverMapView.MapViewController.HandleFetchVehicle | swift/driver_swiftui/App/Views/MapViewController.swift:236-253 | Performs the trips-matched transition |
| DriverMapView.MapViewController.HandleNewTrip | swift/driver_swiftui/App/Views/MapViewController.swift:255-260 | Requests the current trip's details |
| DriverMapView.MapViewController.OnGetTripReply | swift/driver_swiftui/App/Views/MapViewController.swift:258-266 | Performs the trip-fetched transition |
| DriverMapView.MapViewController.UpdateTrip | swift/driver_swiftui/App/Views/MapViewController.swift:346-353 | Sends the status update to the current trip, if any |
| DriverMapView.MapViewController.DidTapControlPanelButton | swift/driver_swiftui/App/Views/MapViewController.swift:269-275 | Performs the tap transition |
| DriverMapView.MapViewController.UpdateTripStatusToArrivedAtWaypoint | swift/driver_swiftui/App/Views/MapViewController.swift:277-319 | Performs the arrival transition |
| DriverMapView.MapViewController.ArriveAtPickup | swift/driver_swiftui/App/Views/MapViewController.swift:288-291 | Performs the pickup arrival step |
| DriverMapView.MapViewController.ArriveAtIntermediateDestination | swift/driver_swiftui/App/Views/MapViewController.swift:292-296 | Performs the intermediate-stop arrival step |
| DriverMapView.MapViewController.ArriveAtDropoff | swift/driver_swiftui/App/Views/MapViewController.swift:297-315 | Performs the drop-off arrival step |
| DriverMapView.MapViewController.SwitchToNextTrip | swift/driver_swiftui/App/Views/MapViewController.swift:305-309 | Promotes the next trip |
| DriverMapView.MapViewController.CompleteTrip | swift/driver_swiftui/App/Views/MapViewController.swift:310-314 | Completes the trip and schedules the restart |
| DriverMapView.MapViewController.UpdateTripStatusToEnrouteToWaypoint | swift/driver_swiftui/App/Views/MapViewController.swift:321-344 | Performs the set-off transition |
| DriverMapView.MapViewController.StartPollingForTrip | swift/driver_swiftui/App/Views/MapViewController.swift:355-362 | Performs the delayed-restart transition |
| DriverControlPanel.DriverStateText | swift/driver_swiftui/App/Views/ControlPanelView.swift:54-73 | The state label is empty exactly while idle |
| DriverControlPanel.DriverStateTextDistinguishesStates | swift/driver_swiftui/App/Views/ControlPanelView.swift:54-73 | Different driver states show different labels |
| DriverControlPanel.ButtonText | swift/driver_swiftui/App/Views/ControlPanelView.swift:76-101 | The button text is empty exactly when there is no first waypoint or its type is unknown |
| DriverControlPanel.ButtonStatus | swift/driver_swiftui/App/Utils/Strings.swift:69-76 | Only non-empty button texts stand for a reported status |
| DriverControlPanel.PanelFor | swift/driver_swiftui/App/Views/ControlPanelView.swift:23-47 | The panel shows the state label, a trip line exactly when there is a trip, a next-trip line exactly when there is a next trip, and the button exactly while waypoints remain |
| DriverControlPanel.ButtonTextNamesReportedStatus | swift/driver_swiftui/App/Views/ControlPanelView.swift:76-101 | With a trip, a tap reports the status its button text names; with an empty text it sends nothing |
| DriverAppConfig.MapsKeyPatternAccepts | swift/driver_swiftui/App/DriverSampleApp.swift:24-31 | The Maps key pattern matches exactly "AIza" followed by 35 letters, digits, `_` or `-` |
| DriverAppConfig.ProviderIDPatternAccepts | swift/driver_swiftui/App/DriverSampleApp.swift:33-40 | The provider ID pattern matches exactly 6 to 30 characters that start with a lowercase letter, end with a lowercase letter or digit, and are lowercase letters, digits or `-` between |
| DriverAppConfig.ApiConstantsErrorMessage | swift/driver_swiftui/App/DriverSampleApp.swift:23-42 | No message exactly when both constants are well formed; a bad key is reported before a bad provider ID |
| DriverAppConfig.AppScreen | swift/driver_swiftui/App/DriverSampleApp.swift:44-52 | The content view exactly when both constants are well formed; otherwise the error message |
| DriverAppConfig.ShippedConstantsShowKeyMessage | swift/driver_swiftui/App/DriverSampleApp.swift:26-31 | The placeholder constants are both malformed, and the app shows the Maps key message |
| DriverAppConfig.WellFormedConstantsShowContent | swift/driver_swiftui/App/DriverSampleApp.swift:46-50 | Well-formed constants show the content view |
| ConsumerModel.ModelData.constructor | swift/consumer_swiftui/App/Models/ModelData.swift:84-99 | The customer starts initialized, with the request-ride button, empty labels and IDs, unset locations, no stops, and zero time and distance |
| ConsumerFlow.StatusTitle | swift/consumer_swiftui/App/Views/MapViewController.swift:245-268 | A title exactly for the statuses that keep the trip going |
| ConsumerFlow.Start | swift/consumer_swiftui/App/Views/MapViewController.swift:81-91 | A fresh controller over the given model: nothing sent, no session, registered with no trip model |
| ConsumerFlow.PickupLocationSet | swift/consumer_swiftui/App/Views/MapViewController.swift:182-194 | Only the pickup changes, to the given point |
| ConsumerFlow.DropoffLocationSet | swift/consumer_swiftui/App/Views/MapViewController.swift:197-205 | Only the drop-off changes, to the given point |
| ConsumerFlow.PanelReset | swift/consumer_swiftui/App/Views/MapViewController.swift:160-167 | Zero time and distance, empty IDs, and the request-ride texts; state, locations and stops are kept |
| ConsumerFlow.BookTripSent | swift/consumer_swiftui/App/Views/MapViewController.swift:121-128 | Exactly one createTrip call with the model's pickup, drop-off and stops; the model is unchanged |
| ConsumerFlow.CancelTripSent | swift/consumer_swiftui/App/Views/MapViewController.swift:139-143 | Exactly one cancelTrip call for the trip ID the model holds; the model is unchanged |
| ConsumerFlow.ActiveTripSet | swift/consumer_swiftui/App/Views/MapViewController.swift:208-217 | State journey-sharing for the named trip. The named trip is added to the subscriptions, and a session exists, exactly when the SDK has its trip model. Earlier subscriptions are kept |
| ConsumerFlow.TripCreated | swift/consumer_swiftui/App/Views/MapViewController.swift:122-135 | A failure changes nothing; a trip name leads to journey sharing for that trip and, when its model is found, to a subscription to it |
| ConsumerFlow.TripCancelled | swift/consumer_swiftui/App/Views/MapViewController.swift:140-154 | A failure changes nothing; success removes only the current trip name from the subscriptions and returns to initial |
| ConsumerFlow.Returned | swift/consumer_swiftui/App/Views/MapViewController.swift:276-283 | State initial with only the current trip name removed from the subscriptions, and the panel reset only when a session exists |
| ConsumerFlow.TripInfoUpdated | swift/consumer_swiftui/App/Views/MapViewController.swift:219-227 | Only the vehicle ID and the trip ID can change, and without a session nothing changes. With one, the vehicle ID is the current trip's, or "" when it has none; the trip ID becomes the current trip's when it has one and is kept otherwise |
| ConsumerFlow.StatusUpdated | swift/consumer_swiftui/App/Views/MapViewController.swift:245-293 | Needs a subscribed sender. Only the labels, the two IDs and the pending resets can change; the customer state, locations and static text are kept. A trip-keeping status sets its title. COMPLETE shows its title, clears the button and schedules the reset. Both refresh the vehicle and trip IDs as `TripInfoUpdated` does. CANCELED and UNKNOWN change nothing |
| ConsumerFlow.CompleteResetFired | swift/consumer_swiftui/App/Views/MapViewController.swift:274-284 | The delayed reset returns to initial |
| ConsumerFlow.SessionStateUpdated | swift/consumer_swiftui/App/Views/MapViewController.swift:310-313 | Only the subscriptions can change. An `inactive` report removes the sender and keeps every other name; any other state keeps the sender |
| ConsumerFlow.InactiveEarlierBookingUnsubscribes | swift/consumer_swiftui/App/Views/MapViewController.swift:310-313 | After the double booking and cancel of `EarlierBookingStaysSubscribed`, an `inactive` report from the first trip leaves neither booked trip subscribed, and the other subscriptions are as before the bookings |
| ConsumerFlow.RemainingWaypointsUpdated | swift/consumer_swiftui/App/Views/MapViewController.swift:315-330 | Only the title can change. It shows the completing-another-trip text exactly when it already did, or when the first remaining waypoint belongs to another trip and has a point |
| ConsumerFlow.CameraIdle | swift/consumer_swiftui/App/Views/MapViewControllerBridge.swift:55-92 | The camera target becomes the pickup or the drop-off while that is being chosen; nothing changes otherwise. The map's delegate is the bridge's coordinator (MapViewControllerBridge.swift line 34), whose idle handler makes the same model updates as `MapViewController.mapView(_:idleAt:)` at MapViewController.swift lines 232-241 |
| ConsumerFlow.ConsumerStateUpdated | swift/consumer_swiftui/App/Views/MapViewController.swift:334-352 | Each of the four notification names leads to its reaction, and any other object is ignored |
| ConsumerFlow.LocationSelectionStarted | swift/consumer_swiftui/App/Views/MapViewController+LocationSelection.swift:50-57 | Exactly one pickup-point lookup for the given pickup |
| ConsumerFlow.WalkingDistanceText | swift/consumer_swiftui/App/Views/MapViewController+LocationSelection.swift:98-101 | The text is "Walk ", then the formatted distance, then " meters to meet your driver." |
| ConsumerFlow.PickupPointFound | swift/consumer_swiftui/App/Views/MapViewController+LocationSelection.swift:78-102 | The found point is kept and becomes the pickup, its walking distance is stored, and the customer is asked to confirm it |
| ConsumerFlow.PickupPointNotFound | swift/consumer_swiftui/App/Views/MapViewController+LocationSelection.swift:106-113 | Back to choosing the pickup with the failure text, and the pickup placed at the camera target |
| ConsumerFlow.PickupPointReplied | swift/consumer_swiftui/App/Views/MapViewController+LocationSelection.swift:50-74 | A found point is shown for confirmation, both unusable responses fall back to choosing the pickup, and a transport failure changes nothing |
| ConsumerFlow.PickupSelectionStarted | swift/consumer_swiftui/App/Views/JourneySharingView.swift:62-70 | Asks for the pickup and places it at the camera target |
| ConsumerFlow.DropoffSelectionStarted | swift/consumer_swiftui/App/Views/JourneySharingView.swift:73-82 | Asks for the drop-off and forgets the stops; places the drop-off at the camera target when the pickup has a point |
| ConsumerFlow.TripPreviewStarted | swift/consumer_swiftui/App/Views/JourneySharingView.swift:85-92 | Both labels cleared, the confirm-trip button, state trip-preview |
| ConsumerFlow.TapButton | swift/consumer_swiftui/App/Views/JourneySharingView.swift:37-52 | initial → pickup → drop-off → preview. In preview a tap books and while journey sharing it cancels; in the other states it does nothing. This is the dispatch as written; the UI test expects otherwise in three places, listed under "Consumer state enum" below |
| ConsumerFlow.IntermediateDestinationAdded | swift/consumer_swiftui/App/Views/JourneySharingView.swift:54-59 | The current drop-off is appended to the stops; nothing else changes |
| ConsumerFlow.FreshTapDoesNothing | swift/consumer_swiftui/App/Views/JourneySharingView.swift:37-52 | Under the dispatch as written, which does not name `initialized`, the first tap on a fresh app changes nothing. The app's UI test expects this tap to start pickup selection instead (see "Consumer state enum" below) |
| ConsumerFlow.SelectAndBook | swift/consumer_swiftui/App/Views/JourneySharingView.swift:37-45 | From initial, four taps book exactly one trip, from the first tap's target to the second's |
| ConsumerFlow.AddedStopIsBooked | swift/consumer_swiftui/App/Views/JourneySharingView.swift:54-58 | A stop added while choosing the drop-off is booked after the earlier stops |
| ConsumerFlow.SecondTapBooksAgain | swift/consumer_swiftui/App/Views/JourneySharingView.swift:45-46 | A second tap before the reply books the same trip again |
| ConsumerFlow.CancelAfterBookingUsesHeldTripID | swift/consumer_swiftui/App/Views/MapViewController.swift:132-143 | Booking does not set the model's trip ID, so a cancel right after booking goes to the ID the model held before |
| ConsumerFlow.LookupErrorsHandledAlike | swift/consumer_swiftui/App/Views/MapViewController+LocationSelection.swift:64-72 | Both unusable lookup responses lead to the same state, back to choosing the pickup |
| ConsumerFlow.SnappedPickupIsKept | swift/consumer_swiftui/App/Views/MapViewController.swift:232-241 | Under the dispatch as written, which does not name `confirmingLocationSelectionPickupPoint`, neither the button nor the camera moves the pickup after a pickup point is found. The app's UI test expects the CONFIRM PICKUP POINT tap to reach drop-off selection instead (see "Consumer state enum" below) |
| ConsumerFlow.CompletedTripReturnsToInitial | swift/consumer_swiftui/App/Views/MapViewController.swift:269-284 | A completed trip returns to initial once its delay has passed, with the current trip name removed from the subscriptions |
| ConsumerFlow.EarlierBookingStaysSubscribed | swift/consumer_swiftui/App/Views/MapViewController.swift:140-154 | After two completed bookings and a successful cancel, the first trip is still subscribed and the second is not. A NEW from the first trip then shows the cancel button in state initial. This lasts only while the first trip's model stays active (see `InactiveEarlierBookingUnsubscribes`) |
| ConsumerMapView.MapViewController.constructor | swift/consumer_swiftui/App/Views/MapViewController.swift:81-91 | The controller starts in the initial session over its model data |
| ConsumerMapView.MapViewController.SetPickupLocation | swift/consumer_swiftui/App/Views/MapViewController.swift:182-194 | Performs the pickup-set transition in place |
| ConsumerMapView.MapViewController.SetDropoffLocation | swift/consumer_swiftui/App/Views/MapViewController.swift:197-205 | Performs the drop-off-set transition in place |
| ConsumerMapView.MapViewController.ResetPanelView | swift/consumer_swiftui/App/Views/MapViewController.swift:160-167 | Performs the panel reset in place |
| ConsumerMapView.MapViewController.BookTrip | swift/consumer_swiftui/App/Views/MapViewController.swift:121-128 | Sends the createTrip call |
| ConsumerMapView.MapViewController.CancelTrip | swift/consumer_swiftui/App/Views/MapViewController.swift:139-143 | Sends the cancelTrip call |
| ConsumerMapView.MapViewController.SetActiveTrip | swift/consumer_swiftui/App/Views/MapViewController.swift:208-217 | Performs the active-trip transition |
| ConsumerMapView.MapViewController.OnCreateTripReply | swift/consumer_swiftui/App/Views/MapViewController.swift:122-135 | Performs the trip-created transition |
| ConsumerMapView.MapViewController.ReturnToInitial | swift/consumer_swiftui/App/Views/MapViewController.swift:147-153 | Performs the return to initial |
| ConsumerMapView.MapViewController.OnCancelTripReply | swift/consumer_swiftui/App/Views/MapViewController.swift:140-154 | Performs the trip-cancelled transition |
| ConsumerMapView.MapViewController.UpdateTripInfo | swift/consumer_swiftui/App/Views/MapViewController.swift:219-227 | Performs the trip-info update |
| ConsumerMapView.MapViewController.TripModelDidUpdateStatus | swift/consumer_swiftui/App/Views/MapViewController.swift:245-293 | Performs the status-update transition |
| ConsumerMapView.MapViewController.OnCompleteDelayElapsed | swift/consumer_swiftui/App/Views/MapViewController.swift:274-284 | Performs the delayed reset |
| ConsumerMapView.MapViewController.TripModelDidUpdateSessionState | swift/consumer_swiftui/App/Views/MapViewController.swift:310-313 | Performs the session-state transition in place |
| ConsumerMapView.MapViewController.TripModelDidUpdateRemaining | swift/consumer_swiftui/App/Views/MapViewController.swift:315-330 | Performs the remaining-waypoints transition |
| ConsumerMapView.MapViewController.MapViewIdleAt | swift/consumer_swiftui/App/Views/MapViewController.swift:232-241 | Performs the camera-idle transition. At run time the coordinator's handler at MapViewControllerBridge.swift lines 55-92 runs instead, with the same model updates |
| ConsumerMapView.MapViewController.ConsumerStateUpdate | swift/consumer_swiftui/App/Views/MapViewController.swift:334-352 | Performs the notification dispatch |
| ConsumerMapView.MapViewController.StartLocationSelection | swift/consumer_swiftui/App/Views/MapViewController+LocationSelection.swift:50-57 | Sends the pickup-point lookup |
| ConsumerMapView.MapViewController.OnPickupPointReply | swift/consumer_swiftui/App/Views/MapViewController+LocationSelection.swift:50-74 | Performs the lookup-reply transition |
| ConsumerMapView.MapViewController.ShowLocationSelectionPickupPointInMapView | swift/consumer_swiftui/App/Views/MapViewController+LocationSelection.swift:78-90 | The pickup becomes the kept pickup point; nothing else changes |
| ConsumerMapView.MapViewController.GetLocationSelectionPickupPointSucceeded | swift/consumer_swiftui/App/Views/MapViewController+LocationSelection.swift:94-102 | State confirming-pickup-point, with its button, static text and walking-distance title; nothing else changes |
| ConsumerMapView.MapViewController.GetLocationSelectionPickupPointFailed | swift/consumer_swiftui/App/Views/MapViewController+LocationSelection.swift:106-113 | Performs the not-found transition |
| ConsumerMapView.JourneySharingView.constructor | swift/consumer_swiftui/App/Views/JourneySharingView.swift:19-20 | The view talks to the given controller |
| ConsumerMapView.JourneySharingView.TapButtonAction | swift/consumer_swiftui/App/Views/JourneySharingView.swift:37-52 | Performs the button transition on the controller's state |
| ConsumerMapView.JourneySharingView.TapAddIntermediateDestinationAction | swift/consumer_swiftui/App/Views/JourneySharingView.swift:54-59 | Appends the drop-off to the stops in place |
| ConsumerMapView.JourneySharingView.StartPickupSelection | swift/consumer_swiftui/App/Views/JourneySharingView.swift:62-70 | Performs the pickup-selection transition |
| ConsumerMapView.JourneySharingView.StartDropoffSelection | swift/consumer_swiftui/App/Views/JourneySharingView.swift:73-82 | Performs the drop-off-selection transition |
| ConsumerMapView.JourneySharingView.StartTripPreview | swift/consumer_swiftui/App/Views/JourneySharingView.swift:85-92 | Performs the trip-preview transition |

## Left out

- **Networking.** Network I/O, `URLSession`, JSON byte encoding and the bridging of `NSNumber` and `Bool` are not modelled. The apps exchange abstract JSON values and replies that are either a transport failure or a received body.
- **URL resolution.** `URL(string:relativeTo:)` resolution is not modelled. Provider URLs are built from their parts, so the missing-URL errors those calls guard against are never produced.
- **Integers and floats.** Integers are unbounded. JSON numbers are exact rationals, so `Double` rounding is not modelled.
- AuthTokenCore.ExpirationSeconds: the expiration is kept in exact rational seconds (milliseconds / 1000). `Double` rounding and the clock are not modelled; the current time is a parameter.
- **Scheduling.** Timers, `DispatchQueue.main.asyncAfter` delays and `Task` scheduling are explicit events, not a clock. The driver's 2-second poll interval and 5-second restart delay, and the consumer's 4-second delay before resetting a completed trip, are not enforced.
- **Driver setup.** The terms and conditions dialog, location permission, navigator and road-snapped location setup, and the simulator are not modelled. The same goes for the failure alerts with their retry, and for the navigator and driver API guards in `handleCreateVehicle`.
- DriverMapView.VehicleCreated: the random vehicle ID that `createVehicle` generates, and its createVehicle call, are not modelled. The transition starts from the returned ID.
- **Consumer display.** Map markers, polyline styling, `resetMarkers` and the marker update in `intermediateDestinationAdded` are not modelled. Colours and styles are not modelled either.
- **ETA and distance.** The consumer's ETA and distance callbacks are not modelled: the remaining-distance and ETA callbacks and the metres-to-miles conversion. They only fill in display values. (The session-state callback, which unregisters from an `inactive` trip model, is modelled as `ConsumerFlow.SessionStateUpdated`.)
- ConsumerFlow.WalkingDistanceText: the `%.2f` formatting of the walking distance is a parameter, because the model has no floating-point printing.
- ConsumerFlow.TapButton: the `booking` state is passed through at once when a trip is created; no separate event for it is modelled.
- **Weak references.** `weak self` captures are not modelled. A controller is never released while its tasks run.
- **Who starts a lookup.** None of the modelled files calls `startLocationSelection`, so the model starts a lookup by an explicit event. The button dispatch as written (JourneySharingView.swift lines 37-52) goes straight from `selectingPickup` to drop-off selection. The consumer UI test instead expects a CONFIRM PICKUP tap in `selectingPickup` to start a pickup-point lookup (Tests/UITests/MapViewTests.swift lines 39-51); the model does not capture that wiring.
- **Consumer state enum.** The consumer state enum the model data declares (`unInitialized`, `initialized`) differs from the cases the views use (`initial`, `confirmingLocationSelectionPickupPoint`). The model keeps the union of both. States the button's dispatch does not name do nothing, so a fresh app, which starts in `initialized` (ModelData.swift line 85), ignores its first tap, and a tap in `confirmingLocationSelectionPickupPoint` changes nothing. The consumer UI test (Tests/UITests/MapViewTests.swift) expects otherwise: the first REQUEST RIDE tap shows CONFIRM PICKUP (lines 32-33), a CONFIRM PICKUP tap starts the pickup-point lookup (lines 39-51), and the CONFIRM PICKUP POINT tap shows CONFIRM DROPOFF (lines 58-59). `ConsumerFlow.TapButton`, `ConsumerFlow.FreshTapDoesNothing` and `ConsumerFlow.SnappedPickupIsKept` follow the dispatch as written, not the test.
- **Consumer texts.** `Strings.tripInfoViewStaticText` is not defined in `Strings.swift`; the model uses the user-selection static text "Choose a ". The request-ride button text is taken to be "REQUEST RIDE".
- **Walking distance field.** `locationSelectionWalkingDistance` is written by the Location Selection extension but not declared in `ModelData.swift`. The model adds it with the initial value 0.
- ConsumerMapView.JourneySharingView.TapAddIntermediateDestinationAction: the control panel only shows the add-stop button while the drop-off is being chosen; that visibility is this method's precondition.
- DriverAppConfig.MapsKeyPatternAccepts: ICU's `$` also matches before a final line terminator; the model's anchors match only at the end of the string.
- ConsumerFlow.Returned: removes the current trip name from the subscriptions on the assumption that the SDK's lookup by name, done again at that moment, finds the model that was registered under that name. The SDK's trip-model cache is not part of this model.
- DriverAppConfig.ProviderIDPatternAccepts: the same `$` difference applies, so a provider ID such as "abcdef" followed by a newline passes the app's check but not the model's.
- DriverAppConfig.ApiConstantsErrorMessage: inherits both anchor differences, so it reports an error for constants with a trailing line terminator that the app accepts.
- DriverAppConfig.AppScreen: inherits both anchor differences through the error message.
- **Objective-C.** The Objective-C sample headers are not part of this model.
