/**
 * The consumer app's Location Selection client: asks
 * `findPickupPointsForLocation` for the pickup point with the lowest
 * walking ETA from the chosen pickup location, and reads back its
 * coordinates and walking distance.
 */
module LocationSelectionService {
  import opened Wire
  import opened SdkTypes

  const GoogleCloudAPIKeyHeader := "X-Goog-Api-Key"

  const SearchLocationKey := "search_location"
  const LocalizationPreferencesKey := "localization_preferences"
  const MaxResultsKey := "max_results"
  const OrderByKey := "order_by"
  const TravelModesKey := "travel_modes"
  const ComputeWalkingEtaKey := "compute_walking_eta"

  const MaxResultsValue := 1
  const OrderByValue := "WALKING_ETA_FROM_SEARCH_LOCATION"
  const TravelModesValue := "WALKING"
  const ComputeWalkingEtaValue := true
  const LanguageCodeKey := "language_code"
  const RegionCodeKey := "region_code"

  const LocationSelectionScheme := "https"
  const LocationSelectionHost := "locationselection.googleapis.com"
  const FindPickupPointsPath := "/v1beta:findPickupPointsForLocation"

  const PlacePickupPointResultsKey := "placePickupPointResults"
  const PickupPointResultKey := "pickupPointResult"
  const PickupPointKey := "pickupPoint"
  const LocationKey := "location"
  const DistanceMetersKey := "distanceMeters"

  datatype LocationSelectionError = MissingResponseData | MissingExpectedFields | Transport(code: int)

  /** The pickup point the service returns: its coordinates and the walk to it in meters. */
  datatype PickupPoint = PickupPoint(latLng: LatLng, walkingDistance: real)

  /** `{language_code: en-US, region_code: US}` */
  const LocalizationPreferences := JObject(map[LanguageCodeKey := JString("en-US"), RegionCodeKey := JString("US")])

  /**
   * The search location as sent: its coordinates, or an empty object when
   * the location has no point.
   */
  function SearchLocationObject(searchLocation: TerminalLocation): (obj: map<string, Json>)
    ensures searchLocation.point.None? <==> obj.Keys == {}
    ensures searchLocation.point.Some? ==> ReadLatLng(obj) == searchLocation.point
  {
    match searchLocation.point
    case None => map[]
    case Some(p) =>
      var obj := map[LatitudeKey := JNumber(p.latitude), LongitudeKey := JNumber(p.longitude)];
      assert LatitudeKey in obj.Keys;
      obj
  }

  function PickupPointPayload(searchLocation: TerminalLocation): (payload: map<string, Json>)
    ensures payload.Keys ==
      {SearchLocationKey, LocalizationPreferencesKey, MaxResultsKey, OrderByKey, TravelModesKey, ComputeWalkingEtaKey}
    ensures payload[SearchLocationKey] == JObject(SearchLocationObject(searchLocation))
    ensures payload[LocalizationPreferencesKey] ==
      JObject(map[LanguageCodeKey := JString("en-US"), RegionCodeKey := JString("US")])
    ensures payload[MaxResultsKey] == JNumber(1.0)
    ensures payload[OrderByKey] == JString("WALKING_ETA_FROM_SEARCH_LOCATION")
    ensures payload[TravelModesKey] == JString("WALKING")
    ensures payload[ComputeWalkingEtaKey] == JBool(true)
  {
    map[
      SearchLocationKey := JObject(SearchLocationObject(searchLocation)),
      LocalizationPreferencesKey := LocalizationPreferences,
      MaxResultsKey := JNumber(MaxResultsValue as real),
      OrderByKey := JString(OrderByValue),
      TravelModesKey := JString(TravelModesValue),
      ComputeWalkingEtaKey := JBool(ComputeWalkingEtaValue)]
  }

  /**
   * The POST to the Location Selection API, authorised by the Google
   * Cloud API key header.
   */
  function PickupPointRequest(searchLocation: TerminalLocation, apiKey: string): (req: Request)
    ensures req.verb == POST
    ensures req.url == Url("https", "locationselection.googleapis.com", None, "/v1beta:findPickupPointsForLocation")
    ensures req.headers == map[ContentTypeHeader := JsonContentType, GoogleCloudAPIKeyHeader := apiKey]
    ensures req.body == Some(JObject(PickupPointPayload(searchLocation)))
  {
    Request(POST, Url(LocationSelectionScheme, LocationSelectionHost, None, FindPickupPointsPath),
      map[ContentTypeHeader := JsonContentType, GoogleCloudAPIKeyHeader := apiKey],
      Some(JObject(PickupPointPayload(searchLocation))))
  }

  /**
   * `LocationSelectionParsedResponse(parsedDictionary:)`: only the first
   * result is read; it must be an object holding
   * `pickupPointResult.pickupPoint.location.{latitude, longitude}` and
   * `pickupPointResult.distanceMeters`, all numbers.
   */
  function ParseResponse(response: map<string, Json>): (r: Option<PickupPoint>)
    ensures r.Some? <==> HasPickupPoint(response)
    ensures r.Some? ==>
      var result := response[PlacePickupPointResultsKey].items[0].fields[PickupPointResultKey].fields;
      var location := result[PickupPointKey].fields[LocationKey].fields;
      location[LatitudeKey] == JNumber(r.value.latLng.latitude) &&
      location[LongitudeKey] == JNumber(r.value.latLng.longitude) &&
      result[DistanceMetersKey] == JNumber(r.value.walkingDistance)
  {
    match FirstResultFields(response)
    case None => None
    case Some((location, pickupPointResult)) =>
      Some(PickupPoint(ReadLatLng(location).value, pickupPointResult[DistanceMetersKey].n))
  }

  /**
   * Whether the response has a first result that is an object whose
   * `pickupPointResult` object holds a numeric `distanceMeters` and a
   * `pickupPoint.location` object with numeric latitude and longitude.
   */
  predicate HasPickupPoint(response: map<string, Json>) {
    PlacePickupPointResultsKey in response && response[PlacePickupPointResultsKey].JArray? &&
    |response[PlacePickupPointResultsKey].items| > 0 &&
    var first := response[PlacePickupPointResultsKey].items[0];
    first.JObject? && PickupPointResultKey in first.fields && first.fields[PickupPointResultKey].JObject? &&
    var result := first.fields[PickupPointResultKey].fields;
    PickupPointKey in result && result[PickupPointKey].JObject? &&
    var pickupPoint := result[PickupPointKey].fields;
    LocationKey in pickupPoint && pickupPoint[LocationKey].JObject? &&
    var location := pickupPoint[LocationKey].fields;
    LatitudeKey in location && location[LatitudeKey].JNumber? &&
    LongitudeKey in location && location[LongitudeKey].JNumber? &&
    DistanceMetersKey in result && result[DistanceMetersKey].JNumber?
  }

  /**
   * The `location` object and the `pickupPointResult` object of the first
   * result, when every field the parser needs is present with its type.
   */
  function FirstResultFields(response: map<string, Json>): (r: Option<(map<string, Json>, map<string, Json>)>)
    ensures r.Some? ==> ReadLatLng(r.value.0).Some? && DoubleField(r.value.1, DistanceMetersKey).Some?
  {
    if PlacePickupPointResultsKey !in response || !response[PlacePickupPointResultsKey].JArray? then None
    else
      var results := response[PlacePickupPointResultsKey].items;
      if |results| == 0 then None
      else
        match AsObject(results[0])
        case None => None
        case Some(first) =>
          match ObjectField(first, PickupPointResultKey)
          case None => None
          case Some(pickupPointResult) =>
            match ObjectField(pickupPointResult, PickupPointKey)
            case None => None
            case Some(pickupPoint) =>
              match ObjectField(pickupPoint, LocationKey)
              case None => None
              case Some(location) =>
                if ReadLatLng(location).Some? && DoubleField(pickupPointResult, DistanceMetersKey).Some?
                then Some((location, pickupPointResult))
                else None
  }

  /** Results after the first never change what is parsed. */
  lemma OnlyFirstResultMatters(response: map<string, Json>, first: Json, rest1: seq<Json>, rest2: seq<Json>)
    ensures ParseResponse(response[PlacePickupPointResultsKey := JArray([first] + rest1)])
         == ParseResponse(response[PlacePickupPointResultsKey := JArray([first] + rest2)])
  {
  }

  /** A well-formed single-result response parses to exactly its coordinates and distance. */
  lemma ParseWellFormedResponse(latitude: real, longitude: real, distance: real)
    ensures ParseResponse(map[PlacePickupPointResultsKey := JArray([JObject(map[
      PickupPointResultKey := JObject(map[
        DistanceMetersKey := JNumber(distance),
        PickupPointKey := JObject(map[LocationKey := JObject(map[
          LatitudeKey := JNumber(latitude), LongitudeKey := JNumber(longitude)])])])])])])
      == Some(PickupPoint(LatLng(latitude, longitude), distance))
  {
  }

  /**
   * getLocationSelectionPickupPoint: data that is not a JSON object is
   * `missingResponseData`; an object the parser rejects is
   * `missingExpectedFields`; a transport failure is passed on.
   */
  function GetPickupPointResult(reply: Reply): (r: Result<PickupPoint, LocationSelectionError>)
    ensures reply.TransportError? ==> r == Err(Transport(reply.code))
    ensures reply.Received? && BodyObject(reply.body).None? ==> r == Err(MissingResponseData)
    ensures reply.Received? && BodyObject(reply.body).Some? ==>
      match ParseResponse(BodyObject(reply.body).value)
      case None => r == Err(MissingExpectedFields)
      case Some(p) => r == Ok(p)
  {
    match reply
    case TransportError(code) => Err(Transport(code))
    case Received(body) =>
      match BodyObject(body)
      case None => Err(MissingResponseData)
      case Some(obj) =>
        match ParseResponse(obj)
        case None => Err(MissingExpectedFields)
        case Some(p) => Ok(p)
  }

  /** An empty body and an object without results fail with different errors. */
  lemma GetPickupPointErrorCases()
    ensures GetPickupPointResult(Received(None)) == Err(MissingResponseData)
    ensures GetPickupPointResult(Received(Some(JObject(map["invalidKey" := JString("")])))) == Err(MissingExpectedFields)
  {
  }
}
