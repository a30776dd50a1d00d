/**
 * The search controller of App.tsx as a reducer: its state (the `useState` values and the two refs)
 * is a `View`, and every handler is a function from the old view (plus the handler's input) to the
 * new one. Each asynchronous SDK call is split in two: the handler that issues it returns the request,
 * and a separate response function takes what the provider passes to the callback.
 */
module AppState {
  import opened Options
  import opened Places
  import opened JsText
  import RestaurantCard

  datatype Status = Idle | Locating | Searching | Success | Error
  datatype PanelState = Hidden | Peek | Full

  /** The `error` state: a plain message, or the block of instructions shown when location permission is denied. */
  datatype ErrorMessage = Text(text: string) | PermissionDeniedHelp

  /** The provider's status; the handlers only ever compare it with OK. */
  datatype ServiceStatus = OK | NotOK(code: string)

  datatype GeoErrorCode = PermissionDenied | PositionUnavailable | Timeout

  datatype View = View(
    currentLocation: Option<LatLng>,
    restaurants: seq<Place>,
    status: Status,
    error: Option<ErrorMessage>,
    selectedId: Option<string>,
    query: string,
    detail: Option<Place>,
    panel: PanelState,
    /** `mapInstanceRef.current` */
    mapRef: Option<Handle>,
    /** `initialLocationSet.current` */
    initialLocationSet: bool)

  /** The values the component mounts with. */
  function Initial(): View {
    View(None, [], Idle, None, None, "", None, Hidden, None, false)
  }

  /** `isDetailView`. */
  predicate IsDetailView(v: View) {
    v.detail.Some?
  }

  /** The statuses during which the locate button shows a spinner and is disabled. */
  predicate InProgress(s: Status) {
    s == Locating || s == Searching
  }

  // Requests handed to the browser and to the places provider.

  datatype GeoRequest = GeoRequest(enableHighAccuracy: bool, timeoutMs: nat, maximumAgeMs: nat)
  datatype NearbyRequest = NearbyRequest(location: LatLng, radius: nat, kind: string)
  datatype Circle = Circle(center: LatLng, radius: nat)
  datatype TextSearchRequest = TextSearchRequest(query: string, fields: seq<string>, locationBias: Option<Circle>)
  datatype DetailsRequest = DetailsRequest(placeId: string, fields: seq<string>)

  /** A new view and the request (if any) the handler issued. */
  datatype Step<R> = Step(view: View, request: Option<R>)

  const NewYork := LatLng(40.7128, -74.0060)
  const PositionOptions := GeoRequest(true, 10000, 0)
  const NearbyRadius: nat := 1500
  const NearbyKind := "restaurant"
  const BiasRadius: nat := 20000
  const TextSearchFields := ["place_id"]
  const DetailFields := ["name", "rating", "user_ratings_total", "price_level", "formatted_address",
                         "vicinity", "geometry", "photos", "opening_hours", "place_id", "types"]

  const MapOrLocationMissing := "Map isn't ready or location not available. Please try again."
  const NoRestaurantsNearby := "No restaurants found within a 1.5km radius."
  const NearbyFailed := "Could not fetch restaurants. Please try again later."
  const LocationFailed := "Could not get your location. Please try again."
  const GeolocationUnsupported := "Geolocation is not supported by your browser."
  const MapNotReady := "Map isn't ready. Please wait a moment and try again."
  const DetailsFailed := "Could not fetch place details. Please try again."

  function NoResultsFor(query: string): string {
    "No results found for \"" + query + "\"."
  }

  /** The mount effect: the first run puts the map centre on New York; later runs change nothing. */
  function MountEffect(v: View): (r: View)
    ensures r.initialLocationSet
    ensures v.initialLocationSet ==> r == v
    ensures !v.initialLocationSet ==> r.currentLocation == Some(NewYork)
    ensures r.(currentLocation := v.currentLocation, initialLocationSet := v.initialLocationSet) == v
  {
    if !v.initialLocationSet then v.(currentLocation := Some(NewYork), initialLocationSet := true) else v
  }

  /** The clean slate every location-based search starts from. */
  function ClearedFor(v: View, status: Status): View {
    v.(status := status, restaurants := [], detail := None, selectedId := None, error := None, panel := Peek)
  }

  /**
   * `findRestaurants(location?)`: the explicit location, else the current one. Without a map or a
   * location it reports an error and issues nothing; otherwise it clears the previous outcome and
   * issues a 1.5 km nearby search for restaurants.
   */
  function FindRestaurants(v: View, location: Option<LatLng>): (r: Step<NearbyRequest>)
    ensures var at := if location.Some? then location else v.currentLocation;
      && (v.mapRef.None? || at.None? ==>
            && r.request.None?
            && r.view.status == Error && r.view.panel == Peek
            && r.view.error == Some(Text(MapOrLocationMissing))
            && r.view.(error := v.error, status := v.status, panel := v.panel) == v)
      && (v.mapRef.Some? && at.Some? ==>
            && r.request == Some(NearbyRequest(at.value, NearbyRadius, NearbyKind))
            && r.view.status == Searching && r.view.panel == Peek
            && r.view.restaurants == [] && r.view.detail.None?
            && r.view.selectedId.None? && r.view.error.None?
            && r.view.(status := v.status, panel := v.panel, restaurants := v.restaurants, detail := v.detail,
                       selectedId := v.selectedId, error := v.error) == v)
  {
    var at := if location.Some? then location else v.currentLocation;
    if v.mapRef.None? || at.None? then
      Step(v.(error := Some(Text(MapOrLocationMissing)), status := Error, panel := Peek), None)
    else
      Step(ClearedFor(v, Searching), Some(NearbyRequest(at.value, NearbyRadius, NearbyKind)))
  }

  /**
   * The nearby-search callback. An OK answer replaces the list and succeeds, keeping the panel at
   * peek; an empty list additionally shows the "none within 1.5 km" message. Anything else is an error.
   */
  function NearbyResponse(v: View, status: ServiceStatus, results: Option<seq<Place>>): (r: View)
    ensures status == OK && results.Some? ==>
      && r.restaurants == results.value && r.status == Success && r.panel == Peek
      && (|results.value| == 0 ==> r.error == Some(Text(NoRestaurantsNearby)))
      && (|results.value| > 0 ==> r.error == v.error)
    ensures !(status == OK && results.Some?) ==>
      && r.status == Error && r.panel == Peek && r.error == Some(Text(NearbyFailed))
      && r.restaurants == v.restaurants
    ensures r.(restaurants := v.restaurants, status := v.status, panel := v.panel, error := v.error) == v
  {
    if status == OK && results.Some? then
      var shown := v.(restaurants := results.value, status := Success,
                      panel := if |results.value| > 0 then Peek else Hidden);
      if |results.value| == 0 then shown.(error := Some(Text(NoRestaurantsNearby)), panel := Peek) else shown
    else
      v.(error := Some(Text(NearbyFailed)), status := Error, panel := Peek)
  }

  /**
   * `handleRequestLocationAndSearch`: clears the previous outcome and asks the browser for a fix;
   * a browser without geolocation ends in an error instead, with no request.
   */
  function RequestLocation(v: View, geolocationAvailable: bool): (r: Step<GeoRequest>)
    ensures r.request.Some? <==> geolocationAvailable
    ensures geolocationAvailable ==> r.request == Some(PositionOptions) && r.view.status == Locating && r.view.error.None?
    ensures !geolocationAvailable ==> r.view.status == Error && r.view.error == Some(Text(GeolocationUnsupported))
    ensures r.view.restaurants == [] && r.view.detail.None? && r.view.selectedId.None? && r.view.panel == Peek
    ensures r.view.(status := v.status, restaurants := v.restaurants, detail := v.detail, selectedId := v.selectedId,
                    error := v.error, panel := v.panel) == v
  {
    var cleared := ClearedFor(v, Locating);
    if geolocationAvailable then Step(cleared, Some(PositionOptions))
    else Step(cleared.(error := Some(Text(GeolocationUnsupported)), status := Error), None)
  }

  /** The position callback: the fix becomes the current location and a nearby search starts there. */
  function LocationFound(v: View, position: LatLng): (r: Step<NearbyRequest>)
    ensures r.view.currentLocation == Some(position)
    ensures v.mapRef.Some? ==> r.request == Some(NearbyRequest(position, NearbyRadius, NearbyKind)) && r.view.status == Searching
    ensures v.mapRef.Some? ==>
      && r.view.restaurants == [] && r.view.detail.None? && r.view.selectedId.None?
      && r.view.error.None? && r.view.panel == Peek
    ensures v.mapRef.None? ==> r.request.None? && r.view.status == Error
    ensures v.mapRef.None? ==>
      && r.view.error == Some(Text(MapOrLocationMissing)) && r.view.panel == Peek
      && r.view.restaurants == v.restaurants && r.view.detail == v.detail && r.view.selectedId == v.selectedId
    ensures r.view.query == v.query && r.view.mapRef == v.mapRef && r.view.initialLocationSet == v.initialLocationSet
  {
    FindRestaurants(v.(currentLocation := Some(position)), Some(position))
  }

  /** The position error callback: permission denial gets its own help text, every other code the generic message. */
  function LocationError(v: View, code: GeoErrorCode): (r: View)
    ensures r.status == Error
    ensures r.error == Some(PermissionDeniedHelp) <==> code == PermissionDenied
    ensures code != PermissionDenied ==> r.error == Some(Text(LocationFailed))
    ensures r.(status := v.status, error := v.error) == v
  {
    var message := if code == PermissionDenied then PermissionDeniedHelp else Text(LocationFailed);
    v.(error := Some(message), status := Error)
  }

  /** What a marker click does to the state, and the element it scrolls into view (none in the detail view). */
  datatype Click = Click(view: View, scrollTo: Option<string>)

  /** `handleMarkerClick(id)`: selects the id and shows the panel at peek; status, results and detail stay. */
  function MarkerClick(v: View, id: string): (r: Click)
    ensures r.view.selectedId == Some(id) && r.view.panel == Peek
    ensures r.view.(selectedId := v.selectedId, panel := v.panel) == v
    ensures r.scrollTo.Some? <==> !IsDetailView(v)
    ensures r.scrollTo.Some? ==> r.scrollTo.value == RestaurantCard.ElementIdPrefix + id
  {
    var selected := v.(selectedId := Some(id), panel := Peek);
    if v.detail.Some? then Click(selected, None)
    else Click(selected, Some(RestaurantCard.ElementIdPrefix + id))
  }

  /** The card for a listed place carries exactly the element id a click on that place's marker scrolls to. */
  lemma ClickScrollsToCard(v: View, place: Place)
    requires !IsDetailView(v) && place.placeId.Some?
    ensures MarkerClick(v, place.placeId.value).scrollTo == Some(RestaurantCard.ElementId(place))
  {
  }

  /** `handleMapLoad`. */
  function MapLoad(v: View, handle: Handle): (r: View)
    ensures r.mapRef == Some(handle) && r.(mapRef := v.mapRef) == v
  {
    v.(mapRef := Some(handle))
  }

  /** The search box's `onChange`. */
  function QueryTyped(v: View, text: string): (r: View)
    ensures r.query == text && r.(query := v.query) == v
  {
    v.(query := text)
  }

  /**
   * `handleSearch`: a blank query is ignored; without a map it is an error; otherwise the results,
   * detail and error are cleared (the selection is kept) and a text search for the query is issued,
   * biased to 20 km around the current location when there is one.
   */
  function Search(v: View): (r: Step<TextSearchRequest>)
    ensures AllWhitespace(v.query) ==> r == Step(v, None)
    ensures !AllWhitespace(v.query) && v.mapRef.None? ==>
      && r.request.None? && r.view.status == Error && r.view.panel == Peek
      && r.view.error == Some(Text(MapNotReady))
      && r.view.(error := v.error, status := v.status, panel := v.panel) == v
    ensures !AllWhitespace(v.query) && v.mapRef.Some? ==>
      && r.view.status == Searching && r.view.panel == Peek
      && r.view.restaurants == [] && r.view.detail.None? && r.view.error.None?
      && r.view.(status := v.status, panel := v.panel, restaurants := v.restaurants, detail := v.detail,
                 error := v.error) == v
      && r.request.Some? && r.request.value.query == v.query && r.request.value.fields == ["place_id"]
      && (r.request.value.locationBias.Some? <==> v.currentLocation.Some?)
      && (v.currentLocation.Some? ==> r.request.value.locationBias == Some(Circle(v.currentLocation.value, 20000)))
  {
    TrimEmptyIffBlank(v.query);
    if Trim(v.query) == "" then Step(v, None)
    else if v.mapRef.None? then
      Step(v.(error := Some(Text(MapNotReady)), status := Error, panel := Peek), None)
    else
      var bias := if v.currentLocation.Some? then Some(Circle(v.currentLocation.value, BiasRadius)) else None;
      Step(v.(status := Searching, restaurants := [], detail := None, error := None, panel := Peek),
           Some(TextSearchRequest(v.query, TextSearchFields, bias)))
  }

  /**
   * The text-search callback (`query` is the query the search was issued with). An OK answer whose
   * first result has an id issues the details lookup for it and changes nothing yet; any other
   * answer is an error naming the query.
   */
  function TextSearchResponse(v: View, query: string, status: ServiceStatus, results: Option<seq<Place>>): (r: Step<DetailsRequest>)
    ensures var hit := status == OK && results.Some? && |results.value| > 0 && TruthyId(results.value[0]).Some?;
      && (hit ==> r.view == v && r.request == Some(DetailsRequest(results.value[0].placeId.value, DetailFields)))
      && (!hit ==> r.request.None? && r.view.status == Error && r.view.error == Some(Text(NoResultsFor(query)))
                   && r.view.(status := v.status, error := v.error) == v)
  {
    if status == OK && results.Some? && |results.value| > 0 && TruthyId(results.value[0]).Some? then
      Step(v, Some(DetailsRequest(results.value[0].placeId.value, DetailFields)))
    else
      Step(v.(error := Some(Text(NoResultsFor(query))), status := Error), None)
  }

  /** The new view after the details callback, and where the map is panned, if anywhere. */
  datatype Shown = Shown(view: View, focus: Option<LatLng>)

  /**
   * The details callback. Success opens the detail view: the list becomes exactly that place, it is
   * selected, the panel goes full and the map moves to it when it has a location. Failure is an error.
   */
  function DetailsResponse(v: View, status: ServiceStatus, details: Option<Place>): (r: Shown)
    ensures status == OK && details.Some? ==>
      && IsDetailView(r.view) && r.view.detail == details
      && r.view.restaurants == [details.value] && r.view.selectedId == details.value.placeId
      && r.view.status == Success && r.view.panel == Full
      && r.focus == Location(details.value)
      && r.view.currentLocation == (if r.focus.Some? then r.focus else v.currentLocation)
      && r.view.error == v.error
      && r.view.(detail := v.detail, restaurants := v.restaurants, selectedId := v.selectedId,
                 currentLocation := v.currentLocation, status := v.status, panel := v.panel) == v
    ensures !(status == OK && details.Some?) ==>
      && r.focus.None? && r.view.status == Error && r.view.error == Some(Text(DetailsFailed))
      && r.view.(status := v.status, error := v.error) == v
    ensures r.view.query == v.query && r.view.mapRef == v.mapRef
  {
    if status == OK && details.Some? then
      var place := details.value;
      var focus := Location(place);
      var showing := v.(detail := details, restaurants := [place], selectedId := place.placeId);
      var moved := if focus.Some? then showing.(currentLocation := focus) else showing;
      Shown(moved.(status := Success, panel := Full), focus)
    else
      Shown(v.(error := Some(Text(DetailsFailed)), status := Error), None)
  }

  /** `handleClearSearch`: leaves the detail view, empties the query and the selection, then locates afresh. */
  function ClearSearch(v: View, geolocationAvailable: bool): (r: Step<GeoRequest>)
    ensures !IsDetailView(r.view) && r.view.query == "" && r.view.selectedId.None?
    ensures r.view.restaurants == [] && r.view.panel == Peek
    ensures r.request.Some? <==> geolocationAvailable
    ensures geolocationAvailable ==> r.request == Some(PositionOptions) && r.view.status == Locating && r.view.error.None?
    ensures !geolocationAvailable ==> r.view.status == Error && r.view.error == Some(Text(GeolocationUnsupported))
    ensures r.view.(status := v.status, restaurants := v.restaurants, detail := v.detail, selectedId := v.selectedId,
                    error := v.error, panel := v.panel, query := v.query) == v
  {
    RequestLocation(v.(detail := None, query := "", selectedId := None), geolocationAvailable)
  }

  /** The panel handle: full collapses to peek, anything else expands to full. */
  function TogglePanel(v: View): (r: View)
    ensures r.panel != Hidden
    ensures r.panel == Peek <==> v.panel == Full
    ensures r.(panel := v.panel) == v
  {
    v.(panel := if v.panel == Full then Peek else Full)
  }

  /** Pointer entering a card selects its place (an absent or empty id selects nothing); leaving clears it. */
  function CardEntered(v: View, place: Place): (r: View)
    ensures r.selectedId == TruthyId(place) && r.(selectedId := v.selectedId) == v
  {
    v.(selectedId := TruthyId(place))
  }

  function CardLeft(v: View): (r: View)
    ensures r.selectedId.None? && r.(selectedId := v.selectedId) == v
  {
    v.(selectedId := None)
  }

  /** `getPanelHeight`: each panel state has its own height class, and only a hidden panel has none. */
  function PanelHeight(panel: PanelState): (r: string)
    ensures r == "h-0" <==> panel == Hidden
    ensures r == "h-1/3" <==> panel == Peek
    ensures r == "h-1/2" <==> panel == Full
  {
    match panel
    case Hidden => "h-0"
    case Peek => "h-1/3"
    case Full => "h-1/2"
  }
}
