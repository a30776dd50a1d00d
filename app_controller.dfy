/**
 * The App component as an object: its state hooks and refs are fields, and each handler sets them
 * one after another in the order the component calls its setters. Every handler is proved to leave
 * the object in exactly the view the reducer in AppState computes from the view before it.
 */
module AppController {
  import opened Options
  import opened Places
  import opened JsText
  import opened AppState

  class App {
    var currentLocation: Option<LatLng>
    var restaurants: seq<Place>
    var status: Status
    var error: Option<ErrorMessage>
    var selectedRestaurantId: Option<string>
    var searchQuery: string
    var selectedPlaceDetails: Option<Place>
    var panelState: PanelState
    var mapInstanceRef: Option<Handle>
    var initialLocationSet: bool

    /** The fields read as one view. */
    function State(): View
      reads this
    {
      View(currentLocation, restaurants, status, error, selectedRestaurantId, searchQuery,
           selectedPlaceDetails, panelState, mapInstanceRef, initialLocationSet)
    }

    constructor ()
      ensures State() == Initial()
    {
      currentLocation, restaurants, status, error := None, [], Idle, None;
      selectedRestaurantId, searchQuery, selectedPlaceDetails := None, "", None;
      panelState, mapInstanceRef, initialLocationSet := Hidden, None, false;
    }

    method MountEffect()
      modifies this
      ensures State() == AppState.MountEffect(old(State()))
    {
      if !initialLocationSet {
        currentLocation := Some(NewYork);
        initialLocationSet := true;
      }
    }

    method FindRestaurants(location: Option<LatLng>) returns (request: Option<NearbyRequest>)
      modifies this
      ensures State() == AppState.FindRestaurants(old(State()), location).view
      ensures request == AppState.FindRestaurants(old(State()), location).request
    {
      var searchLocation := if location.Some? then location else currentLocation;
      if mapInstanceRef.None? || searchLocation.None? {
        error := Some(Text(MapOrLocationMissing));
        status := Error;
        panelState := Peek;
        return None;
      }
      status := Searching;
      restaurants := [];
      selectedPlaceDetails := None;
      selectedRestaurantId := None;
      error := None;
      panelState := Peek;
      request := Some(NearbyRequest(searchLocation.value, NearbyRadius, NearbyKind));
    }

    method OnNearbySearch(searchStatus: ServiceStatus, results: Option<seq<Place>>)
      modifies this
      ensures State() == AppState.NearbyResponse(old(State()), searchStatus, results)
    {
      if searchStatus == OK && results.Some? {
        restaurants := results.value;
        status := Success;
        panelState := if |results.value| > 0 then Peek else Hidden;
        if |results.value| == 0 {
          error := Some(Text(NoRestaurantsNearby));
          panelState := Peek;
        }
      } else {
        error := Some(Text(NearbyFailed));
        status := Error;
        panelState := Peek;
      }
    }

    method HandleRequestLocationAndSearch(geolocationAvailable: bool) returns (request: Option<GeoRequest>)
      modifies this
      ensures State() == AppState.RequestLocation(old(State()), geolocationAvailable).view
      ensures request == AppState.RequestLocation(old(State()), geolocationAvailable).request
    {
      status := Locating;
      restaurants := [];
      selectedPlaceDetails := None;
      selectedRestaurantId := None;
      error := None;
      panelState := Peek;
      if geolocationAvailable {
        request := Some(PositionOptions);
      } else {
        error := Some(Text(GeolocationUnsupported));
        status := Error;
        request := None;
      }
    }

    method OnPosition(position: LatLng) returns (request: Option<NearbyRequest>)
      modifies this
      ensures State() == AppState.LocationFound(old(State()), position).view
      ensures request == AppState.LocationFound(old(State()), position).request
    {
      currentLocation := Some(position);
      request := FindRestaurants(Some(position));
    }

    method OnPositionError(code: GeoErrorCode)
      modifies this
      ensures State() == AppState.LocationError(old(State()), code)
    {
      var message := Text(LocationFailed);
      if code == PermissionDenied {
        message := PermissionDeniedHelp;
      }
      error := Some(message);
      status := Error;
    }

    method HandleMarkerClick(id: string) returns (scrollTo: Option<string>)
      modifies this
      ensures State() == AppState.MarkerClick(old(State()), id).view
      ensures scrollTo == AppState.MarkerClick(old(State()), id).scrollTo
    {
      selectedRestaurantId := Some(id);
      panelState := Peek;
      if selectedPlaceDetails.Some? {
        return None;
      }
      scrollTo := Some(RestaurantCard.ElementIdPrefix + id);
    }

    method HandleMapLoad(handle: Handle)
      modifies this
      ensures State() == AppState.MapLoad(old(State()), handle)
    {
      mapInstanceRef := Some(handle);
    }

    method SetSearchQuery(text: string)
      modifies this
      ensures State() == AppState.QueryTyped(old(State()), text)
    {
      searchQuery := text;
    }

    method HandleSearch() returns (request: Option<TextSearchRequest>)
      modifies this
      ensures State() == AppState.Search(old(State())).view
      ensures request == AppState.Search(old(State())).request
    {
      if Trim(searchQuery) == "" {
        return None;
      }
      if mapInstanceRef.None? {
        error := Some(Text(MapNotReady));
        status := Error;
        panelState := Peek;
        return None;
      }
      status := Searching;
      restaurants := [];
      selectedPlaceDetails := None;
      error := None;
      panelState := Peek;
      var bias := if currentLocation.Some? then Some(Circle(currentLocation.value, BiasRadius)) else None;
      request := Some(TextSearchRequest(searchQuery, TextSearchFields, bias));
    }

    /** `query` is the search text the callback's closure captured when the search was issued. */
    method OnTextSearch(query: string, searchStatus: ServiceStatus, results: Option<seq<Place>>)
      returns (request: Option<DetailsRequest>)
      modifies this
      ensures State() == AppState.TextSearchResponse(old(State()), query, searchStatus, results).view
      ensures request == AppState.TextSearchResponse(old(State()), query, searchStatus, results).request
    {
      if searchStatus == OK && results.Some? && |results.value| > 0 && TruthyId(results.value[0]).Some? {
        request := Some(DetailsRequest(results.value[0].placeId.value, DetailFields));
      } else {
        error := Some(Text(NoResultsFor(query)));
        status := Error;
        request := None;
      }
    }

    method OnPlaceDetails(detailStatus: ServiceStatus, details: Option<Place>) returns (focus: Option<LatLng>)
      modifies this
      ensures State() == AppState.DetailsResponse(old(State()), detailStatus, details).view
      ensures focus == AppState.DetailsResponse(old(State()), detailStatus, details).focus
    {
      if detailStatus == OK && details.Some? {
        selectedPlaceDetails := details;
        restaurants := [details.value];
        selectedRestaurantId := details.value.placeId;
        focus := Location(details.value);
        if focus.Some? {
          currentLocation := focus;
        }
        status := Success;
        panelState := Full;
      } else {
        error := Some(Text(DetailsFailed));
        status := Error;
        focus := None;
      }
    }

    method HandleClearSearch(geolocationAvailable: bool) returns (request: Option<GeoRequest>)
      modifies this
      ensures State() == AppState.ClearSearch(old(State()), geolocationAvailable).view
      ensures request == AppState.ClearSearch(old(State()), geolocationAvailable).request
    {
      selectedPlaceDetails := None;
      searchQuery := "";
      selectedRestaurantId := None;
      request := HandleRequestLocationAndSearch(geolocationAvailable);
    }

    method TogglePanel()
      modifies this
      ensures State() == AppState.TogglePanel(old(State()))
    {
      panelState := if panelState == Full then Peek else Full;
    }

    method OnCardEnter(place: Place)
      modifies this
      ensures State() == AppState.CardEntered(old(State()), place)
    {
      selectedRestaurantId := if place.placeId.Some? && place.placeId.value != "" then place.placeId else None;
    }

    method OnCardLeave()
      modifies this
      ensures State() == AppState.CardLeft(old(State()))
    {
      selectedRestaurantId := None;
    }
  }
}
