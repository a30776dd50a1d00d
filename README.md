# Restaurant finder: a verified model of the search controller, the map view and the place cards

The application shows a Google map and a panel of nearby restaurants. The user can locate
themselves, and the app then runs a 1.5 km nearby search. They can also type a query, which runs a text
search and then looks up the details of the first hit. This project models four parts of it in Dafny:

- **The search controller** (`App.tsx`), modelled three ways:
  - `AppState` is a pure reducer. Its state is the component's `useState` values plus its two refs, as
    a `View`. Each handler becomes a transition function. Each asynchronous provider call is split
    into the handler that issues the request and a response function that takes what the callback
    receives.
  - `AppController.App` is a class with the same fields as the component. Its methods run the same
    setter calls one by one. Each method proves that its new state equals the `AppState` transition.
  - `SearchTrace` is an event machine. Pending provider requests are a multiset, and callbacks can
    only fire for a pending request, in any order. It proves a trace invariant over every event
    sequence: an error is never hidden, and nothing is listed while locating or searching. It also
    proves, by a concrete event sequence, that a late nearby-search answer overwrites the
    detail view's list.
- **The map view** (`components/MapComponent.tsx`) is the class `MapComponent.MapView`. Its fields
  are the component's refs. Provider objects are values with an opaque handle.
  - The map is created once.
  - The user marker is created once and moved afterwards.
  - Reconciliation has two loops. The first removes and detaches markers whose id is no longer
    listed. The second creates a marker once per new id and sets the
    highlight of every listed place with an id and a location.
  - The lemmas state that the resulting key set is idempotent and contains no stale keys.
- **The star row** (`Stars`) is the arithmetic both cards share: full, half and empty stars from a
  rating. JavaScript truthiness is modelled: a rating of 0 shows the "no rating" text. A negative
  rating makes `Array(n)` throw, which the model returns as `InvalidArrayLength`.
- **The cards** (`components/PlaceDetailCard.tsx`, `components/RestaurantCard.tsx`): the price level,
  the place-type label, the directions link, the open/closed label, the image URL fallback, the
  review count and the card's element id.

Shared modules: `Options` (an optional value), `Places` (the place record of `types.ts`, with
JavaScript truthiness of the id) and `JsText` (the string built-ins the source calls: `repeat`,
`trim` and the two `replace` calls of the place-type label).

## Model

| member | source | states |
|---|---|---|
| Places.TruthyId | types.ts:10-11 | an id is usable exactly when it is present and non-empty, as JavaScript truthiness decides |
| JsText.Repeat | components/PlaceDetailCard.tsx:30 | `repeat(n)` yields exactly n copies of the character |
| JsText.TrimStart | App.tsx:135 | the result is empty or starts with a non-whitespace character |
| JsText.TrimEmptyIffBlank | App.tsx:135 | a query trims to the empty string exactly when every character is whitespace |
| Stars.StarSplit | components/PlaceDetailCard.tsx:10-26 | "no rating" exactly when the rating is absent or 0; otherwise full = floor(rating), and full + half + empty = 5 whenever a row is drawn |
| Stars.StarsForProviderRange | components/RestaurantCard.tsx:12-28 | for 0 < rating <= 5 a row is drawn, full = floor(rating), a half star exactly when the fractional part is at least 0.5, and five stars in all |
| Stars.NegativeRatingThrows | components/RestaurantCard.tsx:14-19 | a negative rating gives a negative `Array` length, which throws |
| Stars.RatingAboveFive | components/RestaurantCard.tsx:14-19 | above 5 and below 5.5 the row is five full stars; from 5.5 on the empty count is negative, which throws |
| PlaceDetailCard.RenderStars | components/PlaceDetailCard.tsx:10-26 | "No rating available" for an absent or zero rating; within the provider's range, floor(rating) full stars, a half star exactly when the fraction is at least 0.5, five in all; a negative rating throws |
| PlaceDetailCard.FormatPriceLevel | components/PlaceDetailCard.tsx:28-31 | empty when the level is absent; otherwise "· " followed by exactly `level` dollar signs |
| PlaceDetailCard.FindPreferred | components/PlaceDetailCard.tsx:35-36 | finds the first tag that is a preferred type, and finds nothing exactly when no tag is |
| PlaceDetailCard.Humanize | components/PlaceDetailCard.tsx:37 | a humanised tag keeps its length and has no underscores |
| PlaceDetailCard.HumanizePreferred | components/PlaceDetailCard.tsx:35-37 | the five preferred tags display as "Restaurant", "Cafe", "Bar", "Meal Delivery" and "Meal Takeaway" |
| PlaceDetailCard.GetPlaceType | components/PlaceDetailCard.tsx:33-38 | "Restaurant" without tags, "Place" when no tag is preferred, otherwise the humanised first preferred tag; always one of six labels |
| PlaceDetailCard.DirectionsUrl | components/PlaceDetailCard.tsx:41 | a directions link by place id when the id is truthy, otherwise a search link for the encoded name ("" when it has none) |
| PlaceDetailCard.OpenLabel | components/PlaceDetailCard.tsx:42 | "Open" exactly when `isOpen()` is true, "Closed" exactly when it is false, and nothing otherwise |
| RestaurantCard.RenderStars | components/RestaurantCard.tsx:12-28 | "No rating" for an absent or zero rating; within the provider's range, floor(rating) full stars, a half star exactly when the fraction is at least 0.5, five in all; a negative rating throws |
| RestaurantCard.OpenStatus | components/RestaurantCard.tsx:32 | `isOpen()` when it answers, otherwise the older `open_now` flag |
| RestaurantCard.OpenLabel | components/RestaurantCard.tsx:49-54 | "Open Now" exactly when the status is true, "Closed" exactly when it is false, and nothing when neither source answers |
| RestaurantCard.ImageUrl | components/RestaurantCard.tsx:31 | the first photo's URL when it is non-empty, otherwise the placeholder seeded by the id; never empty |
| RestaurantCard.ReviewCount | components/RestaurantCard.tsx:47 | the rating count, or 0 when it is absent |
| RestaurantCard.ElementId | components/RestaurantCard.tsx:36 | the element id is "restaurant-" followed by the place id |
| RestaurantCard.ElementIdsDistinct | components/RestaurantCard.tsx:36 | places with different ids get different element ids |
| AppState.MountEffect | App.tsx:30-35 | the first run centres on New York and sets the flag; once the flag is set the effect changes nothing; nothing else changes |
| AppState.FindRestaurants | App.tsx:37-58 | without a map or a location: an error at peek and no request; otherwise it searches with a cleared slate and a 1.5 km restaurant request at the explicit or current location |
| AppState.NearbyResponse | App.tsx:60-74 | OK with results lists them and succeeds at peek, with the "none within 1.5km" error when the list is empty; anything else is an error that keeps the list |
| AppState.RequestLocation | App.tsx:77-119 | always clears the results, detail and selection at peek; a request with the fixed position options is issued exactly when geolocation exists; otherwise the "not supported" error |
| AppState.LocationFound | App.tsx:87-92 | the fix becomes the current location; with a map, the nearby search starts there on a clean slate (no list, detail, selection or error) at peek; without one, the "map isn't ready" error at peek; query and map are kept |
| AppState.LocationError | App.tsx:93-112 | always an error; the permission help text exactly for a denial, the generic message otherwise; nothing else changes |
| AppState.MarkerClick | App.tsx:121-127 | selects the id at peek, and scrolls to the card `restaurant-<id>` exactly when no detail is shown; nothing else changes |
| AppState.ClickScrollsToCard | App.tsx:125 | a marker click scrolls to exactly the element id the place's card carries |
| AppState.MapLoad | App.tsx:129-131 | stores the map and changes nothing else |
| AppState.QueryTyped | App.tsx:240 | stores the typed text and changes nothing else |
| AppState.Search | App.tsx:133-155 | a blank query does nothing; without a map the "map isn't ready" error at peek, with nothing else changed; otherwise a text search for the query asking for `place_id` only, biased to a 20 km circle around the current location exactly when there is one, with results, detail and error cleared and the selection kept |
| AppState.TextSearchResponse | App.tsx:157-165 | an OK answer whose first hit has an id requests that place's details and changes nothing; anything else is a "No results found" error naming the query |
| AppState.DetailsResponse | App.tsx:166-182 | success shows exactly that place, selected, in the full panel, and moves to its location when it has one, while an earlier error stays set; failure is an error that changes nothing else |
| AppState.ClearSearch | App.tsx:190-195 | leaves the detail view with an empty query and no selection, then locates afresh: the fixed-options request and Locating with no error when geolocation exists, the "not supported" error otherwise; map, location and mount flag are kept |
| AppState.TogglePanel | App.tsx:254 | the handle never hides the panel; it collapses to peek exactly from full |
| AppState.CardEntered | App.tsx:273 | hovering a card selects its id (nothing for an empty id) and changes nothing else |
| AppState.CardLeft | App.tsx:274 | leaving a card clears the selection and changes nothing else |
| AppState.PanelHeight | App.tsx:197-204 | each panel state has its own height class |
| AppController.App.constructor | App.tsx:15-25 | the component mounts with the initial state |
| AppController.App.MountEffect | App.tsx:30-35 | the setter sequence ends in the `MountEffect` transition |
| AppController.App.FindRestaurants | App.tsx:37-58 | the setter sequence ends in the `FindRestaurants` transition and returns its request |
| AppController.App.OnNearbySearch | App.tsx:60-74 | the callback's setter sequence ends in the `NearbyResponse` transition |
| AppController.App.HandleRequestLocationAndSearch | App.tsx:77-119 | the setter sequence ends in the `RequestLocation` transition |
| AppController.App.OnPosition | App.tsx:87-92 | the position callback ends in the `LocationFound` transition |
| AppController.App.OnPositionError | App.tsx:93-112 | the error callback ends in the `LocationError` transition |
| AppController.App.HandleMarkerClick | App.tsx:121-127 | ends in the `MarkerClick` transition and returns the element to scroll to |
| AppController.App.HandleMapLoad | App.tsx:129-131 | ends in the `MapLoad` transition |
| AppController.App.SetSearchQuery | App.tsx:240 | ends in the `QueryTyped` transition |
| AppController.App.HandleSearch | App.tsx:133-155 | ends in the `Search` transition and returns its request |
| AppController.App.OnTextSearch | App.tsx:157-187 | ends in the `TextSearchResponse` transition |
| AppController.App.OnPlaceDetails | App.tsx:166-182 | ends in the `DetailsResponse` transition and returns where the map pans |
| AppController.App.HandleClearSearch | App.tsx:190-195 | ends in the `ClearSearch` transition |
| AppController.App.TogglePanel | App.tsx:254 | ends in the `TogglePanel` transition |
| AppController.App.OnCardEnter | App.tsx:273 | ends in the `CardEntered` transition |
| AppController.App.OnCardLeave | App.tsx:274 | ends in the `CardLeft` transition |
| SearchTrace.UserActionKeepsInv | App.tsx:77-155 | every user action keeps the invariant: a hidden panel has no error and nothing in flight, and while locating or searching nothing is listed or detailed |
| SearchTrace.CallbackKeepsInv | App.tsx:60-74 | every provider or browser callback keeps the same invariant |
| SearchTrace.NextKeepsInv | App.tsx:37-195 | every event keeps the invariant |
| SearchTrace.RunKeepsInv | App.tsx:37-195 | every event sequence keeps the invariant |
| SearchTrace.ErrorIsAlwaysVisible | App.tsx:252-262 | in every reachable state an error is shown in a panel that is not hidden |
| SearchTrace.InProgressShowsNothing | App.tsx:46-48 | in every reachable state, while locating or searching, no results and no detail are shown |
| SearchTrace.NewSearchStartsClean | App.tsx:46-50 | any event that issues a position, nearby or text request leaves the list, the detail and the error empty |
| SearchTrace.SelectionLeavesResults | App.tsx:121-127 | selecting or deselecting never changes the status, the results or the pending requests |
| SearchTrace.RunCons | App.tsx:37-195 | running one event then the rest equals running the whole sequence |
| SearchTrace.ScenarioLocates | App.tsx:30-35 | map load, then the mount effect (in the order child and parent effects run), then locate and the fix, leave a nearby search pending at the fix |
| SearchTrace.ScenarioSearches | App.tsx:133-165 | typing and searching while it is pending adds a details lookup |
| SearchTrace.ScenarioAnswers | App.tsx:166-182 | the details answer opens the detail view, and the nearby answer still pending then replaces its list |
| SearchTrace.LateNearbyAnswerOverwritesDetail | App.tsx:60-62 | on a run from a fresh start, a late nearby answer replaces the list under an open detail view, so the list no longer holds the shown place |
| MapComponent.MarkerKey | components/MapComponent.tsx:68 | a place gets a marker only with a non-empty id and a location, and the key is that id |
| MapComponent.FindById | components/MapComponent.tsx:61 | `find` by id succeeds exactly for listed ids, and returns a listed place with that id |
| MapComponent.HandlesOfAdd | components/MapComponent.tsx:62 | detaching one more key adds exactly that marker's handle |
| MapComponent.MarkedIdsSnoc | components/MapComponent.tsx:67-68 | one more place adds at most its own key to the marked ids |
| MapComponent.MarkedAreListed | components/MapComponent.tsx:61-68 | every marked id is listed and non-empty |
| MapComponent.ReconcileIdempotent | components/MapComponent.tsx:56-85 | a second pass over the same list leaves the same key set |
| MapComponent.NoStaleKeys | components/MapComponent.tsx:59-65 | after a pass, every key belongs to a listed place |
| MapComponent.KeysMatchResults | components/MapComponent.tsx:56-85 | when every listed place with an id has a location, the keys after a pass are exactly the non-empty listed ids |
| MapComponent.MarkStep | components/MapComponent.tsx:67-84 | handling one more place keeps the marking loop's invariant |
| MapComponent.MarkStepUpdate | components/MapComponent.tsx:80-83 | a place whose marker exists only changes that marker's highlight |
| MapComponent.MarkStepCreate | components/MapComponent.tsx:70-78 | a place with a new key adds one marker with a fresh handle and the first such place's pin |
| MapComponent.MapView.constructor | components/MapComponent.tsx:15-18 | no map, no markers and no user marker at mount |
| MapComponent.MapView.CreateMap | components/MapComponent.tsx:20-31 | the map is built once, at the centre or at 0,0 with zoom 15, and reported to `onMapLoad` exactly once |
| MapComponent.MapView.SyncUserMarker | components/MapComponent.tsx:33-54 | with a map and a centre: pans there; creates the "Your Location" marker the first time and afterwards only moves it, keeping its handle |
| MapComponent.MapView.Reconcile | components/MapComponent.tsx:56-85 | the keys become the surviving listed keys plus every marked id; old markers keep handle and pin; new ones are fresh, with the pin of the first place with that key; marked ones carry the selection highlight; removed markers are detached |
| MapComponent.MapView.RemoveStale | components/MapComponent.tsx:59-65 | exactly the unlisted keys are deleted, and their markers detached |
| MapComponent.MapView.Detach | components/MapComponent.tsx:62-63 | one marker is taken off the map and its key deleted |
| MapComponent.MapView.MarkAll | components/MapComponent.tsx:67-84 | the keys grow by the marked ids; markers are created only for new ids; every marked one is highlighted per the selection |
| MapComponent.MapView.ProcessPlace | components/MapComponent.tsx:68-83 | a place without id or location is skipped; otherwise its marker is created if missing and its highlight set |
| MapComponent.MapView.CreateMarker | components/MapComponent.tsx:70-78 | adds one marker with a fresh handle, the place's position and title, and a click listener for its id |
| MapComponent.MapView.SetHighlight | components/MapComponent.tsx:80-83 | bounce and z-index 100 when selected, no animation and z-index 1 otherwise |

## Left out

- Rendering is not modelled: JSX, CSS classes, the spinner and icons, `scrollIntoView` (only its target id is modelled) and the photo grid. The same goes for `toFixed(1)` of the rating and the raw `(user_ratings_total)` text in the detail card.
- Provider objects (map, markers, `PlacesService`, `LatLng`) are values with opaque handles. `panTo` after a details answer is recorded as the returned focus; the `setZoom(16)` beside it and the user marker icon's styling are not modelled.
- `encodeURIComponent` is a parameter of `PlaceDetailCard.DirectionsUrl`.
- `photo.getUrl(...)` is reduced to a URL stored in the photo.
- Geolocation, the browser's availability check and the provider's answers are inputs to the transitions.
- Ratings are exact reals, not IEEE doubles.
- `%` is taken as JavaScript's remainder, which truncates toward zero.
- PlaceDetailCard.FormatPriceLevel: the price level is a natural number. A negative or fractional level would make `repeat` throw or truncate, and that case is not modelled.
- React's scheduling is not modelled. Setter calls are applied in order, and each handler reads the state of the render it was created in, `searchQuery` included.
- AppState.TextSearchResponse takes the query the search was issued with, as the closure captures it.
- Concurrency beyond interleaving is not modelled. `SearchTrace` lets callbacks arrive in any order but runs each atomically.
- The `error` element is either a plain message or the permission-help block, whose text is not modelled.
- Geolocation failures have only two messages: the permission-denied help, and one generic message that POSITION_UNAVAILABLE and TIMEOUT share (App.tsx:94-95).
- The code centres on New York at mount and does not locate on its own. It has no message timers and no route overlay, so the model has none either.
- JavaScript object-key quirks are not modelled. Keys such as `__proto__` and own-property shadowing are outside the model, and the marker dictionary is a finite map.
