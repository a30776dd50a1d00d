/**
 * The search controller driven by a sequence of events: user actions and the SDK's callbacks.
 * The SDK holds one callback per issued request; a callback can only fire for a request that is
 * still pending, and firing consumes it. Callbacks may arrive in any order: the source has no guard
 * against a late answer to an older request.
 */
module SearchTrace {
  import opened Options
  import opened Places
  import opened AppState

  /** A request whose callback the browser or the places provider still holds. */
  datatype Request =
    | PositionFix(geo: GeoRequest)
    | Nearby(nearby: NearbyRequest)
    | TextSearch(text: TextSearchRequest)
    | Details(details: DetailsRequest)

  datatype Machine = Machine(view: View, pending: multiset<Request>)

  datatype Event =
    | Mounted
    | MapLoaded(handle: Handle)
    | QueryTyped(text: string)
    | LocateClicked(geolocationAvailable: bool)
    | SearchSubmitted
    | MarkerClicked(id: string)
    | CardEntered(place: Place)
    | CardLeft
    | PanelHandlePressed
    | BackPressed(geolocationAvailable: bool)
    | PositionFound(geo: GeoRequest, position: LatLng)
    | PositionFailed(geo: GeoRequest, code: GeoErrorCode)
    | NearbyAnswered(nearby: NearbyRequest, status: ServiceStatus, results: Option<seq<Place>>)
    | TextSearchAnswered(search: TextSearchRequest, status: ServiceStatus, results: Option<seq<Place>>)
    | DetailsAnswered(lookup: DetailsRequest, status: ServiceStatus, answer: Option<Place>)

  function Start(): Machine {
    Machine(Initial(), multiset{})
  }

  /** The request an event answers, if it is a callback. */
  function Answers(e: Event): Option<Request> {
    match e
    case PositionFound(q, _) => Some(PositionFix(q))
    case PositionFailed(q, _) => Some(PositionFix(q))
    case NearbyAnswered(q, _, _) => Some(Nearby(q))
    case TextSearchAnswered(q, _, _) => Some(TextSearch(q))
    case DetailsAnswered(q, _, _) => Some(Details(q))
    case _ => None
  }

  /** A callback can fire only for a pending request; user actions are always possible. */
  predicate Enabled(m: Machine, e: Event) {
    Answers(e).None? || Answers(e).value in m.pending
  }

  function Add(pending: multiset<Request>, r: Option<Request>): multiset<Request> {
    if r.Some? then pending + multiset{r.value} else pending
  }

  function AsFix(r: Option<GeoRequest>): Option<Request> {
    if r.Some? then Some(PositionFix(r.value)) else None
  }

  function AsNearby(r: Option<NearbyRequest>): Option<Request> {
    if r.Some? then Some(Nearby(r.value)) else None
  }

  /** One event applied to the machine; an event that is not enabled cannot happen and changes nothing. */
  function Next(m: Machine, e: Event): Machine {
    if !Enabled(m, e) then m
    else
      var v := m.view;
      var rest := if Answers(e).Some? then m.pending - multiset{Answers(e).value} else m.pending;
      match e
      case Mounted => Machine(MountEffect(v), rest)
      case MapLoaded(h) => Machine(MapLoad(v, h), rest)
      case QueryTyped(t) => Machine(AppState.QueryTyped(v, t), rest)
      case LocateClicked(ok) =>
        var s := RequestLocation(v, ok); Machine(s.view, Add(rest, AsFix(s.request)))
      case SearchSubmitted =>
        var s := Search(v); Machine(s.view, Add(rest, if s.request.Some? then Some(TextSearch(s.request.value)) else None))
      case MarkerClicked(id) => Machine(MarkerClick(v, id).view, rest)
      case CardEntered(p) => Machine(AppState.CardEntered(v, p), rest)
      case CardLeft => Machine(AppState.CardLeft(v), rest)
      case PanelHandlePressed => Machine(TogglePanel(v), rest)
      case BackPressed(ok) =>
        var s := ClearSearch(v, ok); Machine(s.view, Add(rest, AsFix(s.request)))
      case PositionFound(_, pos) =>
        var s := LocationFound(v, pos); Machine(s.view, Add(rest, AsNearby(s.request)))
      case PositionFailed(_, code) => Machine(LocationError(v, code), rest)
      case NearbyAnswered(_, st, rs) => Machine(NearbyResponse(v, st, rs), rest)
      case TextSearchAnswered(q, st, rs) =>
        var s := TextSearchResponse(v, q.query, st, rs);
        Machine(s.view, Add(rest, if s.request.Some? then Some(Details(s.request.value)) else None))
      case DetailsAnswered(_, st, p) => Machine(DetailsResponse(v, st, p).view, rest)
  }

  function Run(m: Machine, events: seq<Event>): Machine
    decreases |events|
  {
    if events == [] then m else Run(Next(m, events[0]), events[1..])
  }

  /**
   * What every reachable machine satisfies: a hidden panel means no error and nothing in flight
   * (so an error is always on screen), and while locating or searching nothing is listed or detailed.
   */
  ghost predicate Inv(m: Machine) {
    && (m.view.panel == Hidden ==> m.view.error.None? && m.pending == multiset{})
    && (InProgress(m.view.status) ==> m.view.restaurants == [] && m.view.detail.None?)
  }

  lemma UserActionKeepsInv(m: Machine, e: Event)
    requires Inv(m) && Answers(e).None?
    ensures Inv(Next(m, e))
  {
    match e
    case Mounted =>
    case MapLoaded(h) =>
    case QueryTyped(t) =>
    case LocateClicked(ok) =>
    case SearchSubmitted =>
    case MarkerClicked(id) =>
    case CardEntered(p) =>
    case CardLeft =>
    case PanelHandlePressed =>
    case BackPressed(ok) =>
  }

  lemma CallbackKeepsInv(m: Machine, e: Event)
    requires Inv(m) && Answers(e).Some?
    ensures Inv(Next(m, e))
  {
    if Enabled(m, e) {
      assert m.view.panel != Hidden by {
        assert m.pending != multiset{};
      }
      match e
      case PositionFound(_, pos) =>
      case PositionFailed(_, code) =>
      case NearbyAnswered(_, st, rs) =>
      case TextSearchAnswered(q, st, rs) =>
      case DetailsAnswered(_, st, p) =>
    }
  }

  lemma NextKeepsInv(m: Machine, e: Event)
    requires Inv(m)
    ensures Inv(Next(m, e))
  {
    if Answers(e).None? {
      UserActionKeepsInv(m, e);
    } else {
      CallbackKeepsInv(m, e);
    }
  }

  lemma {:induction false} RunKeepsInv(m: Machine, events: seq<Event>)
    requires Inv(m)
    ensures Inv(Run(m, events))
    decreases |events|
  {
    if events != [] {
      NextKeepsInv(m, events[0]);
      RunKeepsInv(Next(m, events[0]), events[1..]);
    }
  }

  /** Whatever happens, an error message is never left behind a hidden panel. */
  lemma ErrorIsAlwaysVisible(events: seq<Event>)
    ensures Run(Start(), events).view.error.Some? ==> Run(Start(), events).view.panel != Hidden
  {
    RunKeepsInv(Start(), events);
  }

  /** Whatever happens, while locating or searching the list is empty and no detail place is shown. */
  lemma InProgressShowsNothing(events: seq<Event>)
    ensures var v := Run(Start(), events).view;
      InProgress(v.status) ==> v.restaurants == [] && v.detail.None?
  {
    RunKeepsInv(Start(), events);
  }

  /**
   * Every nearby or text search and every location request is issued from a clean slate: the step
   * that issues it leaves the list empty, the detail view closed and the error cleared.
   */
  lemma NewSearchStartsClean(m: Machine, e: Event, r: Request)
    requires !r.Details?
    requires Next(m, e).pending[r] > m.pending[r]
    ensures Next(m, e).view.restaurants == [] && Next(m, e).view.detail.None? && Next(m, e).view.error.None?
  {
  }

  /** Events that only point at a place never change the status or the list. */
  lemma SelectionLeavesResults(m: Machine, e: Event)
    requires e.MarkerClicked? || e.CardEntered? || e.CardLeft?
    ensures Next(m, e).view.status == m.view.status
    ensures Next(m, e).view.restaurants == m.view.restaurants
    ensures Next(m, e).pending == m.pending
  {
  }

  lemma {:induction false} RunCons(m: Machine, e: Event, events: seq<Event>)
    ensures Run(m, [e] + events) == Run(Next(m, e), events)
  {
    assert ([e] + events)[1..] == events;
  }

  // The scenario of LateNearbyAnswerOverwritesDetail: the map loads and the mount effect runs, the user
  // locates, then searches by text while the nearby answer is still out.

  const Here := LatLng(1.0, 2.0)
  const Found := Bare(Some("p1"), None)
  const Other := Bare(Some("p2"), None)
  const NearHere := NearbyRequest(Here, NearbyRadius, NearbyKind)
  const PizzaSearch := TextSearchRequest("pizza", TextSearchFields, Some(Circle(Here, BiasRadius)))
  const FoundLookup := DetailsRequest("p1", DetailFields)

  /** The map's load effect runs before the app's mount effect: a child's effects run before its parent's. */
  function LateAnswerScenario(): seq<Event> {
    [ MapLoaded(7),
      Mounted,
      LocateClicked(true),
      PositionFound(PositionOptions, Here),
      QueryTyped("pizza"),
      SearchSubmitted,
      TextSearchAnswered(PizzaSearch, OK, Some([Found])),
      DetailsAnswered(FoundLookup, OK, Some(Found)),
      NearbyAnswered(NearHere, OK, Some([Other]))]
  }

  /** The view after the first four events (map load, mount, locate, the fix): the nearby search is out. */
  function AfterFix(): View {
    Initial().(mapRef := Some(7), initialLocationSet := true, status := Searching, panel := Peek,
               currentLocation := Some(Here))
  }

  lemma ScenarioLocates()
    ensures Run(Start(), LateAnswerScenario()) == Run(Machine(AfterFix(), multiset{Nearby(NearHere)}), LateAnswerScenario()[4..])
  {
    var es := LateAnswerScenario();
    var loaded := Initial().(mapRef := Some(7));
    var m1 := Next(Start(), es[0]);
    assert m1 == Machine(loaded, multiset{});
    var m2 := Next(m1, es[1]);
    assert m2 == Machine(loaded.(currentLocation := Some(NewYork), initialLocationSet := true), multiset{});
    var m3 := Next(m2, es[2]);
    assert m3 == Machine(loaded.(currentLocation := Some(NewYork), initialLocationSet := true, status := Locating, panel := Peek),
                         multiset{PositionFix(PositionOptions)});
    var m4 := Next(m3, es[3]);
    assert m4.pending == multiset{PositionFix(PositionOptions)} - multiset{PositionFix(PositionOptions)} + multiset{Nearby(NearHere)};
    assert m4 == Machine(AfterFix(), multiset{Nearby(NearHere)});
    RunCons(m3, es[3], es[4..]);
    RunCons(m2, es[2], es[3..]);
    RunCons(m1, es[1], es[2..]);
    RunCons(Start(), es[0], es[1..]);
    assert [es[3]] + es[4..] == es[3..];
    assert [es[2]] + es[3..] == es[2..];
    assert [es[1]] + es[2..] == es[1..];
    assert [es[0]] + es[1..] == es;
  }

  lemma ScenarioSearches()
    ensures var es := LateAnswerScenario();
      Run(Machine(AfterFix(), multiset{Nearby(NearHere)}), es[4..])
      == Run(Machine(AfterFix().(query := "pizza"), multiset{Nearby(NearHere), Details(FoundLookup)}), es[7..])
  {
    var es := LateAnswerScenario();
    var m4 := Machine(AfterFix(), multiset{Nearby(NearHere)});
    var m5 := Next(m4, es[4]);
    assert m5 == Machine(AfterFix().(query := "pizza"), multiset{Nearby(NearHere)});
    assert !JsText.AllWhitespace("pizza") by {
      assert !JsText.IsWhitespace("pizza"[0]);
    }
    var m6 := Next(m5, es[5]);
    assert m6 == Machine(AfterFix().(query := "pizza"), multiset{Nearby(NearHere), TextSearch(PizzaSearch)});
    var m7 := Next(m6, es[6]);
    assert m7 == Machine(AfterFix().(query := "pizza"), multiset{Nearby(NearHere), Details(FoundLookup)});
    RunCons(m6, es[6], es[7..]);
    RunCons(m5, es[5], es[6..]);
    RunCons(m4, es[4], es[5..]);
    assert [es[6]] + es[7..] == es[6..];
    assert [es[5]] + es[6..] == es[5..];
    assert [es[4]] + es[5..] == es[4..];
  }

  lemma ScenarioAnswers()
    ensures var v := Run(Machine(AfterFix().(query := "pizza"), multiset{Nearby(NearHere), Details(FoundLookup)}),
                         LateAnswerScenario()[7..]).view;
      v.detail == Some(Found) && v.restaurants == [Other] && v.panel == Peek
  {
    var es := LateAnswerScenario();
    var m7 := Machine(AfterFix().(query := "pizza"), multiset{Nearby(NearHere), Details(FoundLookup)});
    var m8 := Next(m7, es[7]);
    assert m8.view.detail == Some(Found);
    assert m8.pending == multiset{Nearby(NearHere)};
    var m9 := Next(m8, es[8]);
    assert m9.view.detail == Some(Found) && m9.view.restaurants == [Other] && m9.view.panel == Peek;
    RunCons(m8, es[8], []);
    RunCons(m7, es[7], es[8..]);
    assert [es[8]] + [] == es[8..];
    assert [es[7]] + es[8..] == es[7..];
  }

  /**
   * A late nearby answer is not discarded: after a text search has opened the detail view, the
   * answer to a nearby search issued before it replaces the list while the detail view stays open.
   */
  lemma LateNearbyAnswerOverwritesDetail()
    ensures var v := Run(Start(), LateAnswerScenario()).view;
      v.detail == Some(Found) && v.restaurants == [Other] && v.restaurants != [v.detail.value]
  {
    ScenarioLocates();
    ScenarioSearches();
    ScenarioAnswers();
  }
}
