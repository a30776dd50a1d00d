/**
 * The map view (components/MapComponent.tsx) as an object holding its refs: the map widget, the
 * dictionary from place id to marker, and the user-location marker. Its three effects are methods.
 * SDK objects are values carrying an opaque handle; a handle drawn from `nextHandle` stands for a
 * newly constructed SDK object, so "same handle" means "same marker, not recreated".
 */
module MapComponent {
  import opened Options
  import opened Places

  datatype Animation = NoAnimation | Bounce

  /** What a marker is built with and keeps: its position, its title and the id its click listener reports. */
  datatype Pin = Pin(position: LatLng, title: Option<string>, clickId: string)

  datatype Marker = Marker(handle: Handle, pin: Pin, animation: Animation, zIndex: Option<int>)

  datatype MapWidget = MapWidget(handle: Handle, center: LatLng, zoom: int)

  datatype UserMarker = UserMarker(handle: Handle, position: LatLng, title: string)

  const InitialZoom := 15
  const Origin := LatLng(0.0, 0.0)
  const SelectedZIndex := 100
  const RestingZIndex := 1
  const UserMarkerTitle := "Your Location"

  /** The key a place's marker lives under: only a place with a non-empty id and a location gets a marker. */
  function MarkerKey(p: Place): (r: Option<string>)
    ensures r.Some? ==> r.value != "" && r == p.placeId && Location(p).Some?
  {
    if TruthyId(p).Some? && Location(p).Some? then TruthyId(p) else None
  }

  /** The pin a marker is created with for place `p`. */
  function PinOf(p: Place): Pin
    requires MarkerKey(p).Some?
  {
    Pin(Location(p).value, p.name, p.placeId.value)
  }

  /** The ids `restaurants.find(r => r.place_id === id)` finds something for. */
  function ListedIds(places: seq<Place>): set<string> {
    set i | 0 <= i < |places| && places[i].placeId.Some? :: places[i].placeId.value
  }

  /** The keys of the places that get a marker. */
  function MarkedIds(places: seq<Place>): set<string> {
    set i | 0 <= i < |places| && MarkerKey(places[i]).Some? :: MarkerKey(places[i]).value
  }

  /** The key set one reconciliation pass leaves: surviving keys that are still listed, plus every marked id. */
  function ReconciledKeys(keys: set<string>, places: seq<Place>): set<string> {
    (keys * ListedIds(places)) + MarkedIds(places)
  }

  /** The highlight a processed marker gets: bouncing on top when selected, still and low otherwise. */
  function AnimationFor(key: string, selected: Option<string>): Animation {
    if selected == Some(key) then Bounce else NoAnimation
  }

  function ZIndexFor(key: string, selected: Option<string>): int {
    if selected == Some(key) then SelectedZIndex else RestingZIndex
  }

  /** The handles of the markers stored under `keys`. */
  function HandlesOf(markers: map<string, Marker>, keys: set<string>): set<Handle> {
    set k | k in keys && k in markers :: markers[k].handle
  }

  lemma HandlesOfAdd(markers: map<string, Marker>, keys: set<string>, key: string)
    requires key in markers
    ensures HandlesOf(markers, keys + {key}) == HandlesOf(markers, keys) + {markers[key].handle}
  {
  }

  /** `pin` is the pin of the first place in `places` whose marker key is `key`. */
  ghost predicate FirstPin(places: seq<Place>, key: string, pin: Pin) {
    exists i :: 0 <= i < |places| && MarkerKey(places[i]) == Some(key) && pin == PinOf(places[i])
      && forall j :: 0 <= j < i ==> MarkerKey(places[j]) != Some(key)
  }

  /** `restaurants.find(r => r.place_id === id)`. */
  function FindById(places: seq<Place>, id: string): (r: Option<Place>)
    ensures r.Some? <==> id in ListedIds(places)
    ensures r.Some? ==> r.value in places && r.value.placeId == Some(id)
  {
    if places == [] then None
    else if places[0].placeId == Some(id) then Some(places[0])
    else
      var rest := FindById(places[1..], id);
      assert ListedIds(places) == ListedIds(places[..1]) + ListedIds(places[1..]) by {
        forall k | k in ListedIds(places) ensures k in ListedIds(places[..1]) + ListedIds(places[1..]) {
          var i :| 0 <= i < |places| && places[i].placeId == Some(k);
          if i > 0 {
            assert places[1..][i - 1] == places[i];
          }
        }
        forall k | k in ListedIds(places[1..]) ensures k in ListedIds(places) {
          var i :| 0 <= i < |places[1..]| && places[1..][i].placeId == Some(k);
          assert places[i + 1] == places[1..][i];
        }
      }
      rest
  }

  /** Extending the list by one place adds at most that place's key to the marked ids. */
  lemma MarkedIdsSnoc(places: seq<Place>, p: Place)
    ensures MarkedIds(places + [p]) == MarkedIds(places) + (if MarkerKey(p).Some? then {MarkerKey(p).value} else {})
  {
    var s := places + [p];
    forall k | k in MarkedIds(s) ensures k in MarkedIds(places) || MarkerKey(p) == Some(k) {
      var i :| 0 <= i < |s| && MarkerKey(s[i]).Some? && MarkerKey(s[i]).value == k;
      if i < |places| {
        assert s[i] == places[i];
      }
    }
    forall k | k in MarkedIds(places) ensures k in MarkedIds(s) {
      var i :| 0 <= i < |places| && MarkerKey(places[i]).Some? && MarkerKey(places[i]).value == k;
      assert s[i] == places[i];
    }
    if MarkerKey(p).Some? {
      assert s[|places|] == p;
    }
  }

  /** Every marked id is a listed id, and never the empty string. */
  lemma MarkedAreListed(places: seq<Place>)
    ensures MarkedIds(places) <= ListedIds(places)
    ensures "" !in MarkedIds(places)
  {
    forall k | k in MarkedIds(places) ensures k in ListedIds(places) && k != "" {
      var i :| 0 <= i < |places| && MarkerKey(places[i]).Some? && MarkerKey(places[i]).value == k;
    }
  }

  /** Running the pass again on the same list leaves the same keys. */
  lemma ReconcileIdempotent(keys: set<string>, places: seq<Place>)
    ensures ReconciledKeys(ReconciledKeys(keys, places), places) == ReconciledKeys(keys, places)
  {
    MarkedAreListed(places);
  }

  /** Every key left after a pass belongs to a listed place: no stale marker survives. */
  lemma NoStaleKeys(keys: set<string>, places: seq<Place>)
    ensures ReconciledKeys(keys, places) <= ListedIds(places)
  {
    MarkedAreListed(places);
  }

  /**
   * When every listed place with an id also has a location (as nearby-search results do), the
   * key set after a pass is exactly the set of ids of the listed places, whatever it was before.
   */
  lemma KeysMatchResults(keys: set<string>, places: seq<Place>)
    requires "" !in keys
    requires forall i :: 0 <= i < |places| && TruthyId(places[i]).Some? ==> Location(places[i]).Some?
    ensures ReconciledKeys(keys, places) == MarkedIds(places)
    ensures MarkedIds(places) == ListedIds(places) - {""}
  {
    MarkedAreListed(places);
    forall k | k in ListedIds(places) && k != "" ensures k in MarkedIds(places) {
      var i :| 0 <= i < |places| && places[i].placeId == Some(k);
      assert MarkerKey(places[i]) == Some(k);
    }
  }

  /** A marker carries the highlight `selected` calls for. */
  predicate Highlighted(m: Marker, key: string, selected: Option<string>) {
    m.animation == AnimationFor(key, selected) && m.zIndex == Some(ZIndexFor(key, selected))
  }

  /** `m` is `m0` after the marking loop has handled `places[..n]`, new markers drawing handles from `h0` on. */
  ghost predicate MarkedUpTo(m0: map<string, Marker>, m: map<string, Marker>, places: seq<Place>, n: nat,
                             selected: Option<string>, h0: nat)
    requires n <= |places|
  {
    && m.Keys == m0.Keys + MarkedIds(places[..n])
    && (forall k :: k in m && k in m0 ==> m[k].handle == m0[k].handle && m[k].pin == m0[k].pin)
    && (forall k :: k in m && k !in m0 ==> h0 <= m[k].handle && FirstPin(places, k, m[k].pin))
    && (forall k :: k in m && k in MarkedIds(places[..n]) ==> Highlighted(m[k], k, selected))
    && (forall k :: k in m && k !in MarkedIds(places[..n]) ==> m[k] == m0[k])
  }

  /** What handling `places[i]` does to the markers, as ProcessPlace states it. */
  ghost predicate ProcessedOne(m: map<string, Marker>, m': map<string, Marker>, places: seq<Place>, i: nat,
                               selected: Option<string>, h: nat)
    requires i < |places|
  {
    && (MarkerKey(places[i]).None? ==> m' == m)
    && (MarkerKey(places[i]).Some? ==>
          var k := MarkerKey(places[i]).value;
          var anim, z := AnimationFor(k, selected), Some(ZIndexFor(k, selected));
          && (k in m ==> m' == m[k := m[k].(animation := anim, zIndex := z)])
          && (k !in m ==> m' == m[k := Marker(h, PinOf(places[i]), anim, z)]
                           && forall j :: 0 <= j < i ==> MarkerKey(places[j]) != Some(k)))
  }

  lemma MarkStep(m0: map<string, Marker>, m: map<string, Marker>, m': map<string, Marker>, places: seq<Place>,
                 i: nat, selected: Option<string>, h0: nat, h: nat)
    requires i < |places| && h0 <= h
    requires MarkedUpTo(m0, m, places, i, selected, h0)
    requires ProcessedOne(m, m', places, i, selected, h)
    ensures MarkedUpTo(m0, m', places, i + 1, selected, h0)
  {
    MarkedIdsSnoc(places[..i], places[i]);
    assert places[..i + 1] == places[..i] + [places[i]];
    if MarkerKey(places[i]).None? {
      assert MarkedIds(places[..i + 1]) == MarkedIds(places[..i]);
    } else if MarkerKey(places[i]).value in m {
      MarkStepUpdate(m0, m, m', places, i, selected, h0);
    } else {
      MarkStepCreate(m0, m, m', places, i, selected, h0, h);
    }
  }

  /** The step for a place whose marker already exists: only its highlight changes. */
  lemma MarkStepUpdate(m0: map<string, Marker>, m: map<string, Marker>, m': map<string, Marker>, places: seq<Place>,
                       i: nat, selected: Option<string>, h0: nat)
    requires i < |places| && MarkerKey(places[i]).Some? && MarkerKey(places[i]).value in m
    requires MarkedUpTo(m0, m, places, i, selected, h0)
    requires MarkedIds(places[..i + 1]) == MarkedIds(places[..i]) + {MarkerKey(places[i]).value}
    requires var k := MarkerKey(places[i]).value;
      m' == m[k := m[k].(animation := AnimationFor(k, selected), zIndex := Some(ZIndexFor(k, selected)))]
    ensures MarkedUpTo(m0, m', places, i + 1, selected, h0)
  {
    var k := MarkerKey(places[i]).value;
    var before, after := MarkedIds(places[..i]), MarkedIds(places[..i + 1]);
    assert m'.Keys == m.Keys;
    assert k in m0.Keys + before;
    assert m'.Keys == m0.Keys + after;
    forall x | x in m' ensures m'[x].handle == m[x].handle && m'[x].pin == m[x].pin {
    }
    forall x | x in m' && x in after ensures Highlighted(m'[x], x, selected) {
      if x != k {
        assert x in before;
      }
    }
    forall x | x in m' && x !in after ensures m'[x] == m0[x] {
      assert x != k && x !in before;
    }
  }

  /** The step for a place whose key is new: a marker with the next handle and the place's pin is added. */
  lemma MarkStepCreate(m0: map<string, Marker>, m: map<string, Marker>, m': map<string, Marker>, places: seq<Place>,
                       i: nat, selected: Option<string>, h0: nat, h: nat)
    requires i < |places| && h0 <= h && MarkerKey(places[i]).Some? && MarkerKey(places[i]).value !in m
    requires MarkedUpTo(m0, m, places, i, selected, h0)
    requires MarkedIds(places[..i + 1]) == MarkedIds(places[..i]) + {MarkerKey(places[i]).value}
    requires var k := MarkerKey(places[i]).value;
      && m' == m[k := Marker(h, PinOf(places[i]), AnimationFor(k, selected), Some(ZIndexFor(k, selected)))]
      && forall j :: 0 <= j < i ==> MarkerKey(places[j]) != Some(k)
    ensures MarkedUpTo(m0, m', places, i + 1, selected, h0)
  {
    var k := MarkerKey(places[i]).value;
    var before, after := MarkedIds(places[..i]), MarkedIds(places[..i + 1]);
    assert k !in m0;
    assert m'.Keys == m0.Keys + after;
    forall x | x in m' && x in m0 ensures m'[x].handle == m0[x].handle && m'[x].pin == m0[x].pin {
      assert x != k;
    }
    forall x | x in m' && x !in m0 ensures h0 <= m'[x].handle && FirstPin(places, x, m'[x].pin) {
      if x == k {
        assert MarkerKey(places[i]) == Some(k) && m'[k].pin == PinOf(places[i]);
      } else {
        assert m'[x] == m[x];
      }
    }
    forall x | x in m' && x in after ensures Highlighted(m'[x], x, selected) {
      if x != k {
        assert x in before;
      }
    }
    forall x | x in m' && x !in after ensures m'[x] == m0[x] {
      assert x != k && x !in before;
    }
  }

  class MapView {
    /** `mapInstance.current` */
    var mapInstance: Option<MapWidget>
    /** `markersRef.current` */
    var markers: map<string, Marker>
    /** `userMarkerRef.current` */
    var userMarker: Option<UserMarker>
    /** The handles passed to `onMapLoad`, in call order. */
    var loadedMaps: seq<Handle>
    /** Markers taken off the map with `setMap(null)`. */
    var detached: set<Handle>
    /** Every handle below this one has been handed out. */
    var nextHandle: nat

    ghost predicate Valid()
      reads this
    {
      && (mapInstance.None? ==> loadedMaps == [] && markers == map[] && userMarker.None?)
      && (mapInstance.Some? ==> loadedMaps == [mapInstance.value.handle] && mapInstance.value.handle < nextHandle)
      && (forall k :: k in markers ==> k != "" && markers[k].pin.clickId == k)
      && (forall k :: k in markers ==> markers[k].handle < nextHandle && markers[k].handle !in detached)
      && (forall k, k' :: k in markers && k' in markers && k != k' ==> markers[k].handle != markers[k'].handle)
      && (forall h :: h in detached ==> h < nextHandle)
      && (userMarker.Some? ==> userMarker.value.handle < nextHandle && userMarker.value.title == UserMarkerTitle)
      && (userMarker.Some? ==> forall k :: k in markers ==> markers[k].handle != userMarker.value.handle)
    }

    constructor ()
      ensures Valid()
      ensures mapInstance.None? && markers == map[] && userMarker.None? && loadedMaps == [] && detached == {}
    {
      mapInstance, markers, userMarker := None, map[], None;
      loadedMaps, detached, nextHandle := [], {}, 0;
    }

    /**
     * The first effect: once the container is mounted, builds the map (at `center`, or at 0,0 without
     * one) the first time only, and reports it through `onMapLoad`, so that happens exactly once.
     */
    method CreateMap(containerMounted: bool, center: Option<LatLng>)
      requires Valid()
      modifies this
      ensures Valid()
      ensures containerMounted && old(mapInstance).None? ==>
        && mapInstance == Some(MapWidget(old(nextHandle), center.GetOr(Origin), InitialZoom))
        && loadedMaps == [old(nextHandle)] && nextHandle == old(nextHandle) + 1
      ensures !(containerMounted && old(mapInstance).None?) ==>
        mapInstance == old(mapInstance) && loadedMaps == old(loadedMaps) && nextHandle == old(nextHandle)
      ensures markers == old(markers) && userMarker == old(userMarker) && detached == old(detached)
    {
      if containerMounted && mapInstance.None? {
        var widget := MapWidget(nextHandle, center.GetOr(Origin), InitialZoom);
        nextHandle := nextHandle + 1;
        mapInstance := Some(widget);
        loadedMaps := loadedMaps + [widget.handle];
      }
    }

    /**
     * The second effect: with a map and a centre, pans there, then creates the user marker the first
     * time and only moves it afterwards, so its handle never changes once it exists.
     */
    method SyncUserMarker(center: Option<LatLng>)
      requires Valid()
      modifies this
      ensures Valid()
      ensures old(mapInstance).None? || center.None? ==>
        mapInstance == old(mapInstance) && userMarker == old(userMarker) && nextHandle == old(nextHandle)
      ensures old(mapInstance).Some? && center.Some? ==>
        && mapInstance == Some(old(mapInstance).value.(center := center.value))
        && userMarker.Some? && userMarker.value.position == center.value
        && userMarker.value.title == UserMarkerTitle
        && (old(userMarker).Some? ==> userMarker.value.handle == old(userMarker).value.handle && nextHandle == old(nextHandle))
        && (old(userMarker).None? ==> userMarker.value.handle == old(nextHandle) && nextHandle == old(nextHandle) + 1)
      ensures markers == old(markers) && loadedMaps == old(loadedMaps) && detached == old(detached)
    {
      if mapInstance.Some? && center.Some? {
        mapInstance := Some(mapInstance.value.(center := center.value));
        if userMarker.None? {
          userMarker := Some(UserMarker(nextHandle, center.value, UserMarkerTitle));
          nextHandle := nextHandle + 1;
        } else {
          userMarker := Some(userMarker.value.(position := center.value));
        }
      }
    }

    /**
     * The third effect. Without a map it does nothing. Otherwise it first removes (and takes off the
     * map) every marker whose id no listed place has; then, for each listed place with an id and a
     * location, creates its marker if the id has none yet and sets its highlight from `selected`.
     */
    method Reconcile(places: seq<Place>, selected: Option<string>)
      requires Valid()
      modifies this
      ensures Valid()
      ensures mapInstance == old(mapInstance) && userMarker == old(userMarker) && loadedMaps == old(loadedMaps)
      ensures old(mapInstance).None? ==> markers == old(markers) && nextHandle == old(nextHandle) && detached == old(detached)
      ensures old(mapInstance).Some? ==> markers.Keys == ReconciledKeys(old(markers).Keys, places)
      ensures forall k :: k in markers && k in old(markers) ==>
        markers[k].handle == old(markers)[k].handle && markers[k].pin == old(markers)[k].pin
      ensures forall k :: k in markers && k !in old(markers) ==>
        old(nextHandle) <= markers[k].handle && FirstPin(places, k, markers[k].pin)
      ensures old(mapInstance).Some? ==> forall k :: k in markers && k in MarkedIds(places) ==>
        markers[k].animation == AnimationFor(k, selected) && markers[k].zIndex == Some(ZIndexFor(k, selected))
      ensures forall k :: k in markers && k !in MarkedIds(places) ==> markers[k] == old(markers)[k]
      ensures detached == old(detached) + HandlesOf(old(markers), old(markers).Keys - markers.Keys)
    {
      if mapInstance.None? {
        return;
      }
      RemoveStale(places);
      MarkAll(places, selected);
    }

    /** The second loop of the effect: every listed place with an id and a location gets its marker and highlight. */
    method MarkAll(places: seq<Place>, selected: Option<string>)
      requires Valid() && mapInstance.Some?
      modifies this`markers, this`nextHandle
      ensures Valid()
      ensures old(nextHandle) <= nextHandle
      ensures markers.Keys == old(markers).Keys + MarkedIds(places)
      ensures forall k :: k in markers && k in old(markers) ==>
        markers[k].handle == old(markers)[k].handle && markers[k].pin == old(markers)[k].pin
      ensures forall k :: k in markers && k !in old(markers) ==>
        old(nextHandle) <= markers[k].handle && FirstPin(places, k, markers[k].pin)
      ensures forall k :: k in markers && k in MarkedIds(places) ==>
        markers[k].animation == AnimationFor(k, selected) && markers[k].zIndex == Some(ZIndexFor(k, selected))
      ensures forall k :: k in markers && k !in MarkedIds(places) ==> markers[k] == old(markers)[k]
    {
      var i := 0;
      assert places[..0] == [];
      while i < |places|
        invariant 0 <= i <= |places|
        invariant Valid() && mapInstance.Some? && old(nextHandle) <= nextHandle
        invariant MarkedUpTo(old(markers), markers, places, i, selected, old(nextHandle))
      {
        ghost var before, h := markers, nextHandle;
        ProcessPlace(places, i, selected);
        assert ProcessedOne(before, markers, places, i, selected, h);
        MarkStep(old(markers), before, markers, places, i, selected, old(nextHandle), h);
        i := i + 1;
      }
      assert places[..i] == places;
    }

    /** The first loop of the effect: `delete` every key no listed place has, detaching its marker. */
    method RemoveStale(places: seq<Place>)
      requires Valid()
      modifies this
      ensures Valid()
      ensures mapInstance == old(mapInstance) && userMarker == old(userMarker) && loadedMaps == old(loadedMaps)
      ensures nextHandle == old(nextHandle)
      ensures markers.Keys == old(markers).Keys * ListedIds(places)
      ensures forall k :: k in markers ==> markers[k] == old(markers)[k]
      ensures detached == old(detached) + HandlesOf(old(markers), old(markers).Keys - markers.Keys)
    {
      var keys := markers.Keys;
      ghost var removed: set<string> := {};
      while keys != {}
        invariant keys <= old(markers).Keys
        invariant Valid() && mapInstance == old(mapInstance) && userMarker == old(userMarker)
        invariant loadedMaps == old(loadedMaps) && nextHandle == old(nextHandle)
        invariant removed == (old(markers).Keys - keys) - ListedIds(places)
        invariant markers == old(markers) - removed
        invariant detached == old(detached) + HandlesOf(old(markers), removed)
        decreases keys
      {
        var key :| key in keys;
        if FindById(places, key).None? {
          HandlesOfAdd(old(markers), removed, key);
          Detach(key);
          removed := removed + {key};
        }
        keys := keys - {key};
      }
      assert old(markers).Keys - markers.Keys == removed;
    }

    /** `markersRef.current[key].setMap(null); delete markersRef.current[key]`. */
    method Detach(key: string)
      requires Valid() && key in markers
      modifies this`markers, this`detached
      ensures Valid()
      ensures markers == old(markers) - {key}
      ensures detached == old(detached) + {old(markers)[key].handle}
    {
      detached := detached + {markers[key].handle};
      markers := markers - {key};
    }

    /** One iteration of the second loop, for `places[i]`: skip it, or create its marker once and highlight it. */
    method ProcessPlace(places: seq<Place>, i: nat, selected: Option<string>)
      requires i < |places|
      requires Valid() && mapInstance.Some?
      requires MarkedIds(places[..i]) <= markers.Keys
      modifies this`markers, this`nextHandle
      ensures Valid()
      ensures MarkerKey(places[i]).None? ==> markers == old(markers) && nextHandle == old(nextHandle)
      ensures MarkerKey(places[i]).Some? ==>
        var k := MarkerKey(places[i]).value;
        var lit := (AnimationFor(k, selected), Some(ZIndexFor(k, selected)));
        && (k in old(markers) ==>
              && markers == old(markers)[k := old(markers)[k].(animation := lit.0, zIndex := lit.1)]
              && nextHandle == old(nextHandle))
        && (k !in old(markers) ==>
              && markers == old(markers)[k := Marker(old(nextHandle), PinOf(places[i]), lit.0, lit.1)]
              && nextHandle == old(nextHandle) + 1
              && forall j :: 0 <= j < i ==> MarkerKey(places[j]) != Some(k))
    {
      var place := places[i];
      if Location(place).None? || TruthyId(place).None? {
        return;
      }
      var id := place.placeId.value;
      if id !in markers {
        assert forall j :: 0 <= j < i ==> MarkerKey(places[j]) != Some(id);
        CreateMarker(id, Pin(Location(place).value, place.name, id));
      }
      SetHighlight(id, selected == Some(id));
    }

    /** `new google.maps.Marker(...)` plus its click listener, stored under `id`. */
    method CreateMarker(id: string, pin: Pin)
      requires Valid() && mapInstance.Some?
      requires id !in markers && id != "" && pin.clickId == id
      modifies this`markers, this`nextHandle
      ensures Valid()
      ensures markers == old(markers)[id := Marker(old(nextHandle), pin, NoAnimation, None)]
      ensures nextHandle == old(nextHandle) + 1
    {
      markers := markers[id := Marker(nextHandle, pin, NoAnimation, None)];
      nextHandle := nextHandle + 1;
    }

    /** `marker.setAnimation(...)` and `marker.setZIndex(...)`. */
    method SetHighlight(id: string, isSelected: bool)
      requires Valid() && id in markers
      modifies this`markers
      ensures Valid()
      ensures markers == old(markers)[id := old(markers)[id].(
        animation := if isSelected then Bounce else NoAnimation,
        zIndex := Some(if isSelected then SelectedZIndex else RestingZIndex))]
    {
      markers := markers[id := markers[id].(animation := if isSelected then Bounce else NoAnimation)];
      markers := markers[id := markers[id].(zIndex := Some(if isSelected then SelectedZIndex else RestingZIndex))];
    }
  }
}
