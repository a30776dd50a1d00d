/**
 * The place record the places provider hands back (`SimplePlace` in types.ts).
 * Every field is optional in the source, so every field is an `Option` here.
 * SDK objects are reduced to the values the rest of the program reads from them.
 */
module Places {
  import opened Options

  /** An opaque handle to an SDK object (map, marker); fresh handles stand for fresh objects. */
  type Handle = nat

  datatype LatLng = LatLng(lat: real, lng: real)

  /** `geometry: { location }`; the location itself may still be missing at run time. */
  datatype Geometry = Geometry(location: Option<LatLng>)

  /** A photo reference, reduced to the URL its `getUrl({maxWidth: 400, maxHeight: 400})` returns. */
  datatype Photo = Photo(url: string)

  /**
   * `opening_hours`: `openNow` is the deprecated flag from nearby search;
   * `isOpen` is the value the `isOpen()` method returns at render time (None when the method is absent).
   */
  datatype OpeningHours = OpeningHours(openNow: Option<bool>, isOpen: Option<bool>)

  datatype Place = Place(
    placeId: Option<string>,
    name: Option<string>,
    vicinity: Option<string>,
    formattedAddress: Option<string>,
    rating: Option<real>,
    userRatingsTotal: Option<nat>,
    geometry: Option<Geometry>,
    photos: Option<seq<Photo>>,
    openingHours: Option<OpeningHours>,
    priceLevel: Option<nat>,
    types: Option<seq<string>>)

  /** The place id as a JavaScript condition sees it: an absent or empty id is falsy. */
  function TruthyId(p: Place): (r: Option<string>)
    ensures r.Some? <==> p.placeId.Some? && p.placeId.value != ""
    ensures r.Some? ==> r == p.placeId
  {
    if p.placeId.Some? && p.placeId.value != "" then p.placeId else None
  }

  /** `place.geometry?.location`. */
  function Location(p: Place): Option<LatLng> {
    if p.geometry.Some? then p.geometry.value.location else None
  }

  /** How a template literal prints an optional string: an absent value prints as "undefined". */
  function Interpolate(s: Option<string>): string {
    match s
    case Some(v) => v
    case None => "undefined"
  }

  /** A place with nothing but an id (and optionally a location); used in concrete scenarios. */
  function Bare(id: Option<string>, location: Option<LatLng>): Place {
    Place(id, None, None, None, None, None,
          if location.Some? then Some(Geometry(location)) else None,
          None, None, None, None)
  }
}
