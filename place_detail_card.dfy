/** The computed parts of the detail card (components/PlaceDetailCard.tsx); the markup itself is not modelled. */
module PlaceDetailCard {
  import opened Options
  import opened Places
  import opened JsText
  import Stars

  const NoRatingText := "No rating available"

  /** `renderStars` of the detail card. */
  function RenderStars(rating: Option<real>): (row: Stars.StarRow)
    ensures rating.None? || rating.value == 0.0 ==> row == Stars.NoRating(NoRatingText)
    ensures 0.0 < rating.GetOr(0.0) <= 5.0 ==>
      && row.Stars? && row.full == rating.value.Floor
      && (row.half <==> rating.value - rating.value.Floor as real >= 0.5)
      && row.full + (if row.half then 1 else 0) + row.empty == 5
    ensures rating.GetOr(0.0) < 0.0 ==> row == Stars.InvalidArrayLength
  {
    var row := Stars.StarSplit(rating, NoRatingText);
    assert rating.Some? && 0.0 < rating.value <= 5.0 ==> row == Stars.StarSplit(rating, NoRatingText) by {
      if rating.Some? && 0.0 < rating.value <= 5.0 {
        Stars.StarsForProviderRange(rating.value, NoRatingText);
      }
    }
    assert rating.Some? && rating.value < 0.0 ==> row == Stars.InvalidArrayLength by {
      if rating.Some? && rating.value < 0.0 {
        Stars.NegativeRatingThrows(rating.value, NoRatingText);
      }
    }
    row
  }

  /** `formatPriceLevel`: nothing for an absent tier, else a middle dot, a space and one `$` per tier. */
  function FormatPriceLevel(level: Option<nat>): (r: string)
    ensures level.None? ==> r == ""
    ensures level.Some? ==> |r| == 2 + level.value && r[..2] == "· "
    ensures level.Some? ==> forall i :: 2 <= i < |r| ==> r[i] == '$'
  {
    match level
    case None => ""
    case Some(n) => "· " + Repeat('$', n)
  }

  const PreferredTypes: seq<string> := ["restaurant", "cafe", "bar", "meal_delivery", "meal_takeaway"]

  /** Every label `getPlaceType` can produce. */
  const PlaceTypeLabels: set<string> := {"Restaurant", "Cafe", "Bar", "Meal Delivery", "Meal Takeaway", "Place"}

  /** `types.find(t => preferredTypes.includes(t))`: the first preferred tag, in the order of `types`. */
  function FindPreferred(types: seq<string>): (r: Option<string>)
    ensures r.None? <==> forall i :: 0 <= i < |types| ==> types[i] !in PreferredTypes
    ensures r.Some? ==> r.value in PreferredTypes
    ensures r.Some? ==>
      exists i :: 0 <= i < |types| && types[i] == r.value && forall j :: 0 <= j < i ==> types[j] !in PreferredTypes
  {
    if types == [] then None
    else if types[0] in PreferredTypes then Some(types[0])
    else
      var rest := FindPreferred(types[1..]);
      assert forall i :: 1 <= i < |types| ==> types[i] == types[1..][i - 1];
      rest
  }

  /** `t.replace(/_/g, ' ').replace(/\b\w/g, l => l.toUpperCase())`. */
  function Humanize(t: string): (r: string)
    ensures |r| == |t|
    ensures forall i :: 0 <= i < |r| ==> r[i] != '_'
  {
    var spaced := ReplaceChar(t, '_', ' ');
    assert forall i :: 0 <= i < |spaced| ==> spaced[i] != '_';
    CapitalizeWords(spaced)
  }

  /** The five preferred tags humanize to their display labels. */
  lemma HumanizePreferred()
    ensures Humanize("restaurant") == "Restaurant"
    ensures Humanize("cafe") == "Cafe"
    ensures Humanize("bar") == "Bar"
    ensures Humanize("meal_delivery") == "Meal Delivery"
    ensures Humanize("meal_takeaway") == "Meal Takeaway"
  {
    assert ReplaceChar("restaurant", '_', ' ') == "restaurant";
    assert ReplaceChar("cafe", '_', ' ') == "cafe";
    assert ReplaceChar("bar", '_', ' ') == "bar";
    assert ReplaceChar("meal_delivery", '_', ' ') == "meal delivery";
    assert ReplaceChar("meal_takeaway", '_', ' ') == "meal takeaway";
    assert CapitalizeWords("restaurant") == "Restaurant";
    assert CapitalizeWords("cafe") == "Cafe";
    assert CapitalizeWords("bar") == "Bar";
    assert CapitalizeWords("meal delivery") == "Meal Delivery";
    assert CapitalizeWords("meal takeaway") == "Meal Takeaway";
  }

  /**
   * `getPlaceType`: absent tags read as a restaurant; otherwise the first preferred tag, humanized;
   * a list without a preferred tag (the empty list included) reads as a generic place.
   */
  function GetPlaceType(types: Option<seq<string>>): (r: string)
    ensures types.None? ==> r == "Restaurant"
    ensures types.Some? && FindPreferred(types.value).None? ==> r == "Place"
    ensures types.Some? && FindPreferred(types.value).Some? ==> r == Humanize(FindPreferred(types.value).value)
    ensures r in PlaceTypeLabels
    ensures forall i :: 0 <= i < |r| ==> r[i] != '_'
  {
    HumanizePreferred();
    match types
    case None => "Restaurant"
    case Some(ts) =>
      match FindPreferred(ts)
      case Some(t) => Humanize(t)
      case None => "Place"
  }

  const DirectionsPrefix := "https://www.google.com/maps/dir/?api=1&destination_place_id="
  const SearchPrefix := "https://www.google.com/maps/search/?api=1&query="

  /**
   * `directionsUrl`: route to the place id when the place has a (non-empty) id, otherwise search for
   * its name passed through `encode` (the browser's `encodeURIComponent`, not modelled), the empty name when absent.
   */
  function DirectionsUrl(place: Place, encode: string -> string): (r: string)
    ensures TruthyId(place).Some? ==> r == DirectionsPrefix + place.placeId.value
    ensures TruthyId(place).None? ==> r == SearchPrefix + encode(place.name.GetOr(""))
  {
    if TruthyId(place).Some? then DirectionsPrefix + place.placeId.value
    else SearchPrefix + encode(place.name.GetOr(""))
  }

  /** The open/closed line: shown only when `opening_hours.isOpen()` exists, and then it agrees with it. */
  function OpenLabel(hours: Option<OpeningHours>): (r: Option<string>)
    ensures r == Some("Open") <==> hours.Some? && hours.value.isOpen == Some(true)
    ensures r == Some("Closed") <==> hours.Some? && hours.value.isOpen == Some(false)
    ensures r.None? <==> hours.None? || hours.value.isOpen.None?
  {
    var isOpen := if hours.Some? then hours.value.isOpen else None;
    match isOpen
    case Some(true) => Some("Open")
    case Some(false) => Some("Closed")
    case None => None
  }
}
