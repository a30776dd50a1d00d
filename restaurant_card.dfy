/** The computed parts of one result-list card (components/RestaurantCard.tsx); the markup is not modelled. */
module RestaurantCard {
  import opened Options
  import opened Places
  import Stars

  const NoRatingText := "No rating"

  /** `renderStars` of the list card. */
  function RenderStars(rating: Option<real>): (row: Stars.StarRow)
    ensures rating.None? || rating.value == 0.0 ==> row == Stars.NoRating(NoRatingText)
    ensures 0.0 < rating.GetOr(0.0) <= 5.0 ==>
      && row.Stars? && row.full == rating.value.Floor
      && (row.half <==> rating.value - rating.value.Floor as real >= 0.5)
      && row.full + (if row.half then 1 else 0) + row.empty == 5
    ensures rating.GetOr(0.0) < 0.0 ==> row == Stars.InvalidArrayLength
  {
    var row := Stars.StarSplit(rating, NoRatingText);
    assert rating.Some? && 0.0 < rating.value <= 5.0 ==> row == Stars.StarSplit(rating, NoRatingText) by {
      if rating.Some? && 0.0 < rating.value <= 5.0 {
        Stars.StarsForProviderRange(rating.value, NoRatingText);
      }
    }
    assert rating.Some? && rating.value < 0.0 ==> row == Stars.InvalidArrayLength by {
      if rating.Some? && rating.value < 0.0 {
        Stars.NegativeRatingThrows(rating.value, NoRatingText);
      }
    }
    row
  }

  /** `opening_hours?.isOpen?.() ?? opening_hours?.open_now`: the method wins whenever it exists. */
  function OpenStatus(hours: Option<OpeningHours>): (r: Option<bool>)
    ensures hours.None? ==> r.None?
    ensures hours.Some? && hours.value.isOpen.Some? ==> r == hours.value.isOpen
    ensures hours.Some? && hours.value.isOpen.None? ==> r == hours.value.openNow
  {
    match hours
    case None => None
    case Some(h) => if h.isOpen.Some? then h.isOpen else h.openNow
  }

  /** The status line under the card: "Open Now", "Closed", or nothing when neither source says. */
  function OpenLabel(hours: Option<OpeningHours>): (r: Option<string>)
    ensures r == Some("Open Now") <==> OpenStatus(hours) == Some(true)
    ensures r == Some("Closed") <==> OpenStatus(hours) == Some(false)
    ensures r.None? <==> hours.None? || (hours.value.isOpen.None? && hours.value.openNow.None?)
  {
    match OpenStatus(hours)
    case Some(true) => Some("Open Now")
    case Some(false) => Some("Closed")
    case None => None
  }

  const PlaceholderPrefix := "https://picsum.photos/seed/"
  const PlaceholderSuffix := "/400/400"

  /** The placeholder picture, seeded by the place id as a template literal prints it. */
  function Placeholder(place: Place): string {
    PlaceholderPrefix + Interpolate(place.placeId) + PlaceholderSuffix
  }

  /** `photos?.[0]?.getUrl(...) || placeholder`: the first photo when there is one with a non-empty URL. */
  function ImageUrl(place: Place): (r: string)
    ensures place.photos.Some? && |place.photos.value| > 0 && place.photos.value[0].url != "" ==>
      r == place.photos.value[0].url
    ensures place.photos.None? || |place.photos.value| == 0 || place.photos.value[0].url == "" ==>
      r == Placeholder(place)
    ensures r != ""
  {
    var first := if place.photos.Some? && |place.photos.value| > 0 then place.photos.value[0].url else "";
    if first != "" then first else Placeholder(place)
  }

  /** `user_ratings_total || 0`. */
  function ReviewCount(place: Place): (r: nat)
    ensures place.userRatingsTotal.None? ==> r == 0
    ensures place.userRatingsTotal.Some? ==> r == place.userRatingsTotal.value
  {
    place.userRatingsTotal.GetOr(0)
  }

  const ElementIdPrefix := "restaurant-"

  /** The card's DOM id: the prefix followed by the place id (printed "undefined" when absent). */
  function ElementId(place: Place): (r: string)
    ensures |r| >= |ElementIdPrefix| && r[..|ElementIdPrefix|] == ElementIdPrefix
    ensures place.placeId.Some? ==> r[|ElementIdPrefix|..] == place.placeId.value
  {
    ElementIdPrefix + Interpolate(place.placeId)
  }

  /** Cards of places with different ids have different element ids. */
  lemma ElementIdsDistinct(p: Place, q: Place)
    requires p.placeId.Some? && q.placeId.Some? && p.placeId != q.placeId
    ensures ElementId(p) != ElementId(q)
  {
    assert ElementId(p)[|ElementIdPrefix|..] != ElementId(q)[|ElementIdPrefix|..];
  }
}
