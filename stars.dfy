/**
 * The arithmetic of `renderStars`, which PlaceDetailCard.tsx and RestaurantCard.tsx each define
 * identically except for the text shown when there is no rating.
 * Ratings are exact reals: floating-point rounding is not modelled.
 */
module Stars {
  import opened Options

  datatype StarRow =
    | NoRating(message: string)
    /** `full` filled stars, one half star when `half`, then `empty` grey stars. */
    | Stars(full: nat, half: bool, empty: nat)
    /** `Array(n)` with a negative `n` throws a RangeError, so nothing is rendered. */
    | InvalidArrayLength

  /** `Math.trunc`. */
  function Trunc(r: real): int {
    if r >= 0.0 then r.Floor else -((-r).Floor)
  }

  /** `r % 1` in JavaScript: the remainder takes the sign of the dividend. */
  function FractionalPart(r: real): real {
    r - Trunc(r) as real
  }

  /**
   * `renderStars(rating)`: an absent or zero rating (both falsy) shows `noRatingText`;
   * otherwise `Math.floor(rating)` full stars, a half star when `rating % 1 >= 0.5`,
   * and `5 - full - half` empty stars.
   */
  function StarSplit(rating: Option<real>, noRatingText: string): (row: StarRow)
    ensures row == NoRating(noRatingText) <==> rating.None? || rating.value == 0.0
    ensures row.Stars? ==> row.full + (if row.half then 1 else 0) + row.empty == 5
    ensures row.Stars? ==> row.full == rating.value.Floor
  {
    if rating.None? || rating.value == 0.0 then NoRating(noRatingText)
    else
      var r := rating.value;
      var full := r.Floor;
      var half := FractionalPart(r) >= 0.5;
      var empty := 5 - full - (if half then 1 else 0);
      if full < 0 || empty < 0 then InvalidArrayLength else Stars(full, half, empty)
  }

  /** Every rating the provider can return (0 < rating <= 5) renders as exactly five stars. */
  lemma StarsForProviderRange(rating: real, noRatingText: string)
    requires 0.0 < rating <= 5.0
    ensures var row := StarSplit(Some(rating), noRatingText);
      && row.Stars?
      && row.full == rating.Floor
      && (row.half <==> rating - rating.Floor as real >= 0.5)
      && row.full + (if row.half then 1 else 0) + row.empty == 5
  {
    assert 0 <= rating.Floor <= 5;
    if rating.Floor == 5 {
      assert rating == 5.0;
    }
  }

  /** A negative rating makes `Array(Math.floor(rating))` throw. */
  lemma NegativeRatingThrows(rating: real, noRatingText: string)
    requires rating < 0.0
    ensures StarSplit(Some(rating), noRatingText) == InvalidArrayLength
  {
    assert rating.Floor < 0;
  }

  /** Above five, the split survives only below 5.5 (five full stars, nothing else); from 5.5 on the empty count is negative. */
  lemma RatingAboveFive(rating: real, noRatingText: string)
    requires rating > 5.0
    ensures rating < 5.5 ==> StarSplit(Some(rating), noRatingText) == Stars(5, false, 0)
    ensures rating >= 5.5 ==> StarSplit(Some(rating), noRatingText) == InvalidArrayLength
  {
    assert rating.Floor >= 5;
    if rating < 5.5 {
      assert rating.Floor == 5;
    }
  }
}
