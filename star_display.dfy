/**
 * The star row that shows a rating: whole stars for the integer part, a half star when
 * the fraction is at least one half, and empty stars for the rest of the row.
 */
module StarDisplay {

  /** The number of each kind of star drawn. */
  datatype Stars = Stars(full: nat, half: bool, empty: nat)

  /** The row of `totalStars` stars for a rating. A negative rating is not accepted:
      a negative count of whole stars cannot be drawn. */
  function StarsOf(rating: real, totalStars: nat): (s: Stars)
    requires rating >= 0.0
    ensures s.full == rating.Floor
    ensures s.half <==> rating - s.full as real >= 0.5
    ensures s.empty == if totalStars - s.full - (if s.half then 1 else 0) > 0
                       then totalStars - s.full - (if s.half then 1 else 0) else 0
  {
    var full := rating.Floor;
    var half := rating - full as real >= 0.5;
    var empty := totalStars - full - (if half then 1 else 0);
    Stars(full, half, if empty > 0 then empty else 0)
  }

  /** `StarDisplay` with the default row of five. */
  function FiveStars(rating: real): (s: Stars)
    requires rating >= 0.0
    ensures s.full == rating.Floor
    ensures rating <= 5.0 ==> s.full + (if s.half then 1 else 0) + s.empty == 5
  {
    var s := StarsOf(rating, 5);
    assert rating <= 5.0 ==> s.full + (if s.half then 1 else 0) + s.empty == 5 by {
      if rating <= 5.0 {
        RowIsFull(rating, 5);
      }
    }
    s
  }

  /** A rating within the row fills exactly the row: whole, half and empty stars add up
      to the number of stars. */
  lemma RowIsFull(rating: real, totalStars: nat)
    requires 0.0 <= rating <= totalStars as real
    ensures var s := StarsOf(rating, totalStars);
      s.full + (if s.half then 1 else 0) + s.empty == totalStars
  {
    var s := StarsOf(rating, totalStars);
    assert s.full as real <= rating;
    if s.full == totalStars {
      assert rating == totalStars as real;
    }
  }

  /** The stars drawn round the rating down to a half: what is lit is at most the
      rating and less than half a star below it. */
  lemma LitStarsRoundDown(rating: real, totalStars: nat)
    requires rating >= 0.0
    ensures var s := StarsOf(rating, totalStars);
      var lit := s.full as real + (if s.half then 0.5 else 0.0);
      lit <= rating < lit + 0.5
  {
  }

  /** A rating above the row draws no empty star and no more than its whole stars. */
  lemma RatingAboveRow(rating: real, totalStars: nat)
    requires rating >= totalStars as real + 1.0
    ensures StarsOf(rating, totalStars).empty == 0
    ensures StarsOf(rating, totalStars).full > totalStars
  {
  }
}
