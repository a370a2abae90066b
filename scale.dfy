/**
 * The linear rescale of `SurveyResponse.normalize_value` and
 * `SurveyResponse.normalize_rating`: a bounded ordinal answer is mapped onto
 * the axis [-1, 1] by `2 * (value - min) / (max - min) - 1`.
 *
 * Python's `/` on two integers is true division; the result is modelled as
 * an exact rational. For integer answers it is a multiple of 1/2; a binary
 * float represents such a value exactly only while its magnitude is below
 * 2^53, which every answer the validators admit is. Larger integers would be
 * rounded by Python and are not rounded here.
 */
module Scale {
  import opened Base

  /** Lower and upper bound of the agreement and confidence scales (validators 1..5). */
  const ValueMin: int := 1
  const ValueMax: int := 5
  /** Lower and upper bound of the category ratings (validators 1..3). */
  const RatingMin: int := 1
  const RatingMax: int := 3

  /** `2 * (value - lo) / (hi - lo) - 1`. */
  function Rescale(value: real, lo: int, hi: int): real
    requires lo < hi
  {
    2.0 * (value - lo as real) / (hi - lo) as real - 1.0
  }

  /** The answer that `Rescale` maps to `r`: the inverse of the linear map. */
  function Unscale(r: real, lo: int, hi: int): real
    requires lo < hi
  {
    lo as real + (r + 1.0) * (hi - lo) as real / 2.0
  }

  /** `normalize_value` with its defaults `min_val=1, max_val=5`. */
  function NormalizeValue(value: Option<int>): (r: Option<real>)
    ensures r.Some? <==> value.Some?
  {
    match value
    case None => None
    case Some(v) => Some(Rescale(v as real, ValueMin, ValueMax))
  }

  /** `normalize_rating` with its defaults `min_val=1, max_val=3`. */
  function NormalizeRating(value: Option<int>): (r: Option<real>)
    ensures r.Some? <==> value.Some?
  {
    match value
    case None => None
    case Some(v) => Some(Rescale(v as real, RatingMin, RatingMax))
  }

  /** The rescale is a bijection: the answer is recovered from its normalised value. */
  lemma UnscaleRescale(value: real, lo: int, hi: int)
    requires lo < hi
    ensures Unscale(Rescale(value, lo, hi), lo, hi) == value
  {
    var w := (hi - lo) as real;
    calc {
      Unscale(Rescale(value, lo, hi), lo, hi);
      lo as real + (2.0 * (value - lo as real) / w) * w / 2.0;
      { assert (2.0 * (value - lo as real) / w) * w == 2.0 * (value - lo as real); }
      value;
    }
  }

  /** A larger answer always has a larger normalised value. */
  lemma RescaleStrictlyIncreasing(v: real, w: real, lo: int, hi: int)
    requires lo < hi && v < w
    ensures Rescale(v, lo, hi) < Rescale(w, lo, hi)
  {
    var d := (hi - lo) as real;
    assert 2.0 * (v - lo as real) < 2.0 * (w - lo as real);
    assert 2.0 * (v - lo as real) / d < 2.0 * (w - lo as real) / d;
  }

  /** The ends of the declared range land on -1 and 1. */
  lemma RescaleEnds(lo: int, hi: int)
    requires lo < hi
    ensures Rescale(lo as real, lo, hi) == -1.0 && Rescale(hi as real, lo, hi) == 1.0
  {
  }

  /** Every answer within the declared range lands within [-1, 1]. */
  lemma RescaleWithin(value: real, lo: int, hi: int)
    requires lo < hi && lo as real <= value <= hi as real
    ensures -1.0 <= Rescale(value, lo, hi) <= 1.0
  {
    if value > lo as real { RescaleStrictlyIncreasing(lo as real, value, lo, hi); }
    if value < hi as real { RescaleStrictlyIncreasing(value, hi as real, lo, hi); }
    RescaleEnds(lo, hi);
  }

  /**
   * On the 1..5 scale: 1 -> -1, 2 -> -0.5, 3 -> 0, 4 -> 0.5, 5 -> 1; in
   * general the value is (v - 3) / 2.
   */
  lemma NormalizeValueClosedForm(v: int)
    ensures NormalizeValue(Some(v)) == Some((v - 3) as real / 2.0)
    ensures NormalizeValue(Some(1)) == Some(-1.0) && NormalizeValue(Some(3)) == Some(0.0)
    ensures NormalizeValue(Some(5)) == Some(1.0)
  {
  }

  /** On the 1..3 scale: 1 -> -1, 2 -> 0, 3 -> 1; in general the value is v - 2. */
  lemma NormalizeRatingClosedForm(v: int)
    ensures NormalizeRating(Some(v)) == Some((v - 2) as real)
    ensures NormalizeRating(Some(1)) == Some(-1.0) && NormalizeRating(Some(2)) == Some(0.0)
    ensures NormalizeRating(Some(3)) == Some(1.0)
  {
  }

  /** For an answer the validators accept, the normalised value lies in [-1, 1]. */
  lemma NormalizedWithinBounds(v: int)
    ensures ValueMin <= v <= ValueMax ==> -1.0 <= NormalizeValue(Some(v)).value <= 1.0
    ensures RatingMin <= v <= RatingMax ==> -1.0 <= NormalizeRating(Some(v)).value <= 1.0
  {
    if ValueMin <= v <= ValueMax { RescaleWithin(v as real, ValueMin, ValueMax); }
    if RatingMin <= v <= RatingMax { RescaleWithin(v as real, RatingMin, RatingMax); }
  }
}
