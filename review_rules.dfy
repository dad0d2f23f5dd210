/** The checks of `Review` (part2 review.py): text, rating, and the two
    relationships; and the rating normalisation the facades apply to a
    review payload (`int(rating)`, then the range). */
module ReviewRules {
  import opened Wrappers
  import opened Values
  import opened Errors

  const MinRating: int := 1
  const MaxRating: int := 5

  /** `validate_text`: `if not text or not text.strip(): raise`. */
  function CheckText(v: Value): (r: Outcome<Error>)
    ensures r.Pass? <==> v.Str? && !IsBlank(v.s)
    ensures r.Fail? ==> r.error in {ReviewContentEmpty, NoStrip}
    ensures !Truthy(v) || (v.Str? && IsBlank(v.s)) ==> r == Fail(ReviewContentEmpty)
    ensures Truthy(v) && !v.Str? ==> r == Fail(NoStrip)
  {
    if !Truthy(v) then Fail(ReviewContentEmpty)
    else if !v.Str? then Fail(NoStrip)
    else if IsBlank(v.s) then Fail(ReviewContentEmpty)
    else Pass
  }

  /** `validate_rating`: `isinstance(rating, int)` (a bool is an int) and
      `1 <= rating <= 5`. */
  function CheckRating(v: Value): (r: Outcome<Error>)
    ensures r.Pass? <==> (v.Int? && MinRating <= v.i <= MaxRating) || v == Bool(true)
    ensures r.Fail? ==> r.error == RatingInvalid
  {
    match v
    case Int(i) => if MinRating <= i <= MaxRating then Pass else Fail(RatingInvalid)
    case Bool(b) => if b then Pass else Fail(RatingInvalid)
    case _ => Fail(RatingInvalid)
  }

  /** Both ends of the range are accepted and the neighbours outside are not. */
  lemma RatingBoundsInclusive()
    ensures CheckRating(Int(1)).Pass? && CheckRating(Int(5)).Pass?
    ensures CheckRating(Int(0)).Fail? && CheckRating(Int(6)).Fail?
    ensures CheckRating(Float(3.0)).Fail?
  {
  }

  /** Everything `Review.__init__` checks, in its order: text, rating, then
      `validate_relationships` (place before user). */
  function CheckReview(text: Value, rating: Value, hasPlace: bool, hasUser: bool): (r: Outcome<Error>)
    ensures r.Pass? <==> CheckText(text).Pass? && CheckRating(rating).Pass? && hasPlace && hasUser
    ensures CheckText(text).Fail? ==> r == CheckText(text)
    ensures CheckText(text).Pass? && CheckRating(rating).Fail? ==> r == Fail(RatingInvalid)
    ensures CheckText(text).Pass? && CheckRating(rating).Pass? && !hasPlace ==> r == Fail(ReviewNeedsPlace)
    ensures CheckText(text).Pass? && CheckRating(rating).Pass? && hasPlace && !hasUser ==> r == Fail(ReviewNeedsUser)
  {
    var t := CheckText(text);
    if t.Fail? then t else
    var g := CheckRating(rating);
    if g.Fail? then g
    else if !hasPlace then Fail(ReviewNeedsPlace)
    else if !hasUser then Fail(ReviewNeedsUser)
    else Pass
  }

  /** `if 'rating' in data: rating = int(data['rating']); if not 1 <= rating
      <= 5: raise; data['rating'] = rating`, every failure becoming the one
      "integer between 1 and 5" error. */
  function NormalizeRating(data: Record): (r: Result<Record, Error>)
    ensures r.Failure? ==> r.error == RatingInvalid
    ensures "rating" !in data ==> r == Success(data)
    ensures r.Failure? <==> "rating" in data && !(ToInt(data["rating"]).Some? && MinRating <= ToInt(data["rating"]).value <= MaxRating)
    ensures r.Success? ==> r.value.Keys == data.Keys &&
                           forall k :: k in data && k != "rating" ==> r.value[k] == data[k]
    ensures r.Success? && "rating" in data ==> r.value["rating"] == Int(ToInt(data["rating"]).value)
  {
    if "rating" !in data then Success(data)
    else match ToInt(data["rating"])
      case None => Failure(RatingInvalid)
      case Some(n) => if MinRating <= n <= MaxRating then Success(data["rating" := Int(n)]) else Failure(RatingInvalid)
  }

  /** A rating the facades let through is one `Review` itself accepts, and is
      the integer part of what was sent. */
  lemma {:induction false} NormalizedRatingIsValid(data: Record)
    requires NormalizeRating(data).Success? && "rating" in data
    ensures CheckRating(NormalizeRating(data).value["rating"]).Pass?
    ensures data["rating"].Float? ==> NormalizeRating(data).value["rating"] == Int(Truncate(data["rating"].f))
  {
  }

  /** Normalising twice is normalising once. */
  lemma NormalizeRatingIdempotent(data: Record)
    requires NormalizeRating(data).Success?
    ensures NormalizeRating(NormalizeRating(data).value) == NormalizeRating(data)
  {
    if "rating" in data {
      var d := NormalizeRating(data).value;
      assert d["rating"] == Int(ToInt(data["rating"]).value);
      assert d["rating" := d["rating"]] == d;
    }
  }
}
