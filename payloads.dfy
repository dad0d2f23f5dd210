/** The request-payload checks that the two facades (part2 and part3
    services/facade.py) share: the same statements appear in both, in the
    same order; only the way an existing user or place is looked up
    differs, so that answer is an argument here. */
module Payloads {
  import opened Wrappers
  import opened Values
  import opened Errors
  import UserRules
  import PlaceRules
  import ReviewRules

  /** `data['first_name']`, `data['last_name']`, `data['email']`, read in
      that order: the first missing key raises. Both `create_user`s and the
      part2 `update_user` start this way. */
  function UserKeysCheck(data: Record): (r: Outcome<Error>)
    ensures r.Pass? <==> "first_name" in data && "last_name" in data && "email" in data
    ensures "first_name" !in data ==> r == Fail(KeyMissing("first_name"))
    ensures "first_name" in data && "last_name" !in data ==> r == Fail(KeyMissing("last_name"))
    ensures "first_name" in data && "last_name" in data && "email" !in data ==> r == Fail(KeyMissing("email"))
  {
    if "first_name" !in data then Fail(KeyMissing("first_name"))
    else if "last_name" !in data then Fail(KeyMissing("last_name"))
    else if "email" !in data then Fail(KeyMissing("email"))
    else Pass
  }

  /** `create_user`: the three keys, then `User(...)` runs its checks. */
  function UserPayloadCheck(data: Record): (r: Outcome<Error>)
    ensures r.Pass? <==> UserKeysCheck(data).Pass? &&
                         UserRules.CheckUser(data["first_name"], data["last_name"], data["email"]).Pass?
    ensures UserKeysCheck(data).Fail? ==> r == UserKeysCheck(data)
    ensures UserKeysCheck(data).Pass? ==> r == UserRules.CheckUser(data["first_name"], data["last_name"], data["email"])
  {
    var keys := UserKeysCheck(data);
    if keys.Fail? then keys
    else UserRules.CheckUser(data["first_name"], data["last_name"], data["email"])
  }

  /** `if not data.get('title'): raise`, then `if len(data.get('title',
      '')) > 100: raise`. */
  function TitleGuard(data: Record): (r: Outcome<Error>)
    ensures r.Pass? <==> PlaceRules.ValidTitle(Get(data, "title", Null))
    ensures !Truthy(Get(data, "title", Null)) ==> r == Fail(TitleRequired)
    ensures r.Fail? ==> r.error in {TitleRequired, NoLen, TitleExceeds100}
  {
    var t := Get(data, "title", Null);
    if !Truthy(t) then Fail(TitleRequired)
    else match Len(t)
      case None => Fail(NoLen)
      case Some(n) => if n > PlaceRules.MaxTitleLength then Fail(TitleExceeds100) else Pass
  }

  /** The facades' title guard and `Place.validate_title` accept the same
      titles; they differ only in the wording of their errors. */
  lemma TitleGuardAgreesWithPlace(data: Record)
    ensures TitleGuard(data).Pass? <==> PlaceRules.CheckTitle(Get(data, "title", Null)).Pass?
    ensures TitleGuard(data) == Fail(TitleExceeds100) <==> PlaceRules.CheckTitle(Get(data, "title", Null)) == Fail(TitleOver100)
  {
  }

  /** `create_place` before its `try`: title, owner id present, owner
      known, then price, latitude and longitude. `ownerKnown` is the
      facade's answer for `data.get('owner_id')`. */
  function PlacePayloadCheck(data: Record, ownerKnown: bool): (r: Outcome<Error>)
    ensures r.Pass? <==> TitleGuard(data).Pass? && Truthy(Get(data, "owner_id", Null)) && ownerKnown &&
                         PlaceRules.NumberGuards(data).Pass?
    ensures TitleGuard(data).Fail? ==> r == TitleGuard(data)
    ensures TitleGuard(data).Pass? && !Truthy(Get(data, "owner_id", Null)) ==> r == Fail(OwnerIdRequired)
    ensures TitleGuard(data).Pass? && Truthy(Get(data, "owner_id", Null)) && !ownerKnown ==>
              r == Fail(OwnerNotFound(Get(data, "owner_id", Null)))
    ensures TitleGuard(data).Pass? && Truthy(Get(data, "owner_id", Null)) && ownerKnown ==>
              r == PlaceRules.NumberGuards(data)
  {
    var t := TitleGuard(data);
    if t.Fail? then t
    else if !Truthy(Get(data, "owner_id", Null)) then Fail(OwnerIdRequired)
    else if !ownerKnown then Fail(OwnerNotFound(Get(data, "owner_id", Null)))
    else PlaceRules.NumberGuards(data)
  }

  /** `float(data.get(key, 0.0))` once the guards have passed. */
  function FloatField(data: Record, key: string): (x: real)
    requires key in data ==> IsNumber(data[key])
    ensures key in data ==> Some(x) == Numeric(data[key])
    ensures key !in data ==> x == 0.0
  {
    if key in data then Numeric(data[key]).value else 0.0
  }

  /** A payload that passes the facades' checks describes a place the
      `Place` constructor accepts, once its owner is passed as `owner`. */
  lemma {:induction false} PayloadMakesValidPlace(data: Record)
    requires PlacePayloadCheck(data, true).Pass?
    ensures PlaceRules.CheckPlace(Get(data, "title", Null), true,
                                  Float(FloatField(data, "price")),
                                  Float(FloatField(data, "latitude")),
                                  Float(FloatField(data, "longitude"))).Pass?
  {
    PlaceRules.GuardsImplySetters(data);
    TitleGuardAgreesWithPlace(data);
  }

  /** `create_review`: user, then place (each `not id or id unknown`), then
      the rating normalisation, then `if not data.get('text'): raise`. The
      result is the payload with the rating rewritten. */
  function ReviewPayloadCheck(data: Record, userKnown: bool, placeKnown: bool): (r: Result<Record, Error>)
    ensures r.Success? <==> userKnown && placeKnown && ReviewRules.NormalizeRating(data).Success? &&
                            Truthy(Get(data, "text", Null))
    ensures !userKnown ==> r == Failure(UserNotFound(Get(data, "user_id", Null)))
    ensures userKnown && !placeKnown ==> r == Failure(PlaceNotFound(Get(data, "place_id", Null)))
    ensures userKnown && placeKnown && ReviewRules.NormalizeRating(data).Failure? ==> r == Failure(RatingInvalid)
    ensures userKnown && placeKnown && ReviewRules.NormalizeRating(data).Success? && !Truthy(Get(data, "text", Null)) ==>
              r == Failure(ReviewTextRequired)
    ensures r.Success? ==> r == ReviewRules.NormalizeRating(data)
  {
    if !userKnown then Failure(UserNotFound(Get(data, "user_id", Null)))
    else if !placeKnown then Failure(PlaceNotFound(Get(data, "place_id", Null)))
    else
      var normal :- ReviewRules.NormalizeRating(data);
      if !Truthy(Get(normal, "text", Null)) then Failure(ReviewTextRequired) else Success(normal)
  }

  /** `update_review` before it writes: `user_id` and `place_id`, when sent,
      must equal (Python `==`) the stored ones; then the rating
      normalisation; then `if 'text' in data and not data['text']: raise`. */
  function ReviewUpdateCheck(data: Record, storedUser: Value, storedPlace: Value): (r: Result<Record, Error>)
    ensures r.Success? <==> ("user_id" !in data || Equal(data["user_id"], storedUser)) &&
                            ("place_id" !in data || Equal(data["place_id"], storedPlace)) &&
                            ReviewRules.NormalizeRating(data).Success? &&
                            ("text" !in data || Truthy(data["text"]))
    ensures "user_id" in data && !Equal(data["user_id"], storedUser) ==> r == Failure(UserIdImmutable)
    ensures ("user_id" !in data || Equal(data["user_id"], storedUser)) && "place_id" in data &&
              !Equal(data["place_id"], storedPlace) ==>
              r == Failure(PlaceIdImmutable)
    ensures r.Success? ==> r == ReviewRules.NormalizeRating(data)
  {
    if "user_id" in data && !Equal(data["user_id"], storedUser) then Failure(UserIdImmutable)
    else if "place_id" in data && !Equal(data["place_id"], storedPlace) then Failure(PlaceIdImmutable)
    else
      var normal :- ReviewRules.NormalizeRating(data);
      if "text" in normal && !Truthy(normal["text"]) then Failure(ReviewTextRequired) else Success(normal)
  }

  /** Sending the stored ids back is accepted: only a different id is
      refused, not a present one. */
  lemma SameIdsAccepted(data: Record, storedUser: Value, storedPlace: Value)
    requires "user_id" in data && data["user_id"] == storedUser
    requires "place_id" in data && data["place_id"] == storedPlace
    requires ReviewRules.NormalizeRating(data).Success? && ("text" !in data || Truthy(data["text"]))
    ensures ReviewUpdateCheck(data, storedUser, storedPlace).Success?
  {
    EqualIsReflexiveAndSymmetric(storedUser, storedUser);
    EqualIsReflexiveAndSymmetric(storedPlace, storedPlace);
  }

  /** `user.get('is_test_user', False)` (part2) and `getattr(user,
      'is_test_user', False)` (part3): the flag that hides a user from
      `get_users`. */
  predicate IsTestUser(u: Record)
  {
    Truthy(Get(u, "is_test_user", Bool(false)))
  }

  /** The fields of a new place taken from the payload: the title, the
      description (`''` when absent) and the three numbers as floats (0.0 when
      absent); together they describe a place the `Place` constructor accepts. */
  function PlaceFields(data: Record): (r: Record)
    requires PlacePayloadCheck(data, true).Pass?
    ensures r.Keys == {"title", "description", "price", "latitude", "longitude"}
    ensures r["title"] == data["title"] && r["description"] == Get(data, "description", Str(""))
    ensures r["price"] == Float(FloatField(data, "price"))
    ensures r["latitude"] == Float(FloatField(data, "latitude"))
    ensures r["longitude"] == Float(FloatField(data, "longitude"))
    ensures PlaceRules.CheckPlace(r["title"], true, r["price"], r["latitude"], r["longitude"]).Pass?
  {
    PayloadMakesValidPlace(data);
    map["title" := data["title"], "description" := Get(data, "description", Str("")),
        "price" := Float(FloatField(data, "price")),
        "latitude" := Float(FloatField(data, "latitude")),
        "longitude" := Float(FloatField(data, "longitude"))]
  }
}
