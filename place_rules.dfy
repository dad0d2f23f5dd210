/** The checks of `Place` (part3 place.py): the static title and owner
    validators and the price, latitude and longitude setters; and the range
    guards the two facades apply to a place payload before they build or
    change a place. */
module PlaceRules {
  import opened Wrappers
  import opened Values
  import opened Errors

  const MaxTitleLength: nat := 100
  const MaxLatitude: real := 90.0
  const MaxLongitude: real := 180.0

  /** A title `validate_title` accepts: truthy and with a length of at most 100. */
  ghost predicate ValidTitle(v: Value)
  {
    Truthy(v) && Len(v).Some? && Len(v).value <= MaxTitleLength
  }

  /** `validate_title`: `if not title: raise`, then `if len(title) > 100: raise`. */
  function CheckTitle(v: Value): (r: Outcome<Error>)
    ensures r.Pass? <==> ValidTitle(v)
    ensures v.Str? ==> (r.Pass? <==> 1 <= |v.s| <= MaxTitleLength)
    ensures !Truthy(v) ==> r == Fail(TitleEmpty)
    ensures Truthy(v) && Len(v).None? ==> r == Fail(NoLen)
    ensures Truthy(v) && Len(v).Some? && Len(v).value > MaxTitleLength ==> r == Fail(TitleOver100)
  {
    if !Truthy(v) then Fail(TitleEmpty)
    else match Len(v)
      case None => Fail(NoLen)
      case Some(n) => if n > MaxTitleLength then Fail(TitleOver100) else Pass
  }

  /** The price setter: `isinstance(value, (int, float))`, then `value < 0`;
      the stored value is `float(value)`. */
  function CheckPrice(v: Value): (r: Result<real, Error>)
    ensures r.Success? <==> IsNumber(v) && Numeric(v).value >= 0.0
    ensures r.Success? ==> r.value >= 0.0 && Some(r.value) == Numeric(v)
    ensures !IsNumber(v) ==> r == Failure(PriceNotNumber)
    ensures IsNumber(v) && Numeric(v).value < 0.0 ==> r == Failure(PriceNegative)
  {
    match Numeric(v)
    case None => Failure(PriceNotNumber)
    case Some(x) => if x < 0.0 then Failure(PriceNegative) else Success(x)
  }

  /** The shared shape of the latitude and longitude setters: a number in
      `[-bound, bound]`, both ends included. */
  function CheckCoordinate(v: Value, bound: real, notNumber: Error, outOfRange: Error): (r: Result<real, Error>)
    ensures r.Success? <==> IsNumber(v) && -bound <= Numeric(v).value <= bound
    ensures r.Success? ==> Some(r.value) == Numeric(v) && -bound <= r.value <= bound
    ensures !IsNumber(v) ==> r == Failure(notNumber)
    ensures IsNumber(v) && !(-bound <= Numeric(v).value <= bound) ==> r == Failure(outOfRange)
  {
    match Numeric(v)
    case None => Failure(notNumber)
    case Some(x) => if -bound <= x <= bound then Success(x) else Failure(outOfRange)
  }

  function CheckLatitude(v: Value): (r: Result<real, Error>)
    ensures r.Success? <==> IsNumber(v) && -90.0 <= Numeric(v).value <= 90.0
    ensures r.Success? ==> Some(r.value) == Numeric(v)
    ensures r.Failure? ==> r.error in {LatitudeNotNumber, LatitudeOutOfRange}
  {
    CheckCoordinate(v, MaxLatitude, LatitudeNotNumber, LatitudeOutOfRange)
  }

  function CheckLongitude(v: Value): (r: Result<real, Error>)
    ensures r.Success? <==> IsNumber(v) && -180.0 <= Numeric(v).value <= 180.0
    ensures r.Success? ==> Some(r.value) == Numeric(v)
    ensures r.Failure? ==> r.error in {LongitudeNotNumber, LongitudeOutOfRange}
  {
    CheckCoordinate(v, MaxLongitude, LongitudeNotNumber, LongitudeOutOfRange)
  }

  /** The bounds are inclusive: exactly the four extreme values are accepted
      and anything past them is refused. */
  lemma CoordinateBoundsInclusive(x: real)
    ensures CheckLatitude(Float(90.0)).Success? && CheckLatitude(Float(-90.0)).Success?
    ensures CheckLongitude(Float(180.0)).Success? && CheckLongitude(Float(-180.0)).Success?
    ensures x > 90.0 ==> CheckLatitude(Float(x)) == Failure(LatitudeOutOfRange)
    ensures x > 180.0 ==> CheckLongitude(Float(x)) == Failure(LongitudeOutOfRange)
  {
  }

  /** Everything `Place.__init__` checks, in its order: title, owner, then
      the price, latitude and longitude setters. */
  function CheckPlace(title: Value, hasOwner: bool, price: Value, latitude: Value, longitude: Value): (r: Outcome<Error>)
    ensures r.Pass? <==> ValidTitle(title) && hasOwner && CheckPrice(price).Success? &&
                         CheckLatitude(latitude).Success? && CheckLongitude(longitude).Success?
    ensures !ValidTitle(title) ==> r == CheckTitle(title)
    ensures ValidTitle(title) && !hasOwner ==> r == Fail(PlaceNeedsOwner)
    ensures ValidTitle(title) && hasOwner && CheckPrice(price).Failure? ==> r == Fail(CheckPrice(price).error)
    ensures ValidTitle(title) && hasOwner && CheckPrice(price).Success? && CheckLatitude(latitude).Failure? ==>
              r == Fail(CheckLatitude(latitude).error)
    ensures ValidTitle(title) && hasOwner && CheckPrice(price).Success? && CheckLatitude(latitude).Success? &&
              CheckLongitude(longitude).Failure? ==>
              r == Fail(CheckLongitude(longitude).error)
  {
    var t := CheckTitle(title);
    if t.Fail? then t
    else if !hasOwner then Fail(PlaceNeedsOwner)
    else if CheckPrice(price).Failure? then Fail(CheckPrice(price).error)
    else if CheckLatitude(latitude).Failure? then Fail(CheckLatitude(latitude).error)
    else if CheckLongitude(longitude).Failure? then Fail(CheckLongitude(longitude).error)
    else Pass
  }

  // The facades' guards over a request payload.

  /** A facade's `if 'price' in data and float(data['price']) < 0: raise`. */
  function PriceGuard(data: Record): (r: Outcome<Error>)
    ensures r.Pass? <==> "price" !in data || (IsNumber(data["price"]) && Numeric(data["price"]).value >= 0.0)
    ensures r.Fail? ==> r.error in {NotANumber("price"), PriceNegative}
    ensures "price" in data && !IsNumber(data["price"]) ==> r == Fail(NotANumber("price"))
    ensures "price" in data && IsNumber(data["price"]) && Numeric(data["price"]).value < 0.0 ==> r == Fail(PriceNegative)
  {
    if "price" !in data then Pass
    else match Numeric(data["price"])
      case None => Fail(NotANumber("price"))
      case Some(x) => if x < 0.0 then Fail(PriceNegative) else Pass
  }

  /** A facade's `if key in data and not -bound <= float(data[key]) <= bound: raise`. */
  function RangeGuard(data: Record, key: string, bound: real, outOfRange: Error): (r: Outcome<Error>)
    ensures r.Pass? <==> key !in data || (IsNumber(data[key]) && -bound <= Numeric(data[key]).value <= bound)
    ensures r.Fail? ==> r.error in {NotANumber(key), outOfRange}
    ensures key in data && !IsNumber(data[key]) ==> r == Fail(NotANumber(key))
    ensures key in data && IsNumber(data[key]) && !(-bound <= Numeric(data[key]).value <= bound) ==> r == Fail(outOfRange)
  {
    if key !in data then Pass
    else match Numeric(data[key])
      case None => Fail(NotANumber(key))
      case Some(x) => if -bound <= x <= bound then Pass else Fail(outOfRange)
  }

  /** The three numeric guards in the order the facades run them: price,
      latitude, longitude. */
  function NumberGuards(data: Record): (r: Outcome<Error>)
    ensures r.Pass? <==>
      PriceGuard(data).Pass? &&
      RangeGuard(data, "latitude", MaxLatitude, LatitudeOutOfRange).Pass? &&
      RangeGuard(data, "longitude", MaxLongitude, LongitudeOutOfRange).Pass?
    ensures PriceGuard(data).Fail? ==> r == PriceGuard(data)
    ensures PriceGuard(data).Pass? && RangeGuard(data, "latitude", MaxLatitude, LatitudeOutOfRange).Fail? ==>
      r == RangeGuard(data, "latitude", MaxLatitude, LatitudeOutOfRange)
    ensures PriceGuard(data).Pass? && RangeGuard(data, "latitude", MaxLatitude, LatitudeOutOfRange).Pass? ==>
      r == RangeGuard(data, "longitude", MaxLongitude, LongitudeOutOfRange)
  {
    var p := PriceGuard(data);
    if p.Fail? then p else
    var la := RangeGuard(data, "latitude", MaxLatitude, LatitudeOutOfRange);
    if la.Fail? then la else
    RangeGuard(data, "longitude", MaxLongitude, LongitudeOutOfRange)
  }

  /** A payload that passes the facades' guards holds values the `Place`
      setters accept: the facade and the model agree on the ranges. */
  lemma GuardsImplySetters(data: Record)
    requires NumberGuards(data).Pass?
    ensures "price" in data ==> CheckPrice(data["price"]).Success?
    ensures "latitude" in data ==> CheckLatitude(data["latitude"]).Success?
    ensures "longitude" in data ==> CheckLongitude(data["longitude"]).Success?
  {
  }

  /** Conversely, a present number the setters refuse makes the guards fail
      with the facade's own error. */
  lemma SettersRefusalIsGuarded(data: Record)
    ensures "price" in data && CheckPrice(data["price"]) == Failure(PriceNegative) ==>
      NumberGuards(data) == Fail(PriceNegative)
    ensures "price" in data && CheckPrice(data["price"]) == Failure(PriceNotNumber) ==>
      NumberGuards(data) == Fail(NotANumber("price"))
    ensures PriceGuard(data).Pass? && "latitude" in data && CheckLatitude(data["latitude"]).Failure? ==>
      NumberGuards(data).Fail?
  {
  }
}
