/** The self-validating entities: `User` (part3 user.py), `Place` (part3
    place.py), `Review` (part2 review.py) and `Amenity` (part2 amenity.py).
    Python's constructors raise on bad input; here each entity has a static
    `Create` that returns the error instead, and a constructor that may only
    be called once the checks have passed. Every entity holds a `BaseModel`
    for its id and timestamps. */
module Models {
  import opened Wrappers
  import opened Values
  import opened Errors
  import opened Records
  import opened BaseModels
  import UserRules
  import PlaceRules
  import ReviewRules
  import AmenityRules

  class User {
    const base: BaseModel
    const firstName: Value
    const lastName: Value
    const email: Value
    const isAdmin: Value
    var reviews: seq<Review>

    /** What the constructor's checks guarantee, and no review listed twice. */
    ghost predicate Valid()
      reads this
    {
      UserRules.ValidName(firstName) && UserRules.ValidName(lastName) && UserRules.ValidEmail(email) &&
      NoDuplicates(reviews)
    }

    constructor Init(base: BaseModel, first: Value, last: Value, email: Value, isAdmin: Value)
      requires UserRules.CheckUser(first, last, email).Pass?
      ensures Valid()
      ensures this.base == base && firstName == first && lastName == last && this.email == email
      ensures this.isAdmin == isAdmin && reviews == []
    {
      this.base := base;
      firstName := first;
      lastName := last;
      this.email := email;
      this.isAdmin := isAdmin;
      reviews := [];
    }

    /** `User(first_name, last_name, email, is_admin)`: the checks run in the
        order first name, last name, email; on success the fields are stored
        as given and the review list is empty. */
    static method Create(id: string, now: Timestamp, first: Value, last: Value, email: Value, isAdmin: Value)
      returns (r: Result<User, Error>)
      ensures r.Success? <==> UserRules.CheckUser(first, last, email).Pass?
      ensures r.Failure? ==> r.error == UserRules.CheckUser(first, last, email).error
      ensures r.Success? ==> fresh(r.value) && fresh(r.value.base) && r.value.Valid()
      ensures r.Success? ==> r.value.base.id == id && r.value.base.createdAt == now && r.value.base.updatedAt == now
      ensures r.Success? ==> r.value.firstName == first && r.value.lastName == last && r.value.email == email
      ensures r.Success? ==> r.value.isAdmin == isAdmin && r.value.reviews == []
    {
      var check := UserRules.CheckUser(first, last, email);
      if check.Fail? {
        return Failure(check.error);
      }
      var b := new BaseModel(id, now);
      var u := new User.Init(b, first, last, email, isAdmin);
      return Success(u);
    }

    /** `add_review`: append unless already present. */
    method AddReview(review: Review)
      requires Valid()
      modifies this`reviews
      ensures Valid()
      ensures reviews == AddOnce(old(reviews), review)
    {
      AddOnceIdempotent(reviews, review);
      reviews := AddOnce(reviews, review);
    }

    /** `to_dict`: the base mapping plus exactly the four user fields. */
    function ToDict(): (d: Record)
      reads this, base
      ensures d.Keys == base.ToDict().Keys + {"first_name", "last_name", "email", "is_admin"}
      ensures forall k :: k in base.ToDict() ==> d[k] == base.ToDict()[k]
      ensures d["first_name"] == firstName && d["last_name"] == lastName
      ensures d["email"] == email && d["is_admin"] == isAdmin
    {
      base.ToDict() + map["first_name" := firstName, "last_name" := lastName, "email" := email, "is_admin" := isAdmin]
    }
  }

  /** The ids of `amenities`, in order (`[amenity.id for amenity in ...]`). */
  function AmenityIds(amenities: seq<Amenity>): (ids: seq<Value>)
    ensures |ids| == |amenities|
    ensures forall i :: 0 <= i < |ids| ==> ids[i] == Str(amenities[i].base.id)
  {
    seq(|amenities|, i requires 0 <= i < |amenities| => Str(amenities[i].base.id))
  }

  class Place {
    const base: BaseModel
    const title: Value
    const description: Value
    var owner: User
    var price: real
    var latitude: real
    var longitude: real
    var amenities: seq<Amenity>
    var reviews: seq<Review>

    /** What the validators and setters guarantee, and the two lists free of
        repeats. */
    ghost predicate Valid()
      reads this
    {
      PlaceRules.ValidTitle(title) && price >= 0.0 &&
      -PlaceRules.MaxLatitude <= latitude <= PlaceRules.MaxLatitude &&
      -PlaceRules.MaxLongitude <= longitude <= PlaceRules.MaxLongitude &&
      NoDuplicates(amenities) && NoDuplicates(reviews)
    }

    constructor Init(base: BaseModel, title: Value, owner: User, description: Value, price: real, latitude: real, longitude: real)
      requires PlaceRules.ValidTitle(title) && price >= 0.0
      requires -PlaceRules.MaxLatitude <= latitude <= PlaceRules.MaxLatitude
      requires -PlaceRules.MaxLongitude <= longitude <= PlaceRules.MaxLongitude
      ensures Valid()
      ensures this.base == base && this.title == title && this.owner == owner && this.description == description
      ensures this.price == price && this.latitude == latitude && this.longitude == longitude
      ensures amenities == [] && reviews == []
    {
      this.base := base;
      this.title := title;
      this.owner := owner;
      this.description := description;
      this.price := price;
      this.latitude := latitude;
      this.longitude := longitude;
      amenities := [];
      reviews := [];
    }

    /** `Place(title, owner, description, price, latitude, longitude)`: title,
        then owner, then the three setters; the numbers are stored as floats
        and both lists start empty. */
    static method Create(id: string, now: Timestamp, title: Value, owner: User?, description: Value,
                         price: Value, latitude: Value, longitude: Value)
      returns (r: Result<Place, Error>)
      ensures r.Success? <==> PlaceRules.CheckPlace(title, owner != null, price, latitude, longitude).Pass?
      ensures r.Failure? ==> r.error == PlaceRules.CheckPlace(title, owner != null, price, latitude, longitude).error
      ensures r.Success? ==> fresh(r.value) && fresh(r.value.base) && r.value.Valid()
      ensures r.Success? ==> r.value.base.id == id && r.value.base.createdAt == now && r.value.base.updatedAt == now
      ensures r.Success? ==> r.value.title == title && r.value.owner == owner && r.value.description == description
      ensures r.Success? ==> Some(r.value.price) == Numeric(price) && Some(r.value.latitude) == Numeric(latitude) &&
                             Some(r.value.longitude) == Numeric(longitude)
      ensures r.Success? ==> r.value.amenities == [] && r.value.reviews == []
    {
      var check := PlaceRules.CheckPlace(title, owner != null, price, latitude, longitude);
      if check.Fail? {
        return Failure(check.error);
      }
      var b := new BaseModel(id, now);
      var p := new Place.Init(b, title, owner, description, PlaceRules.CheckPrice(price).value,
                              PlaceRules.CheckLatitude(latitude).value, PlaceRules.CheckLongitude(longitude).value);
      return Success(p);
    }

    /** The `owner` setter: `validate_owner` again, then assign. */
    method SetOwner(user: User?) returns (r: Outcome<Error>)
      requires Valid()
      modifies this`owner
      ensures Valid()
      ensures r.Pass? <==> user != null
      ensures r.Pass? ==> owner == user
      ensures r.Fail? ==> r.error == PlaceNeedsOwner && owner == old(owner)
    {
      if user == null {
        return Fail(PlaceNeedsOwner);
      }
      owner := user;
      return Pass;
    }

    /** The `price` setter. */
    method SetPrice(v: Value) returns (r: Outcome<Error>)
      requires Valid()
      modifies this`price
      ensures Valid()
      ensures r.Pass? <==> PlaceRules.CheckPrice(v).Success?
      ensures r.Pass? ==> price == PlaceRules.CheckPrice(v).value && price >= 0.0
      ensures r.Fail? ==> r.error == PlaceRules.CheckPrice(v).error && price == old(price)
    {
      var c := PlaceRules.CheckPrice(v);
      if c.Failure? {
        return Fail(c.error);
      }
      price := c.value;
      return Pass;
    }

    /** The `latitude` setter. */
    method SetLatitude(v: Value) returns (r: Outcome<Error>)
      requires Valid()
      modifies this`latitude
      ensures Valid()
      ensures r.Pass? <==> PlaceRules.CheckLatitude(v).Success?
      ensures r.Pass? ==> latitude == PlaceRules.CheckLatitude(v).value
      ensures r.Fail? ==> r.error == PlaceRules.CheckLatitude(v).error && latitude == old(latitude)
    {
      var c := PlaceRules.CheckLatitude(v);
      if c.Failure? {
        return Fail(c.error);
      }
      latitude := c.value;
      return Pass;
    }

    /** The `longitude` setter. */
    method SetLongitude(v: Value) returns (r: Outcome<Error>)
      requires Valid()
      modifies this`longitude
      ensures Valid()
      ensures r.Pass? <==> PlaceRules.CheckLongitude(v).Success?
      ensures r.Pass? ==> longitude == PlaceRules.CheckLongitude(v).value
      ensures r.Fail? ==> r.error == PlaceRules.CheckLongitude(v).error && longitude == old(longitude)
    {
      var c := PlaceRules.CheckLongitude(v);
      if c.Failure? {
        return Fail(c.error);
      }
      longitude := c.value;
      return Pass;
    }

    /** `add_amenity`: append unless already present. */
    method AddAmenity(amenity: Amenity)
      requires Valid()
      modifies this`amenities
      ensures Valid()
      ensures amenities == AddOnce(old(amenities), amenity)
    {
      AddOnceIdempotent(amenities, amenity);
      amenities := AddOnce(amenities, amenity);
    }

    /** `add_review`: append unless already present. */
    method AddReview(review: Review)
      requires Valid()
      modifies this`reviews
      ensures Valid()
      ensures reviews == AddOnce(old(reviews), review)
    {
      AddOnceIdempotent(reviews, review);
      reviews := AddOnce(reviews, review);
    }

    /** `to_dict`: the base mapping plus the place fields, the owner as its
        id and the amenities as their ids in order. */
    function ToDict(): (d: Record)
      reads this, base
      ensures d.Keys == base.ToDict().Keys +
                {"title", "description", "price", "latitude", "longitude", "owner_id", "amenities"}
      ensures forall k :: k in base.ToDict() ==> d[k] == base.ToDict()[k]
      ensures d["title"] == title && d["description"] == description
      ensures d["price"] == Float(price) && d["latitude"] == Float(latitude) && d["longitude"] == Float(longitude)
      ensures d["owner_id"] == Str(owner.base.id)
      ensures d["amenities"].List? && |d["amenities"].items| == |amenities|
      ensures forall i :: 0 <= i < |amenities| ==> d["amenities"].items[i] == Str(amenities[i].base.id)
    {
      base.ToDict() + OwnFields()
    }

    /** The entries `Place.to_dict` adds to the base ones. */
    function OwnFields(): (d: Record)
      reads this
      ensures d.Keys == {"title", "description", "price", "latitude", "longitude", "owner_id", "amenities"}
      ensures d["title"] == title && d["description"] == description
      ensures d["price"] == Float(price) && d["latitude"] == Float(latitude) && d["longitude"] == Float(longitude)
      ensures d["owner_id"] == Str(owner.base.id) && d["amenities"] == List(AmenityIds(amenities))
    {
      map["title" := title, "description" := description,
          "price" := Float(price), "latitude" := Float(latitude), "longitude" := Float(longitude),
          "owner_id" := Str(owner.base.id), "amenities" := List(AmenityIds(amenities))]
    }
  }

  class Review {
    const base: BaseModel
    const text: Value
    const rating: Value
    const place: Place
    const user: User

    constructor Init(base: BaseModel, text: Value, rating: Value, place: Place, user: User)
      requires ReviewRules.CheckText(text).Pass? && ReviewRules.CheckRating(rating).Pass?
      ensures this.base == base && this.text == text && this.rating == rating
      ensures this.place == place && this.user == user
    {
      this.base := base;
      this.text := text;
      this.rating := rating;
      this.place := place;
      this.user := user;
    }

    /** `Review(text, rating, place, user)`: text, rating, then the two
        relationships; a review that passes is registered with its place and
        then with its user. */
    static method Create(id: string, now: Timestamp, text: Value, rating: Value, place: Place?, user: User?)
      returns (r: Result<Review, Error>)
      requires place != null ==> place.Valid()
      requires user != null ==> user.Valid()
      modifies (if place == null then {} else {place})`reviews, (if user == null then {} else {user})`reviews
      ensures r.Success? <==> ReviewRules.CheckReview(text, rating, place != null, user != null).Pass?
      ensures r.Failure? ==> r.error == ReviewRules.CheckReview(text, rating, place != null, user != null).error
      ensures r.Failure? && place != null ==> place.reviews == old(place.reviews)
      ensures r.Failure? && user != null ==> user.reviews == old(user.reviews)
      ensures r.Success? ==> fresh(r.value) && fresh(r.value.base)
      ensures r.Success? ==> r.value.base.id == id && r.value.base.createdAt == now && r.value.base.updatedAt == now
      ensures r.Success? ==> r.value.text == text && r.value.rating == rating
      ensures r.Success? ==> r.value.place == place && r.value.user == user
      ensures r.Success? ==> place.Valid() && place.reviews == old(place.reviews) + [r.value]
      ensures r.Success? ==> user.Valid() && user.reviews == old(user.reviews) + [r.value]
    {
      var check := ReviewRules.CheckReview(text, rating, place != null, user != null);
      if check.Fail? {
        return Failure(check.error);
      }
      var b := new BaseModel(id, now);
      var review := new Review.Init(b, text, rating, place, user);
      place.AddReview(review);
      user.AddReview(review);
      return Success(review);
    }

    /** `to_dict`: the base mapping plus the text, the rating and the ids of
        the place and the user. */
    function ToDict(): (d: Record)
      reads base
      ensures d.Keys == base.ToDict().Keys + {"text", "rating", "place_id", "user_id"}
      ensures forall k :: k in base.ToDict() ==> d[k] == base.ToDict()[k]
      ensures d["text"] == text && d["rating"] == rating
      ensures d["place_id"] == Str(place.base.id) && d["user_id"] == Str(user.base.id)
    {
      base.ToDict() + map["text" := text, "rating" := rating,
                          "place_id" := Str(place.base.id), "user_id" := Str(user.base.id)]
    }
  }

  class Amenity {
    const base: BaseModel
    const name: Value
    var places: seq<Place>

    ghost predicate Valid()
      reads this
    {
      AmenityRules.CheckAmenityName(name).Pass? && NoDuplicates(places)
    }

    constructor Init(base: BaseModel, name: Value)
      requires AmenityRules.CheckAmenityName(name).Pass?
      ensures Valid() && this.base == base && this.name == name && places == []
    {
      this.base := base;
      this.name := name;
      places := [];
    }

    /** `Amenity(name)`: the name check; a new amenity has no places. */
    static method Create(id: string, now: Timestamp, name: Value) returns (r: Result<Amenity, Error>)
      ensures r.Success? <==> AmenityRules.CheckAmenityName(name).Pass?
      ensures r.Failure? ==> r.error == AmenityRules.CheckAmenityName(name).error
      ensures r.Success? ==> fresh(r.value) && fresh(r.value.base) && r.value.Valid()
      ensures r.Success? ==> r.value.base.id == id && r.value.base.createdAt == now && r.value.base.updatedAt == now
      ensures r.Success? ==> r.value.name == name && r.value.places == []
    {
      var check := AmenityRules.CheckAmenityName(name);
      if check.Fail? {
        return Failure(check.error);
      }
      var b := new BaseModel(id, now);
      var a := new Amenity.Init(b, name);
      return Success(a);
    }

    /** `add_place`: a place not yet listed is appended and told to list this
        amenity, so the link holds both ways; a place already listed changes
        nothing. */
    method AddPlace(p: Place)
      requires Valid() && p.Valid()
      modifies this`places, p`amenities
      ensures Valid() && p.Valid()
      ensures places == AddOnce(old(places), p)
      ensures old(p in places) ==> places == old(places) && p.amenities == old(p.amenities)
      ensures old(p !in places) ==> p.amenities == AddOnce(old(p.amenities), this)
      ensures old(p !in places) ==> p in places && this in p.amenities
    {
      if p !in places {
        AddOnceIdempotent(places, p);
        places := places + [p];
        p.AddAmenity(this);
      }
    }

    /** `to_dict`: the base mapping plus the name. */
    function ToDict(): (d: Record)
      reads base
      ensures d.Keys == base.ToDict().Keys + {"name"}
      ensures forall k :: k in base.ToDict() ==> d[k] == base.ToDict()[k]
      ensures d["name"] == name
    {
      base.ToDict()["name" := name]
    }
  }
}
