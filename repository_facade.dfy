/** The part3 service layer (part3 app/services/facade.py): one SQL
    repository per model class, and the operations the API calls on them.
    An object is the record of its attributes, and a reference to another
    object is held as that object's id. A fresh id (`uuid4`) and the clock
    are arguments of the operations that create objects. */
module RepositoryFacade {
  import opened Wrappers
  import opened Values
  import opened Errors
  import opened Records
  import opened OrderedDicts
  import opened Repositories
  import PlaceRules
  import AmenityRules
  import Payloads

  // The attribute names of the four model classes: the base class's id
  // and timestamps, then each class's own.
  const UserAttributes: set<string> :=
    {"id", "created_at", "updated_at", "first_name", "last_name", "email", "is_admin", "reviews"}
  const PlaceAttributes: set<string> := PlaceFieldNames + PlaceLinkNames
  /** The attributes a new place takes from the payload. */
  const PlaceFieldNames: set<string> := {"title", "description", "price", "latitude", "longitude"}
  /** The attributes the facade and the base class add. */
  const PlaceLinkNames: set<string> := {"id", "created_at", "updated_at", "owner", "amenities", "reviews"}
  const AmenityAttributes: set<string> := {"id", "created_at", "updated_at", "name", "places"}
  const ReviewAttributes: set<string> :=
    {"id", "created_at", "updated_at", "text", "rating", "user_id", "place_id"}

  /** The attributes whose `Place` setters validate a number and store it
      as a float. */
  const NumberKeys: set<string> := {"price", "latitude", "longitude"}

  /** The keywords `create_place` passes to `Place(...)`. */
  const CreatePlaceKeywords: set<string> :=
    {"title", "description", "price", "latitude", "longitude", "owner_id"}

  /** Binding keyword arguments to `Place.__init__(self, title, owner,
      description="", price=0.0, latitude=0.0, longitude=0.0, **kwargs)`:
      the two parameters without a default must be given, and any other
      keyword lands in `**kwargs`. */
  function PlaceCallBinding(keywords: set<string>): (r: Outcome<Error>)
    ensures r.Pass? <==> "title" in keywords && "owner" in keywords
    ensures "title" !in keywords ==> r == Fail(MissingArgument("title"))
    ensures "title" in keywords && "owner" !in keywords ==> r == Fail(MissingArgument("owner"))
  {
    if "title" !in keywords then Fail(MissingArgument("title"))
    else if "owner" !in keywords then Fail(MissingArgument("owner"))
    else Pass
  }

  /** `create_place` passes the owner as `owner_id`, which `**kwargs`
      swallows, so the call always lacks `owner`. */
  lemma CreatePlaceCallMissesOwner()
    ensures PlaceCallBinding(CreatePlaceKeywords) == Fail(MissingArgument("owner"))
  {
  }

  /** Every row of `t` has only attributes of its model class. */
  ghost predicate RowsWithin(t: ODict<Value, Record>, attributes: set<string>)
  {
    forall k :: k in t.items ==> t.items[k].Keys <= attributes
  }

  /** Every primary key of `t` is a string (the facade's ids are `uuid4`
      strings). */
  ghost predicate KeysAreStrings(t: ODict<Value, Record>)
  {
    forall k :: k in t.items ==> k.Str?
  }

  /** Adding a row within the attributes under a string key, or updating
      one through the repository, keeps a table within them. */
  lemma PutKeepsWithin(t: ODict<Value, Record>, k: Value, row: Record, data: Record, attributes: set<string>)
    requires t.Valid() && RowsWithin(t, attributes) && KeysAreStrings(t) && k.Str? && row.Keys <= attributes
    ensures Overwritten(row, data, row.Keys + attributes).Keys <= attributes
    ensures RowsWithin(Put(t, k, row), attributes) && KeysAreStrings(Put(t, k, row))
  {
  }

  /** Writing a stored key twice is writing it once with the second value. */
  lemma PutTwice(t: ODict<Value, Record>, k: Value, first: Record, second: Record)
    requires t.Valid() && k in t.items
    ensures Put(Put(t, k, first), k, second) == Put(t, k, second)
  {
  }

  /** The attributes the base class sets on a new object: its id and both
      timestamps, from one clock reading. */
  function Stamp(id: string, now: Timestamp): (r: Record)
    ensures r.Keys == {"id", "created_at", "updated_at"}
    ensures r["id"] == Str(id) && r["created_at"] == r["updated_at"] == Str(now)
  {
    map["id" := Str(id), "created_at" := Str(now), "updated_at" := Str(now)]
  }

  /** The new `User`: the three required fields, `is_admin` (False when not
      sent) and an empty review list. */
  function UserRow(data: Record, id: string, now: Timestamp): (r: Record)
    requires Payloads.UserKeysCheck(data).Pass?
    ensures r.Keys == UserAttributes
    ensures r["id"] == Str(id) && r["created_at"] == r["updated_at"] == Str(now)
    ensures r["first_name"] == data["first_name"] && r["last_name"] == data["last_name"]
    ensures r["email"] == data["email"] && r["is_admin"] == Get(data, "is_admin", Bool(false))
    ensures r["reviews"] == List([])
  {
    Stamp(id, now) +
    map["first_name" := data["first_name"], "last_name" := data["last_name"], "email" := data["email"],
        "is_admin" := Get(data, "is_admin", Bool(false)), "reviews" := List([])]
  }

  /** The new `Amenity`: its name and an empty place list. */
  function AmenityRow(name: Value, id: string, now: Timestamp): (r: Record)
    ensures r.Keys == AmenityAttributes
    ensures r["id"] == Str(id) && r["created_at"] == r["updated_at"] == Str(now)
    ensures r["name"] == name && r["places"] == List([])
  {
    Stamp(id, now) + map["name" := name, "places" := List([])]
  }

  /** The new `Place` once the owner is passed as `owner`: the fields
      taken from the payload, the owner's id, the amenities found and no
      reviews. */
  function PlaceRow(fields: Record, owner: Value, id: string, now: Timestamp, found: seq<Value>): (r: Record)
    requires fields.Keys == PlaceFieldNames
    ensures r.Keys == PlaceAttributes
    ensures forall k :: k in PlaceFieldNames ==> r[k] == fields[k]
    ensures r["id"] == Str(id) && r["created_at"] == r["updated_at"] == Str(now)
    ensures r["owner"] == owner && r["amenities"] == List(found) && r["reviews"] == List([])
  {
    fields + PlaceLinks(owner, id, now, found)
  }

  /** The new place `create_place` means to build from a payload its
      checks passed: a place the `Place` constructor accepts, owned by the
      sent owner. */
  function NewPlaceRow(data: Record, id: string, now: Timestamp, found: seq<Value>): (r: Record)
    requires Payloads.PlacePayloadCheck(data, true).Pass?
    ensures r.Keys == PlaceAttributes
    ensures r["id"] == Str(id) && r["created_at"] == r["updated_at"] == Str(now)
    ensures r["title"] == data["title"] && r["description"] == Get(data, "description", Str(""))
    ensures PlaceRules.CheckPlace(r["title"], true, r["price"], r["latitude"], r["longitude"]).Pass?
    ensures r["owner"] == data["owner_id"] && r["amenities"] == List(found) && r["reviews"] == List([])
  {
    PlaceRow(Payloads.PlaceFields(data), data["owner_id"], id, now, found)
  }

  /** The attributes of a new place that do not come from the payload's
      fields. */
  function PlaceLinks(owner: Value, id: string, now: Timestamp, found: seq<Value>): (r: Record)
    ensures r.Keys == PlaceLinkNames
    ensures r["id"] == Str(id) && r["created_at"] == r["updated_at"] == Str(now)
    ensures r["owner"] == owner && r["amenities"] == List(found) && r["reviews"] == List([])
  {
    Stamp(id, now) + map["owner" := owner, "amenities" := List(found), "reviews" := List([])]
  }

  /** The new `Review` from the normalised payload; absent fields take the
      defaults `create_review` passes. */
  function ReviewRow(normal: Record, id: string, now: Timestamp): (r: Record)
    ensures r.Keys == ReviewAttributes
    ensures r["id"] == Str(id) && r["created_at"] == r["updated_at"] == Str(now)
    ensures r["text"] == Get(normal, "text", Str("")) && r["rating"] == Get(normal, "rating", Int(0))
    ensures r["user_id"] == Get(normal, "user_id", Str("")) && r["place_id"] == Get(normal, "place_id", Str(""))
  {
    Stamp(id, now) +
    map["text" := Get(normal, "text", Str("")), "rating" := Get(normal, "rating", Int(0)),
        "user_id" := Get(normal, "user_id", Str("")), "place_id" := Get(normal, "place_id", Str(""))]
  }

  /** `for amenity_id in ids: if repository.get(amenity_id):
      place.amenities.append(amenity)`: the ids with a stored amenity, in
      order, repeats kept. */
  function FoundIds(ids: seq<Value>, table: ODict<Value, Record>): (r: seq<Value>)
    ensures |r| <= |ids|
    ensures forall x :: x in r <==> x in ids && x in table.items
  {
    if ids == [] then []
    else
      var init := ids[..|ids| - 1];
      assert forall x :: x in ids <==> x in init || x == ids[|ids| - 1];
      FoundIds(init, table) + (if ids[|ids| - 1] in table.items then [ids[|ids| - 1]] else [])
  }

  /** The list is appended to, not deduplicated: when every id is stored
      the result is the ids as sent, repeats included. */
  lemma {:induction false} FoundIdsKeepsRepeats(ids: seq<Value>, table: ODict<Value, Record>)
    requires forall x :: x in ids ==> x in table.items
    ensures FoundIds(ids, table) == ids
  {
    if ids != [] {
      var init, last := ids[..|ids| - 1], ids[|ids| - 1];
      assert ids == init + [last];
      forall x | x in init ensures x in table.items {
        assert x in ids;
      }
      FoundIdsKeepsRepeats(init, table);
      assert last in table.items;
    }
  }

  /** What the `Place` setters store for values the facade's number guards
      let through: `float(value)` for the three numbers, anything else as
      sent. */
  function SetterData(data: Record): (r: Record)
    requires forall k :: k in data && k in NumberKeys ==> IsNumber(data[k])
    ensures r.Keys == data.Keys
    ensures forall k :: k in data && k in NumberKeys ==> r[k].Float? && Some(r[k].f) == Numeric(data[k])
    ensures forall k :: k in data && k !in NumberKeys ==> r[k] == data[k]
  {
    map k | k in data :: if k in NumberKeys then Float(Numeric(data[k]).value) else data[k]
  }

  /** The values `SetterData` stores are the ones the setters validate: the
      guards and the setters agree. */
  lemma SetterDataIsWhatSettersStore(data: Record)
    requires PlaceRules.NumberGuards(data).Pass?
    ensures forall k :: k in data && k in NumberKeys ==> IsNumber(data[k])
    ensures "price" in data ==> SetterData(data)["price"] == Float(PlaceRules.CheckPrice(data["price"]).value)
    ensures "latitude" in data ==> SetterData(data)["latitude"] == Float(PlaceRules.CheckLatitude(data["latitude"]).value)
    ensures "longitude" in data ==> SetterData(data)["longitude"] == Float(PlaceRules.CheckLongitude(data["longitude"]).value)
  {
    PlaceRules.GuardsImplySetters(data);
  }

  /** `setattr(place, 'owner', value)`: the setter's `validate_owner`
      refuses a falsy value, and any payload value is not a `User`. */
  function OwnerSetter(data: Record): (r: Outcome<Error>)
    ensures r.Pass? <==> "owner" !in data
    ensures "owner" in data && !Truthy(data["owner"]) ==> r == Fail(PlaceNeedsOwner)
    ensures "owner" in data && Truthy(data["owner"]) ==> r == Fail(OwnerNotUser)
  {
    if "owner" !in data then Pass
    else if !Truthy(data["owner"]) then Fail(PlaceNeedsOwner)
    else Fail(OwnerNotUser)
  }

  /** `update_place` on a stored place, in the order it raises: the number
      guards, an unknown `owner_id`, an `amenities` value that is not
      iterable, then the `owner` setter inside the repository's update.
      `ownerKnown` is the answer for the sent `owner_id`. */
  function PlaceUpdateCheck(data: Record, ownerKnown: bool): (r: Outcome<Error>)
    ensures r.Pass? <==> PlaceRules.NumberGuards(data).Pass? && ("owner_id" in data ==> ownerKnown) &&
                         ("amenities" in data ==> Iterate(data["amenities"]).Some?) && "owner" !in data
    ensures PlaceRules.NumberGuards(data).Fail? ==> r == PlaceRules.NumberGuards(data)
    ensures PlaceRules.NumberGuards(data).Pass? && "owner_id" in data && !ownerKnown ==>
              r == Fail(OwnerNotFound(data["owner_id"]))
    ensures PlaceRules.NumberGuards(data).Pass? && ("owner_id" in data ==> ownerKnown) &&
            "amenities" in data && Iterate(data["amenities"]).None? ==>
              r == Fail(NotIterable("amenities"))
    ensures PlaceRules.NumberGuards(data).Pass? && ("owner_id" in data ==> ownerKnown) &&
            ("amenities" in data ==> Iterate(data["amenities"]).Some?) ==>
              r == OwnerSetter(data)
    ensures r.Pass? ==> forall k :: k in data && k in NumberKeys ==> IsNumber(data[k])
  {
    var guards := PlaceRules.NumberGuards(data);
    if guards.Fail? then guards
    else if "owner_id" in data && !ownerKnown then Fail(OwnerNotFound(data["owner_id"]))
    else if "amenities" in data && Iterate(data["amenities"]).None? then Fail(NotIterable("amenities"))
    else
      SetterDataIsWhatSettersStore(data);
      OwnerSetter(data)
  }

  /** The stored place after `update_place`: the resolved amenity list when
      one was sent (written to the object before the update), then every
      other sent key the object has as an attribute, as its setter stores
      it. */
  function UpdatedPlace(row: Record, data: Record, found: Option<seq<Value>>): (r: Record)
    requires forall k :: k in data && k in NumberKeys ==> IsNumber(data[k])
    ensures forall k :: k in r <==> k in row || (found.Some? && k == "amenities") ||
                                    (k in data && k != "amenities" && k in PlaceAttributes)
    ensures found.Some? ==> r["amenities"] == List(found.value)
    ensures found.None? && "amenities" in row ==> r["amenities"] == row["amenities"]
    ensures forall k :: k in data && k != "amenities" && (k in row || k in PlaceAttributes) ==>
              r[k] == if k in NumberKeys then Float(Numeric(data[k]).value) else data[k]
    ensures forall k :: k in row && k != "amenities" && k !in data ==> r[k] == row[k]
  {
    var linked := if found.Some? then Overwritten(row, map["amenities" := List(found.value)], row.Keys + PlaceAttributes) else row;
    Overwritten(linked, SetterData(data - {"amenities"}), linked.Keys + PlaceAttributes)
  }

  /** `owner_id` is not an attribute of `Place`, so a new owner sent to
      `update_place` is checked to exist and then dropped; and a payload the
      update accepts leaves the stored owner as it was. */
  lemma UpdateIgnoresOwnerId(row: Record, data: Record, found: Option<seq<Value>>)
    requires forall k :: k in data && k in NumberKeys ==> IsNumber(data[k])
    requires "owner" !in data && "owner_id" !in row
    ensures "owner_id" !in UpdatedPlace(row, data, found)
    ensures "owner" in row ==> UpdatedPlace(row, data, found)["owner"] == row["owner"]
  {
  }

  class Facade {
    const users: SqlRepository
    const places: SqlRepository
    const amenities: SqlRepository
    const reviews: SqlRepository

    /** Four distinct repositories over the four model classes; every row
        has only its class's attributes and a string key. */
    ghost predicate Valid()
      reads users, places, amenities, reviews
    {
      && users != places && users != amenities && users != reviews
      && places != amenities && places != reviews && amenities != reviews
      && users.attributes == UserAttributes && places.attributes == PlaceAttributes
      && amenities.attributes == AmenityAttributes && reviews.attributes == ReviewAttributes
      && users.Valid() && places.Valid() && amenities.Valid() && reviews.Valid()
      && RowsWithin(users.rows, UserAttributes) && RowsWithin(places.rows, PlaceAttributes)
      && RowsWithin(amenities.rows, AmenityAttributes) && RowsWithin(reviews.rows, ReviewAttributes)
      && KeysAreStrings(users.rows) && KeysAreStrings(places.rows)
      && KeysAreStrings(amenities.rows) && KeysAreStrings(reviews.rows)
    }

    constructor ()
      ensures Valid()
      ensures fresh(users) && fresh(places) && fresh(amenities) && fresh(reviews)
      ensures users.rows == Empty() && places.rows == Empty()
      ensures amenities.rows == Empty() && reviews.rows == Empty()
    {
      users := new SqlRepository(UserAttributes);
      places := new SqlRepository(PlaceAttributes);
      amenities := new SqlRepository(AmenityAttributes);
      reviews := new SqlRepository(ReviewAttributes);
    }

    /** `get_users`: the users without a truthy `is_test_user` attribute.
        `User` has no such attribute, so the filter keeps every row. */
    function GetUsers(): (r: seq<Record>)
      reads users, places, amenities, reviews
      requires Valid()
      ensures r == users.GetAll()
    {
      var all := users.GetAll();
      assert forall u :: u in all ==> !Payloads.IsTestUser(u) by {
        forall u | u in all ensures !Payloads.IsTestUser(u) {
          var i :| 0 <= i < |all| && all[i] == u;
          assert users.rows.keys[i] in users.rows.items;
        }
      }
      WhereKeepsAll(all, u => !Payloads.IsTestUser(u));
      Where(all, u => !Payloads.IsTestUser(u))
    }

    /** `get_user`: the stored user, or None. */
    function GetUser(id: string): (r: Option<Record>)
      reads users
      ensures r.Some? <==> Str(id) in users.rows.items
      ensures r.Some? ==> r.value == users.rows.items[Str(id)]
    {
      users.Get(Str(id))
    }

    /** `create_user`: the three keys are read and `User(...)` validates
        them; the new user is added, and a taken id fails the commit. */
    method CreateUser(data: Record, newId: string, now: Timestamp) returns (r: Result<Record, Error>)
      requires Valid()
      modifies users
      ensures Valid()
      ensures Payloads.UserPayloadCheck(data).Fail? ==>
                r == Failure(Payloads.UserPayloadCheck(data).error) && users.rows == old(users.rows)
      ensures Payloads.UserPayloadCheck(data).Pass? && Str(newId) in old(users.rows.items) ==>
                r == Failure(DuplicateKey) && users.rows == old(users.rows)
      ensures Payloads.UserPayloadCheck(data).Pass? && Str(newId) !in old(users.rows.items) ==>
                r == Success(UserRow(data, newId, now)) && users.rows == Put(old(users.rows), Str(newId), r.value)
    {
      var check := Payloads.UserPayloadCheck(data);
      if check.Fail? {
        return Failure(check.error);
      }
      var row := UserRow(data, newId, now);
      PutKeepsWithin(users.rows, Str(newId), row, map[], UserAttributes);
      r := users.Add(row);
    }

    /** `update_user`: straight to the repository, so nothing is validated:
        any sent first name is stored, however the constructor would judge
        it. */
    method UpdateUser(id: string, data: Record) returns (r: Option<Record>)
      requires Valid()
      modifies users
      ensures Valid()
      ensures Str(id) !in old(users.rows.items) ==> r == None && users.rows == old(users.rows)
      ensures Str(id) in old(users.rows.items) ==>
                var row := Overwritten(old(users.rows.items[Str(id)]), data, UserAttributes);
                r == Some(row) && users.rows == Put(old(users.rows), Str(id), row)
      ensures r.Some? && "first_name" in data ==> r.value["first_name"] == data["first_name"]
    {
      ghost var row := if Str(id) in users.rows.items then users.rows.items[Str(id)] else map[];
      r := users.Update(Str(id), data);
      assert row.Keys + UserAttributes == UserAttributes;
    }

    /** `create_amenity`: a truthy name is required, then `Amenity(...)`
        validates its length; the new amenity is added. */
    method CreateAmenity(data: Record, newId: string, now: Timestamp) returns (r: Result<Record, Error>)
      requires Valid()
      modifies amenities
      ensures Valid()
      ensures AmenityRules.CreateNameGuard(data).Fail? ==> r == Failure(NameRequired) && amenities.rows == old(amenities.rows)
      ensures AmenityRules.CreateNameGuard(data).Pass? && AmenityRules.CheckAmenityName(data["name"]).Fail? ==>
                r == Failure(AmenityRules.CheckAmenityName(data["name"]).error) && amenities.rows == old(amenities.rows)
      ensures AmenityRules.CreateNameGuard(data).Pass? && AmenityRules.CheckAmenityName(data["name"]).Pass? ==>
                if Str(newId) in old(amenities.rows.items) then r == Failure(DuplicateKey) && amenities.rows == old(amenities.rows)
                else r == Success(AmenityRow(data["name"], newId, now)) &&
                     amenities.rows == Put(old(amenities.rows), Str(newId), r.value)
    {
      var guard := AmenityRules.CreateNameGuard(data);
      if guard.Fail? {
        return Failure(guard.error);
      }
      var valid := AmenityRules.CheckAmenityName(data["name"]);
      if valid.Fail? {
        return Failure(valid.error);
      }
      r := amenities.Add(AmenityRow(data["name"], newId, now));
    }

    /** `get_amenity`: the stored amenity; a missing one raises. */
    function GetAmenity(id: string): (r: Result<Record, Error>)
      reads amenities
      ensures r.Failure? <==> Str(id) !in amenities.rows.items
      ensures r.Failure? ==> r.error == AmenityNotFound
      ensures r.Success? ==> r.value == amenities.rows.items[Str(id)]
    {
      match amenities.Get(Str(id))
      case None => Failure(AmenityNotFound)
      case Some(a) => Success(a)
    }

    /** `get_all_amenities`: every stored amenity. */
    function GetAllAmenities(): (r: seq<Record>)
      reads users, places, amenities, reviews
      requires Valid()
      ensures forall a :: a in r <==> exists k :: k in amenities.rows.items && amenities.rows.items[k] == a
    {
      AllValuesAreStored(amenities.rows);
      amenities.GetAll()
    }

    /** `update_amenity`: a sent name must be a non-blank string; then the
        repository update, None for an unknown id (no not-found error). */
    method UpdateAmenity(id: string, data: Record) returns (r: Result<Option<Record>, Error>)
      requires Valid()
      modifies amenities
      ensures Valid()
      ensures AmenityRules.UpdateNameGuard(data).Fail? ==>
                r == Failure(AmenityRules.UpdateNameGuard(data).error) && amenities.rows == old(amenities.rows)
      ensures AmenityRules.UpdateNameGuard(data).Pass? && Str(id) !in old(amenities.rows.items) ==>
                r == Success(None) && amenities.rows == old(amenities.rows)
      ensures AmenityRules.UpdateNameGuard(data).Pass? && Str(id) in old(amenities.rows.items) ==>
                var row := Overwritten(old(amenities.rows.items[Str(id)]), data, AmenityAttributes);
                r == Success(Some(row)) && amenities.rows == Put(old(amenities.rows), Str(id), row)
    {
      var guard := AmenityRules.UpdateNameGuard(data);
      if guard.Fail? {
        return Failure(guard.error);
      }
      ghost var row := if Str(id) in amenities.rows.items then amenities.rows.items[Str(id)] else map[];
      var updated := amenities.Update(Str(id), data);
      assert row.Keys + AmenityAttributes == AmenityAttributes;
      return Success(updated);
    }

    /** `users.get(data.get(key))` answered: a user is stored under the
        id sent as `key` (None, for a missing key, is no id). */
    predicate UserSent(data: Record, key: string)
      reads users
    {
      users.Get(Get(data, key, Null)).Some?
    }

    /** `create_place` as written: the payload checks, then `Place(...)`
        with `owner_id=` instead of `owner=`, which raises a TypeError that
        is rewrapped. No payload creates a place, and nothing is stored. */
    function CreatePlaceAsWritten(data: Record): (r: Result<Record, Error>)
      reads users, places, amenities, reviews
      requires Valid()
      ensures r.Failure?
      ensures Payloads.PlacePayloadCheck(data, UserSent(data, "owner_id")).Fail? ==>
                r == Failure(Payloads.PlacePayloadCheck(data, UserSent(data, "owner_id")).error)
      ensures Payloads.PlacePayloadCheck(data, UserSent(data, "owner_id")).Pass? ==>
                r == Failure(PlaceCreationFailed(MissingArgument("owner")))
    {
      var check := Payloads.PlacePayloadCheck(data, UserSent(data, "owner_id"));
      if check.Fail? then Failure(check.error)
      else
        CreatePlaceCallMissesOwner();
        Failure(PlaceCreationFailed(PlaceCallBinding(CreatePlaceKeywords).error))
    }

    /** The ids among `ids` with a stored amenity, in order. */
    method ResolveAmenityIds(ids: seq<Value>) returns (found: seq<Value>)
      ensures found == FoundIds(ids, amenities.rows)
    {
      found := [];
      var i := 0;
      while i < |ids|
        invariant 0 <= i <= |ids|
        invariant found == FoundIds(ids[..i], amenities.rows)
      {
        assert ids[..i + 1][..i] == ids[..i];
        if amenities.Get(ids[i]).Some? {
          found := found + [ids[i]];
        }
        i := i + 1;
      }
      assert ids[..|ids|] == ids;
    }

    /** The amenity ids `update_place` would write: None when no list is
        sent. */
    function SentAmenities(data: Record): (r: Option<seq<Value>>)
      reads amenities
      ensures r.Some? <==> "amenities" in data && Iterate(data["amenities"]).Some?
      ensures r.Some? ==> r.value == FoundIds(Iterate(data["amenities"]).value, amenities.rows)
    {
      if "amenities" in data && Iterate(data["amenities"]).Some?
      then Some(FoundIds(Iterate(data["amenities"]).value, amenities.rows))
      else None
    }

    /** `create_place` as evidently intended, with the owner passed as
        `owner`: the checks, then the amenities sent (when not iterable the
        rewrapped TypeError), then the place is added; a taken id fails the
        commit, rewrapped. */
    method CreatePlace(data: Record, newId: string, now: Timestamp) returns (r: Result<Record, Error>)
      requires Valid()
      modifies places
      ensures Valid()
      ensures Payloads.PlacePayloadCheck(data, UserSent(data, "owner_id")).Fail? ==>
                r == Failure(Payloads.PlacePayloadCheck(data, UserSent(data, "owner_id")).error) &&
                places.rows == old(places.rows)
      ensures Payloads.PlacePayloadCheck(data, UserSent(data, "owner_id")).Pass? &&
              "amenities" in data && Iterate(data["amenities"]).None? ==>
                r == Failure(PlaceCreationFailed(NotIterable("amenities"))) && places.rows == old(places.rows)
      ensures Payloads.PlacePayloadCheck(data, UserSent(data, "owner_id")).Pass? &&
              ("amenities" !in data || Iterate(data["amenities"]).Some?) ==>
                var found := if "amenities" in data then SentAmenities(data).value else [];
                if Str(newId) in old(places.rows.items)
                then r == Failure(PlaceCreationFailed(DuplicateKey)) && places.rows == old(places.rows)
                else r == Success(NewPlaceRow(data, newId, now, found)) &&
                     places.rows == Put(old(places.rows), Str(newId), r.value)
      ensures r.Success? ==> Get(data, "owner_id", Null) in users.rows.items &&
                             r.value["owner"] == Get(data, "owner_id", Null)
      ensures r.Success? ==> PlaceRules.CheckPlace(r.value["title"], true, r.value["price"],
                                                   r.value["latitude"], r.value["longitude"]).Pass?
    {
      var check := Payloads.PlacePayloadCheck(data, UserSent(data, "owner_id"));
      if check.Fail? {
        return Failure(check.error);
      }
      var found := [];
      if "amenities" in data {
        var ids := Iterate(data["amenities"]);
        if ids.None? {
          return Failure(PlaceCreationFailed(NotIterable("amenities")));
        }
        found := ResolveAmenityIds(ids.value);
      }
      r := AddPlace(NewPlaceRow(data, newId, now, found));
    }

    /** `place_repository.add(place)` inside `create_place`'s `try`: a taken
        id fails the commit, and the error is rewrapped. */
    method AddPlace(row: Record) returns (r: Result<Record, Error>)
      requires Valid() && row.Keys == PlaceAttributes && row["id"].Str?
      modifies places
      ensures Valid()
      ensures row["id"] in old(places.rows.items) ==>
                r == Failure(PlaceCreationFailed(DuplicateKey)) && places.rows == old(places.rows)
      ensures row["id"] !in old(places.rows.items) ==>
                r == Success(row) && places.rows == Put(old(places.rows), row["id"], row)
    {
      PutKeepsWithin(places.rows, row["id"], row, map[], PlaceAttributes);
      var added := places.Add(row);
      if added.Failure? {
        return Failure(PlaceCreationFailed(added.error));
      }
      return added;
    }

    /** `get_place`: the stored place, or None. */
    function GetPlace(id: string): (r: Option<Record>)
      reads places
      ensures r.Some? <==> Str(id) in places.rows.items
      ensures r.Some? ==> r.value == places.rows.items[Str(id)]
    {
      places.Get(Str(id))
    }

    /** `get_all_places` (and `get_places`, which is the same): every stored
        place. */
    function GetAllPlaces(): (r: seq<Record>)
      reads users, places, amenities, reviews
      requires Valid()
      ensures forall p :: p in r <==> exists k :: k in places.rows.items && places.rows.items[k] == p
    {
      AllValuesAreStored(places.rows);
      places.GetAll()
    }

    /** `update_place`: None for an unknown place; the checks in
        `PlaceUpdateCheck`'s order; then the amenity list and the other
        attributes are written and committed together. A raise before the
        commit leaves the table as it was. */
    method UpdatePlace(id: string, data: Record) returns (r: Result<Option<Record>, Error>)
      requires Valid()
      modifies places
      ensures Valid()
      ensures Str(id) !in old(places.rows.items) ==> r == Success(None) && places.rows == old(places.rows)
      ensures Str(id) in old(places.rows.items) && PlaceUpdateCheck(data, UserSent(data, "owner_id")).Fail? ==>
                r == Failure(PlaceUpdateCheck(data, UserSent(data, "owner_id")).error) && places.rows == old(places.rows)
      ensures Str(id) in old(places.rows.items) && PlaceUpdateCheck(data, UserSent(data, "owner_id")).Pass? ==>
                var next := UpdatedPlace(old(places.rows.items[Str(id)]), data, SentAmenities(data));
                r == Success(Some(next)) && places.rows == Put(old(places.rows), Str(id), next)
    {
      var current := places.Get(Str(id));
      if current.None? {
        return Success(None);
      }
      var guards := PlaceRules.NumberGuards(data);
      if guards.Fail? {
        return Failure(guards.error);
      }
      if "owner_id" in data && !UserSent(data, "owner_id") {
        return Failure(OwnerNotFound(data["owner_id"]));
      }
      var found: Option<seq<Value>> := None;
      if "amenities" in data {
        var ids := Iterate(data["amenities"]);
        if ids.None? {
          return Failure(NotIterable("amenities"));
        }
        var objs := ResolveAmenityIds(ids.value);
        found := Some(objs);
      }
      var owner := OwnerSetter(data - {"amenities"});
      if owner.Fail? {
        return Failure(owner.error);
      }
      SetterDataIsWhatSettersStore(data);
      assert found == SentAmenities(data);
      var next := WritePlace(id, data, found);
      return Success(Some(next));
    }

    /** The writes of `update_place` once its checks have passed: the
        amenity list on the stored object, then the repository's update with
        the rest of the payload, one commit. */
    method WritePlace(id: string, data: Record, found: Option<seq<Value>>) returns (next: Record)
      requires Valid() && Str(id) in places.rows.items
      requires forall k :: k in data && k in NumberKeys ==> IsNumber(data[k])
      modifies places
      ensures Valid()
      ensures next == UpdatedPlace(old(places.rows.items[Str(id)]), data, found)
      ensures places.rows == Put(old(places.rows), Str(id), next)
    {
      ghost var row := places.rows.items[Str(id)];
      ghost var start := places.rows;
      if found.Some? {
        var linked := SetAttributes(id, map["amenities" := List(found.value)]);
        next := SetAttributes(id, SetterData(data - {"amenities"}));
        PutTwice(start, Str(id), linked, next);
      } else {
        next := SetAttributes(id, SetterData(data - {"amenities"}));
      }
    }

    /** The repository's `update` on a stored place: `setattr` for each sent
        key the object has, then commit. */
    method SetAttributes(id: string, data: Record) returns (next: Record)
      requires Valid() && Str(id) in places.rows.items
      modifies places
      ensures Valid()
      ensures next == Overwritten(old(places.rows.items[Str(id)]), data, old(places.rows.items[Str(id)]).Keys + PlaceAttributes)
      ensures places.rows == Put(old(places.rows), Str(id), next)
    {
      PutKeepsWithin(places.rows, Str(id), places.rows.items[Str(id)], data, PlaceAttributes);
      var updated := places.Update(Str(id), data);
      next := updated.value;
    }

    /** `delete_place`: True exactly when the place existed. Its reviews
        stay stored. */
    method DeletePlace(id: string) returns (deleted: bool)
      requires Valid()
      modifies places
      ensures Valid()
      ensures deleted <==> Str(id) in old(places.rows.items)
      ensures places.rows == Remove(old(places.rows), Str(id))
    {
      deleted := places.Delete(Str(id));
    }

    /** `create_review`: the sent user and place must be stored, the rating
        normalised and the text truthy; then the review is added. */
    method CreateReview(data: Record, newId: string, now: Timestamp) returns (r: Result<Record, Error>)
      requires Valid()
      modifies reviews
      ensures Valid()
      ensures Payloads.ReviewPayloadCheck(data, UserSent(data, "user_id"), PlaceSent(data)).Failure? ==>
                r == Failure(Payloads.ReviewPayloadCheck(data, UserSent(data, "user_id"), PlaceSent(data)).error) &&
                reviews.rows == old(reviews.rows)
      ensures Payloads.ReviewPayloadCheck(data, UserSent(data, "user_id"), PlaceSent(data)).Success? ==>
                var row := ReviewRow(Payloads.ReviewPayloadCheck(data, UserSent(data, "user_id"), PlaceSent(data)).value, newId, now);
                if Str(newId) in old(reviews.rows.items) then r == Failure(DuplicateKey) && reviews.rows == old(reviews.rows)
                else r == Success(row) && reviews.rows == Put(old(reviews.rows), Str(newId), row)
      ensures r.Success? ==> "user_id" in data && r.value["user_id"] == data["user_id"] && data["user_id"] in users.rows.items
      ensures r.Success? ==> "place_id" in data && r.value["place_id"] == data["place_id"] && data["place_id"] in places.rows.items
      ensures r.Success? ==> r.value["text"] == data["text"]
    {
      var check := Payloads.ReviewPayloadCheck(data, UserSent(data, "user_id"), PlaceSent(data));
      if check.Failure? {
        return Failure(check.error);
      }
      assert Null !in users.rows.items && Null !in places.rows.items;
      r := reviews.Add(ReviewRow(check.value, newId, now));
    }

    /** `places.get(data.get('place_id'))` answered. */
    predicate PlaceSent(data: Record)
      reads places
    {
      places.Get(Get(data, "place_id", Null)).Some?
    }

    /** `get_review`: the stored review, or None. */
    function GetReview(id: string): (r: Option<Record>)
      reads reviews
      ensures r.Some? <==> Str(id) in reviews.rows.items
      ensures r.Some? ==> r.value == reviews.rows.items[Str(id)]
    {
      reviews.Get(Str(id))
    }

    /** `get_all_reviews`: every stored review. */
    function GetAllReviews(): (r: seq<Record>)
      reads users, places, amenities, reviews
      requires Valid()
      ensures forall v :: v in r <==> exists k :: k in reviews.rows.items && reviews.rows.items[k] == v
    {
      AllValuesAreStored(reviews.rows);
      reviews.GetAll()
    }

    /** `get_reviews_by_place` as written: an unknown place raises; then
        `get_by_attribute`, whose `.first()` yields one review (or None)
        where the caller asked for all of them. */
    function GetReviewsByPlaceAsWritten(placeId: string): (r: Result<Option<Record>, Error>)
      reads users, places, amenities, reviews
      requires Valid()
      ensures r.Failure? <==> Str(placeId) !in places.rows.items
      ensures r.Failure? ==> r.error == PlaceNotFound(Str(placeId))
      ensures r.Success? ==> var all := AllWhere(reviews.GetAll(), "place_id", Str(placeId));
                             r.value == if all == [] then None else Some(all[0])
    {
      if places.Get(Str(placeId)).None? then Failure(PlaceNotFound(Str(placeId)))
      else
        FirstWhereIsFirstOfAll(reviews.GetAll(), "place_id", Str(placeId));
        reviews.GetByAttribute("place_id", Str(placeId))
    }

    /** `get_reviews_by_place` as evidently intended: every review of the
        place, in row order. */
    function GetReviewsByPlace(placeId: string): (r: Result<seq<Record>, Error>)
      reads users, places, amenities, reviews
      requires Valid()
      ensures r.Failure? <==> Str(placeId) !in places.rows.items
      ensures r.Failure? ==> r.error == PlaceNotFound(Str(placeId))
      ensures r.Success? ==> forall v :: v in r.value <==> v in reviews.GetAll() && Equal(Get(v, "place_id", Null), Str(placeId))
    {
      if places.Get(Str(placeId)).None? then Failure(PlaceNotFound(Str(placeId)))
      else Success(AllWhere(reviews.GetAll(), "place_id", Str(placeId)))
    }

    /** `update_review`: None for an unknown review; the sent ids must equal
        the stored ones, the rating is normalised, a sent text must be
        truthy; then the repository update with the normalised payload. */
    method UpdateReview(id: string, data: Record) returns (r: Result<Option<Record>, Error>)
      requires Valid()
      modifies reviews
      ensures Valid()
      ensures Str(id) !in old(reviews.rows.items) ==> r == Success(None) && reviews.rows == old(reviews.rows)
      ensures Str(id) in old(reviews.rows.items) ==>
                var row := old(reviews.rows.items[Str(id)]);
                var check := Payloads.ReviewUpdateCheck(data, Get(row, "user_id", Null), Get(row, "place_id", Null));
                && (check.Failure? ==> r == Failure(check.error) && reviews.rows == old(reviews.rows))
                && (check.Success? ==>
                      var next := Overwritten(row, check.value, ReviewAttributes);
                      r == Success(Some(next)) && reviews.rows == Put(old(reviews.rows), Str(id), next))
    {
      var current := reviews.Get(Str(id));
      if current.None? {
        return Success(None);
      }
      var row := current.value;
      var check := Payloads.ReviewUpdateCheck(data, Get(row, "user_id", Null), Get(row, "place_id", Null));
      if check.Failure? {
        return Failure(check.error);
      }
      var updated := reviews.Update(Str(id), check.value);
      assert row.Keys + ReviewAttributes == ReviewAttributes;
      return Success(updated);
    }

    /** `delete_review`: True exactly when the review existed. */
    method DeleteReview(id: string) returns (deleted: bool)
      requires Valid()
      modifies reviews
      ensures Valid()
      ensures deleted <==> Str(id) in old(reviews.rows.items)
      ensures reviews.rows == Remove(old(reviews.rows), Str(id))
    {
      deleted := reviews.Delete(Str(id));
    }
  }
}
