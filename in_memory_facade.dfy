/** The part2 service layer (part2 app/services/facade.py): four dicts of
    plain records keyed by id, and the operations the API calls on them.
    A fresh id (`str(uuid4())`) and the clock (`datetime.now().isoformat()`)
    are arguments of the operations that use them. */
module InMemoryFacade {
  import opened Wrappers
  import opened Values
  import opened Errors
  import opened Records
  import opened OrderedDicts
  import opened PlaceViews
  import PlaceRules
  import AmenityRules
  import Payloads

  /** What every stored amenity carries: a `places` list. */
  predicate AmenityShaped(a: Record)
  {
    "places" in a && a["places"].List?
  }

  /** What every stored review carries: the two ids `update_review` reads. */
  predicate ReviewShaped(r: Record)
  {
    "user_id" in r && "place_id" in r
  }

  /** The keys `update_user` overwrites. */
  const NameKeys: set<string> := {"first_name", "last_name", "email"}

  /** The keys `update_review` never copies from the payload. */
  const FrozenReviewKeys: set<string> := {"id", "user_id", "place_id", "created_at"}

  /** `update_place`'s checks before it writes: the numeric guards, then a
      sent `owner_id` must name a stored user. */
  predicate PlaceUpdateAccepted(data: Record, users: Table)
  {
    PlaceRules.NumberGuards(data).Pass? && ("owner_id" in data ==> Known(users, data["owner_id"]))
  }

  /** The place record after `update_place`'s copy loop, its timestamp and
      its owner refresh: every sent key but `id` replaces the stored one,
      `updated_at` is the current time, and the owner summary follows the
      (possibly new) owner when that owner is a stored user. */
  function Refreshed(place: Record, data: Record, users: Table, now: Timestamp): (r: Record)
    ensures "updated_at" in r && r["updated_at"] == Str(now)
    ensures forall k :: k in r ==> k in place || k in data || k == "updated_at" || k == "owner"
    ensures forall k :: k in data && k !in {"id", "updated_at", "owner"} ==> k in r && r[k] == data[k]
    ensures forall k :: k in place && (k !in data || k == "id") && k !in {"updated_at", "owner"} ==>
              k in r && r[k] == place[k]
    ensures var owner := Get(data, "owner_id", Get(place, "owner_id", Null));
            Truthy(owner) && Known(users, owner) ==>
              "owner" in r && r["owner"] == KnownSummary(owner, users.items[owner.s], "")
    ensures var owner := Get(data, "owner_id", Get(place, "owner_id", Null));
            !(Truthy(owner) && Known(users, owner)) ==>
              ("owner" in r <==> "owner" in place || "owner" in data) &&
              ("owner" in data ==> r["owner"] == data["owner"]) &&
              ("owner" !in data && "owner" in place ==> r["owner"] == place["owner"])
  {
    var owner := Get(data, "owner_id", Get(place, "owner_id", Null));
    var copied := Overwritten(place, data, data.Keys - {"id"})["updated_at" := Str(now)];
    if Truthy(owner) && Known(users, owner) then copied["owner" := KnownSummary(owner, users.items[owner.s], "")]
    else copied
  }

  /** The record `create_user` stores: the sent names and email, `is_admin`
      defaulting to False, and one clock reading as both timestamps. */
  function NewUser(data: Record, id: string, now: Timestamp): (r: Record)
    requires Payloads.UserKeysCheck(data).Pass?
    ensures r.Keys == {"id", "first_name", "last_name", "email", "is_admin", "created_at", "updated_at"}
    ensures r["id"] == Str(id)
    ensures forall k :: k in NameKeys ==> r[k] == data[k]
    ensures r["is_admin"] == Get(data, "is_admin", Bool(false))
    ensures r["created_at"] == r["updated_at"] == Str(now)
  {
    map["id" := Str(id), "first_name" := data["first_name"], "last_name" := data["last_name"],
        "email" := data["email"], "is_admin" := Get(data, "is_admin", Bool(false)),
        "created_at" := Str(now), "updated_at" := Str(now)]
  }

  /** The fields of a new place the facade adds: its id, the owner's id and
      summary, the amenity summaries and the two clock readings. */
  function PlaceLinks(ownerId: Value, owner: Record, id: string, createdNow: Timestamp, updatedNow: Timestamp,
                      amenities: seq<Value>): (r: Record)
    ensures r.Keys == {"id", "owner_id", "amenities", "created_at", "updated_at", "owner"}
    ensures r["id"] == Str(id) && r["owner_id"] == ownerId
    ensures r["owner"] == KnownSummary(ownerId, owner, "")
    ensures r["amenities"] == List(amenities)
    ensures r["created_at"] == Str(createdNow) && r["updated_at"] == Str(updatedNow)
  {
    map["id" := Str(id), "owner_id" := ownerId, "amenities" := List(amenities),
        "created_at" := Str(createdNow), "updated_at" := Str(updatedNow),
        "owner" := KnownSummary(ownerId, owner, "")]
  }

  /** The record `create_place` stores. */
  function NewPlace(data: Record, users: Table, id: string, createdNow: Timestamp, updatedNow: Timestamp,
                    amenities: seq<Value>): (r: Record)
    requires Payloads.PlacePayloadCheck(data, Known(users, Get(data, "owner_id", Null))).Pass?
    ensures var owner := data["owner_id"];
            Known(users, owner) && r == Payloads.PlaceFields(data) + PlaceLinks(owner, users.items[owner.s], id, createdNow, updatedNow, amenities)
  {
    Payloads.PlaceFields(data) + PlaceLinks(data["owner_id"], users.items[data["owner_id"].s], id, createdNow, updatedNow, amenities)
  }

  /** The stored place has the payload's title and numbers, which the
      `Place` constructor accepts, the stored owner's summary and the
      amenity summaries. */
  lemma NewPlaceShape(data: Record, users: Table, id: string, createdNow: Timestamp, updatedNow: Timestamp,
                      amenities: seq<Value>)
    requires Payloads.PlacePayloadCheck(data, Known(users, Get(data, "owner_id", Null))).Pass?
    ensures var r := NewPlace(data, users, id, createdNow, updatedNow, amenities);
            && r["id"] == Str(id) && r["title"] == data["title"]
            && PlaceRules.CheckPlace(r["title"], true, r["price"], r["latitude"], r["longitude"]).Pass?
            && r["owner"] == KnownSummary(data["owner_id"], users.items[data["owner_id"].s], "")
            && r["amenities"] == List(amenities)
  {
    var fields := Payloads.PlaceFields(data);
    var links := PlaceLinks(data["owner_id"], users.items[data["owner_id"].s], id, createdNow, updatedNow, amenities);
    assert "title" !in links && "price" !in links && "latitude" !in links && "longitude" !in links;
  }

  /** The record `create_review` stores from the normalised payload. */
  function NewReview(normal: Record, id: string, now: Timestamp): (r: Record)
    ensures r.Keys == {"id", "text", "rating", "user_id", "place_id", "created_at", "updated_at"}
    ensures ReviewShaped(r)
    ensures r["id"] == Str(id)
    ensures r["text"] == Get(normal, "text", Str("")) && r["rating"] == Get(normal, "rating", Int(0))
    ensures r["user_id"] == Get(normal, "user_id", Str("")) && r["place_id"] == Get(normal, "place_id", Str(""))
    ensures r["created_at"] == r["updated_at"] == Str(now)
  {
    map["id" := Str(id), "text" := Get(normal, "text", Str("")), "rating" := Get(normal, "rating", Int(0)),
        "user_id" := Get(normal, "user_id", Str("")), "place_id" := Get(normal, "place_id", Str("")),
        "created_at" := Str(now), "updated_at" := Str(now)]
  }

  /** Linking keeps every amenity's `places` a list. */
  lemma LinkedKeepsShape(amenities: Table, ids: seq<Value>, placeId: Value)
    requires forall k :: k in amenities.items ==> AmenityShaped(amenities.items[k])
    ensures forall k :: k in Linked(amenities, ids, placeId).items ==> AmenityShaped(Linked(amenities, ids, placeId).items[k])
  {
  }

  class Facade {
    var usersDb: Table
    var placesDb: Table
    var amenitiesDb: Table
    var reviewsDb: Table

    /** Each table is a well-formed dict; every amenity has its `places`
        list and every review its two ids. */
    ghost predicate Valid()
      reads this
    {
      usersDb.Valid() && placesDb.Valid() && AmenitiesValid() && ReviewsValid()
    }

    ghost predicate AmenitiesValid()
      reads this`amenitiesDb
    {
      amenitiesDb.Valid() && forall k :: k in amenitiesDb.items ==> AmenityShaped(amenitiesDb.items[k])
    }

    ghost predicate ReviewsValid()
      reads this`reviewsDb
    {
      reviewsDb.Valid() && forall k :: k in reviewsDb.items ==> ReviewShaped(reviewsDb.items[k])
    }

    /** `__init__`: four empty dicts (the test users are not created). */
    constructor ()
      ensures Valid()
      ensures usersDb == Empty() && placesDb == Empty() && amenitiesDb == Empty() && reviewsDb == Empty()
    {
      usersDb := Empty();
      placesDb := Empty();
      amenitiesDb := Empty();
      reviewsDb := Empty();
    }

    // Users

    /** `get_users`: the stored users that are not flagged as test users. */
    function GetUsers(): (r: seq<Record>)
      reads this
      requires Valid()
      ensures |r| <= |usersDb.items|
      ensures forall u :: u in r <==> !Payloads.IsTestUser(u) && exists id :: id in usersDb.items && usersDb.items[id] == u
    {
      AllValuesAreStored(usersDb);
      Where(ValuesOf(usersDb), u => !Payloads.IsTestUser(u))
    }

    /** `get_user`: `users_db.get(user_id)`. */
    function GetUser(id: string): (r: Option<Record>)
      reads this
      ensures r.Some? <==> id in usersDb.items
      ensures r.Some? ==> r.value == usersDb.items[id]
    {
      Lookup(usersDb, id)
    }

    /** `create_user`: the three required keys, the user checks, then the
        record stored under the new id with both timestamps equal. */
    method CreateUser(data: Record, newId: string, now: Timestamp) returns (r: Result<Record, Error>)
      requires Valid()
      modifies this`usersDb
      ensures Valid()
      ensures r.Success? <==> Payloads.UserPayloadCheck(data).Pass?
      ensures r.Failure? ==> r.error == Payloads.UserPayloadCheck(data).error && usersDb == old(usersDb)
      ensures r.Success? ==> r.value == NewUser(data, newId, now) && usersDb == Put(old(usersDb), newId, r.value)
    {
      var check := Payloads.UserPayloadCheck(data);
      if check.Fail? {
        return Failure(check.error);
      }
      var user := NewUser(data, newId, now);
      usersDb := Put(usersDb, newId, user);
      return Success(user);
    }

    /** `update_user`: None for an unknown id; otherwise the three name keys
        are read (the first missing one raises) and written over the stored
        record, with no validation and no new timestamp. */
    method UpdateUser(id: string, data: Record) returns (r: Result<Option<Record>, Error>)
      requires Valid()
      modifies this`usersDb
      ensures Valid()
      ensures id !in old(usersDb.items) ==> r == Success(None) && usersDb == old(usersDb)
      ensures id in old(usersDb.items) && Payloads.UserKeysCheck(data).Fail? ==>
                r == Failure(Payloads.UserKeysCheck(data).error) && usersDb == old(usersDb)
      ensures id in old(usersDb.items) && Payloads.UserKeysCheck(data).Pass? ==>
                r == Success(Some(Overwritten(old(usersDb.items[id]), data, NameKeys))) &&
                usersDb == Put(old(usersDb), id, r.value.value)
    {
      if id !in usersDb.items {
        return Success(None);
      }
      var keys := Payloads.UserKeysCheck(data);
      if keys.Fail? {
        return Failure(keys.error);
      }
      var user := CopyKeys(usersDb.items[id], data, NameKeys);
      usersDb := Put(usersDb, id, user);
      return Success(Some(user));
    }

    // Amenities

    /** `create_amenity`: a truthy name is required; the record starts with
        no places. */
    method CreateAmenity(data: Record, newId: string, now: Timestamp) returns (r: Result<Record, Error>)
      requires Valid()
      modifies this`amenitiesDb
      ensures Valid()
      ensures r.Success? <==> AmenityRules.CreateNameGuard(data).Pass?
      ensures r.Failure? ==> r.error == NameRequired && amenitiesDb == old(amenitiesDb)
      ensures r.Success? ==>
                && r.value == map["id" := Str(newId), "name" := data["name"], "created_at" := Str(now),
                                  "updated_at" := Str(now), "places" := List([])]
                && amenitiesDb == Put(old(amenitiesDb), newId, r.value)
    {
      var guard := AmenityRules.CreateNameGuard(data);
      if guard.Fail? {
        return Failure(guard.error);
      }
      var amenity := map["id" := Str(newId), "name" := data["name"], "created_at" := Str(now),
                         "updated_at" := Str(now), "places" := List([])];
      amenitiesDb := Put(amenitiesDb, newId, amenity);
      return Success(amenity);
    }

    /** `get_amenity`: a missing (or empty) record raises "not found"; every
        stored amenity has a `places` entry, so only a missing one does. */
    function GetAmenity(id: string): (r: Result<Record, Error>)
      reads this
      ensures r.Success? <==> id in amenitiesDb.items && amenitiesDb.items[id] != map[]
      ensures r.Failure? ==> r.error == AmenityNotFound
      ensures r.Success? ==> r.value == amenitiesDb.items[id]
      ensures Valid() ==> (r.Success? <==> id in amenitiesDb.items)
    {
      if id in amenitiesDb.items && amenitiesDb.items[id] != map[] then Success(amenitiesDb.items[id])
      else Failure(AmenityNotFound)
    }

    /** `get_all_amenities`: the stored amenities in insertion order. Its
        loop that adds a missing `places` list has nothing to do, since
        every amenity already has one. */
    function GetAllAmenities(): (r: seq<Record>)
      reads this
      requires Valid()
      ensures |r| == |amenitiesDb.keys|
      ensures forall i :: 0 <= i < |r| ==> r[i] == amenitiesDb.items[amenitiesDb.keys[i]] && AmenityShaped(r[i])
    {
      ValuesOf(amenitiesDb)
    }

    /** `update_amenity`: the id must be stored and a sent name must not be
        blank; then the name is replaced and `updated_at` refreshed. */
    method UpdateAmenity(id: string, data: Record, now: Timestamp) returns (r: Result<Record, Error>)
      requires Valid()
      modifies this`amenitiesDb
      ensures Valid()
      ensures id !in old(amenitiesDb.items) ==> r == Failure(AmenityNotFound) && amenitiesDb == old(amenitiesDb)
      ensures id in old(amenitiesDb.items) && AmenityRules.UpdateNameGuard(data).Fail? ==>
                r == Failure(AmenityRules.UpdateNameGuard(data).error) && amenitiesDb == old(amenitiesDb)
      ensures id in old(amenitiesDb.items) && AmenityRules.UpdateNameGuard(data).Pass? ==>
                r == Success(Overwritten(old(amenitiesDb.items[id]), data, {"name"})["updated_at" := Str(now)]) &&
                amenitiesDb == Put(old(amenitiesDb), id, r.value)
    {
      if id !in amenitiesDb.items {
        return Failure(AmenityNotFound);
      }
      var guard := AmenityRules.UpdateNameGuard(data);
      if guard.Fail? {
        return Failure(guard.error);
      }
      var amenity := CopyKeys(amenitiesDb.items[id], data, {"name"});
      amenity := amenity["updated_at" := Str(now)];
      amenitiesDb := Put(amenitiesDb, id, amenity);
      return Success(amenity);
    }

    // Places

    /** `create_place`'s loop over the sent amenity ids: a summary of each
        id that names a stored amenity, unknown ids skipped. */
    method ResolveAmenities(ids: seq<Value>) returns (objs: seq<Value>)
      ensures objs == Summaries(ids, amenitiesDb)
    {
      objs := [];
      var i := 0;
      while i < |ids|
        invariant 0 <= i <= |ids|
        invariant objs == Summaries(ids[..i], amenitiesDb)
      {
        assert ids[..i + 1][..i] == ids[..i];
        var id := ids[i];
        if Known(amenitiesDb, id) {
          objs := objs + [AmenitySummary(id, amenitiesDb.items[id.s])];
        }
        i := i + 1;
      }
      assert ids[..|ids|] == ids;
    }

    /** `create_place`: the payload checks, then (inside the `try`) the
        amenity ids are iterated; a failure there is rewrapped as "Failed to
        create place". */
    method CreatePlace(data: Record, newId: string, createdNow: Timestamp, updatedNow: Timestamp)
      returns (r: Result<Record, Error>)
      requires Valid()
      modifies this`placesDb
      ensures Valid()
      ensures var check := Payloads.PlacePayloadCheck(data, Known(usersDb, Get(data, "owner_id", Null)));
              check.Fail? ==> r == Failure(check.error) && placesDb == old(placesDb)
      ensures Payloads.PlacePayloadCheck(data, Known(usersDb, Get(data, "owner_id", Null))).Pass? &&
              Iterate(Get(data, "amenities", List([]))).None? ==>
                r == Failure(PlaceCreationFailed(NotIterable("amenities"))) && placesDb == old(placesDb)
      ensures Payloads.PlacePayloadCheck(data, Known(usersDb, Get(data, "owner_id", Null))).Pass? &&
              Iterate(Get(data, "amenities", List([]))).Some? ==>
                r == Success(NewPlace(data, usersDb, newId, createdNow, updatedNow,
                                      Summaries(Iterate(Get(data, "amenities", List([]))).value, amenitiesDb))) &&
                placesDb == Put(old(placesDb), newId, r.value)
    {
      var check := Payloads.PlacePayloadCheck(data, Known(usersDb, Get(data, "owner_id", Null)));
      if check.Fail? {
        return Failure(check.error);
      }
      var ids := Iterate(Get(data, "amenities", List([])));
      if ids.None? {
        return Failure(PlaceCreationFailed(NotIterable("amenities")));
      }
      var objs := ResolveAmenities(ids.value);
      var place := NewPlace(data, usersDb, newId, createdNow, updatedNow, objs);
      placesDb := Put(placesDb, newId, place);
      return Success(place);
    }

    /** `get_place`: the stored record with its owner summary, or None. */
    function GetPlace(id: string): (r: Option<Record>)
      reads this
      ensures r.Some? <==> id in placesDb.items
      ensures r.Some? ==> r.value == Viewed(placesDb.items[id], usersDb)
      ensures r.Some? ==> r.value["owner"].Dict? && "id" in r.value["owner"].entries
      ensures r.Some? && Truthy(Get(placesDb.items[id], "owner_id", Null)) ==>
                r.value["owner"].entries["id"] == placesDb.items[id]["owner_id"]
    {
      if id in placesDb.items then Some(Viewed(placesDb.items[id], usersDb)) else None
    }

    /** `get_places` (and `get_all_places`, which returns it): every stored
        place, in order, with its defaults, owner summary and amenity list. */
    method GetPlaces(now: Timestamp) returns (r: seq<Record>)
      requires placesDb.Valid()
      ensures |r| == |placesDb.keys|
      ensures forall i :: 0 <= i < |r| ==> r[i] == Listed(placesDb.items[placesDb.keys[i]], usersDb, amenitiesDb, now)
    {
      r := [];
      var i := 0;
      var keys := placesDb.keys;
      while i < |keys|
        invariant 0 <= i <= |keys|
        invariant |r| == i
        invariant forall j :: 0 <= j < i ==> r[j] == Listed(placesDb.items[keys[j]], usersDb, amenitiesDb, now)
      {
        assert keys[i] in placesDb.items;
        r := r + [Listed(placesDb.items[keys[i]], usersDb, amenitiesDb, now)];
        i := i + 1;
      }
    }

    /** `update_place`'s loop over the sent amenity ids: for each stored
        amenity, its full summary is collected and the place id is added to
        its `places` list once. */
    method LinkAmenities(placeId: Value, ids: seq<Value>, now: Timestamp) returns (objs: seq<Value>)
      requires AmenitiesValid()
      modifies this`amenitiesDb
      ensures AmenitiesValid()
      ensures objs == FullSummaries(ids, old(amenitiesDb), now)
      ensures amenitiesDb == Linked(old(amenitiesDb), ids, placeId)
    {
      ghost var start := amenitiesDb;
      var table := amenitiesDb;
      objs := [];
      var i := 0;
      while i < |ids|
        invariant 0 <= i <= |ids|
        invariant objs == FullSummaries(ids[..i], start, now)
        invariant table == Linked(start, ids[..i], placeId)
      {
        var id := ids[i];
        assert ids[..i + 1] == ids[..i] + [id];
        LinkStep(start, ids[..i], id, placeId, now);
        if Known(table, id) {
          var amenity := table.items[id.s];
          objs := objs + [FullSummary(id, amenity, now)];
          table := Put(table, id.s, LinkPlace(amenity, placeId));
        }
        i := i + 1;
      }
      assert ids[..|ids|] == ids;
      LinkedKeepsShape(start, ids, placeId);
      amenitiesDb := table;
    }

    /** `update_place`'s writes to the record: the copy loop over the sent
        keys (all but `id`), the new `updated_at`, and the owner summary of the
        owner the record now names. */
    method RefreshPlace(place: Record, data: Record, now: Timestamp) returns (p: Record)
      ensures p == Refreshed(place, data, usersDb, now)
    {
      var owner := Get(data, "owner_id", Get(place, "owner_id", Null));
      p := CopyKeys(place, data, data.Keys - {"id"});
      p := p["updated_at" := Str(now)];
      if Truthy(owner) && Known(usersDb, owner) {
        p := p["owner" := KnownSummary(owner, usersDb.items[owner.s], "")];
      }
    }

    /** `update_place`: None for an unknown id; the numeric guards and the
        owner check; then the record is updated in place (`Refreshed`), and
        when `amenities` is sent the amenities are linked and their
        summaries stored. A non-iterable `amenities` raises after the record
        has already been changed. */
    method UpdatePlace(id: string, data: Record, now: Timestamp) returns (r: Result<Option<Record>, Error>)
      requires Valid()
      modifies this`placesDb, this`amenitiesDb
      ensures Valid()
      ensures id !in old(placesDb.items) ==>
                r == Success(None) && placesDb == old(placesDb) && amenitiesDb == old(amenitiesDb)
      ensures id in old(placesDb.items) && PlaceRules.NumberGuards(data).Fail? ==>
                r == Failure(PlaceRules.NumberGuards(data).error) &&
                placesDb == old(placesDb) && amenitiesDb == old(amenitiesDb)
      ensures id in old(placesDb.items) && PlaceRules.NumberGuards(data).Pass? &&
              "owner_id" in data && !Known(usersDb, data["owner_id"]) ==>
                r == Failure(OwnerNotFound(data["owner_id"])) &&
                placesDb == old(placesDb) && amenitiesDb == old(amenitiesDb)
      ensures id in old(placesDb.items) && PlaceUpdateAccepted(data, usersDb) && "amenities" !in data ==>
                var p := Refreshed(old(placesDb.items[id]), data, usersDb, now);
                r == Success(Some(p)) && placesDb == Put(old(placesDb), id, p) && amenitiesDb == old(amenitiesDb)
      ensures id in old(placesDb.items) && PlaceUpdateAccepted(data, usersDb) && "amenities" in data &&
              Iterate(data["amenities"]).None? ==>
                r == Failure(NotIterable("amenities")) &&
                placesDb == Put(old(placesDb), id, Refreshed(old(placesDb.items[id]), data, usersDb, now)) &&
                amenitiesDb == old(amenitiesDb)
      ensures id in old(placesDb.items) && PlaceUpdateAccepted(data, usersDb) && "amenities" in data &&
              Iterate(data["amenities"]).Some? ==>
                var ids := Iterate(data["amenities"]).value;
                var p := Refreshed(old(placesDb.items[id]), data, usersDb, now)
                           ["amenities" := List(FullSummaries(ids, old(amenitiesDb), now))];
                r == Success(Some(p)) && placesDb == Put(old(placesDb), id, p) &&
                amenitiesDb == Linked(old(amenitiesDb), ids, Str(id))
    {
      if id !in placesDb.items {
        return Success(None);
      }
      var guards := PlaceRules.NumberGuards(data);
      if guards.Fail? {
        return Failure(guards.error);
      }
      if "owner_id" in data && !Known(usersDb, data["owner_id"]) {
        return Failure(OwnerNotFound(data["owner_id"]));
      }
      // The record is changed in place, so the changes made so far stay
      // even when iterating `amenities` then raises.
      var p := RefreshPlace(placesDb.items[id], data, now);
      if "amenities" in data {
        var ids := Iterate(data["amenities"]);
        if ids.None? {
          placesDb := Put(placesDb, id, p);
          return Failure(NotIterable("amenities"));
        }
        var objs := LinkAmenities(Str(id), ids.value, now);
        p := p["amenities" := List(objs)];
      }
      placesDb := Put(placesDb, id, p);
      return Success(Some(p));
    }

    /** `delete_place`: removes the record; reviews and amenity links that
        name it are left as they are. */
    method DeletePlace(id: string) returns (deleted: bool)
      requires Valid()
      modifies this`placesDb
      ensures Valid()
      ensures deleted <==> id in old(placesDb.items)
      ensures placesDb == Remove(old(placesDb), id)
    {
      deleted := id in placesDb.items;
      placesDb := Remove(placesDb, id);
    }

    // Reviews

    /** `create_review`: the user and place must be stored, the rating is
        normalised, the text is required; the record keeps the sent text,
        ids and normalised rating (0 when none was sent). */
    method CreateReview(data: Record, newId: string, now: Timestamp) returns (r: Result<Record, Error>)
      requires Valid()
      modifies this`reviewsDb
      ensures Valid()
      ensures var userId := Get(data, "user_id", Null);
              var placeId := Get(data, "place_id", Null);
              var check := Payloads.ReviewPayloadCheck(data, Truthy(userId) && Known(usersDb, userId),
                                                       Truthy(placeId) && Known(placesDb, placeId));
              && (check.Failure? ==> r == Failure(check.error) && reviewsDb == old(reviewsDb))
              && (check.Success? ==>
                    && r == Success(NewReview(check.value, newId, now))
                    && r.value["text"] == data["text"]
                    && r.value["user_id"] == userId && Known(usersDb, userId)
                    && r.value["place_id"] == placeId && Known(placesDb, placeId)
                    && r.value["rating"] == (if "rating" in data then Int(ToInt(data["rating"]).value) else Int(0))
                    && reviewsDb == Put(old(reviewsDb), newId, r.value))
    {
      var userId := Get(data, "user_id", Null);
      var placeId := Get(data, "place_id", Null);
      var check := Payloads.ReviewPayloadCheck(data, Truthy(userId) && Known(usersDb, userId),
                                               Truthy(placeId) && Known(placesDb, placeId));
      if check.Failure? {
        return Failure(check.error);
      }
      var normal := check.value;
      var review := NewReview(normal, newId, now);
      reviewsDb := Put(reviewsDb, newId, review);
      return Success(review);
    }

    /** `get_review`: `reviews_db.get(review_id)`. */
    function GetReview(id: string): (r: Option<Record>)
      reads this
      ensures r.Some? <==> id in reviewsDb.items
      ensures r.Some? ==> r.value == reviewsDb.items[id] && (Valid() ==> ReviewShaped(r.value))
    {
      Lookup(reviewsDb, id)
    }

    /** `get_all_reviews`: the stored reviews in insertion order. */
    function GetAllReviews(): (r: seq<Record>)
      reads this
      requires Valid()
      ensures |r| == |reviewsDb.items|
      ensures forall x :: x in r <==> exists id :: id in reviewsDb.items && reviewsDb.items[id] == x
    {
      AllValuesAreStored(reviewsDb);
      ValuesOf(reviewsDb)
    }

    /** `get_reviews_by_place`: the place must be stored; then every stored
        review whose `place_id` is that id. */
    function GetReviewsByPlace(placeId: string): (r: Result<seq<Record>, Error>)
      reads this
      requires Valid()
      ensures placeId !in placesDb.items ==> r == Failure(PlaceNotFound(Str(placeId)))
      ensures placeId in placesDb.items ==> r.Success?
      ensures r.Success? ==> |r.value| <= |reviewsDb.items|
      ensures r.Success? ==> forall x :: x in r.value <==>
                Get(x, "place_id", Null) == Str(placeId) && exists id :: id in reviewsDb.items && reviewsDb.items[id] == x
    {
      if placeId !in placesDb.items then Failure(PlaceNotFound(Str(placeId)))
      else
        AllValuesAreStored(reviewsDb);
        Success(Where(ValuesOf(reviewsDb), x => Get(x, "place_id", Null) == Str(placeId)))
    }

    /** `update_review`: None for an unknown id; the ids may not change, the
        rating is normalised and a sent text must be truthy; then every other
        sent key is copied and `updated_at` refreshed. The review's id, user,
        place and creation time never change. */
    method UpdateReview(id: string, data: Record, now: Timestamp) returns (r: Result<Option<Record>, Error>)
      requires Valid()
      modifies this`reviewsDb
      ensures Valid()
      ensures id !in old(reviewsDb.items) ==> r == Success(None) && reviewsDb == old(reviewsDb)
      ensures id in old(reviewsDb.items) ==>
                var stored := old(reviewsDb.items[id]);
                var check := Payloads.ReviewUpdateCheck(data, stored["user_id"], stored["place_id"]);
                && (check.Failure? ==> r == Failure(check.error) && reviewsDb == old(reviewsDb))
                && (check.Success? ==>
                      var n := Overwritten(stored, check.value, check.value.Keys - FrozenReviewKeys)["updated_at" := Str(now)];
                      && r == Success(Some(n))
                      && reviewsDb == Put(old(reviewsDb), id, n)
                      && (forall k :: k in FrozenReviewKeys && k in stored ==> k in n && n[k] == stored[k]))
    {
      if id !in reviewsDb.items {
        return Success(None);
      }
      var stored := reviewsDb.items[id];
      var check := Payloads.ReviewUpdateCheck(data, stored["user_id"], stored["place_id"]);
      if check.Failure? {
        return Failure(check.error);
      }
      var n := CopyKeys(stored, check.value, check.value.Keys - FrozenReviewKeys);
      n := n["updated_at" := Str(now)];
      reviewsDb := Put(reviewsDb, id, n);
      return Success(Some(n));
    }

    /** `delete_review`. */
    method DeleteReview(id: string) returns (deleted: bool)
      requires Valid()
      modifies this`reviewsDb
      ensures Valid()
      ensures deleted <==> id in old(reviewsDb.items)
      ensures reviewsDb == Remove(old(reviewsDb), id)
    {
      deleted := id in reviewsDb.items;
      reviewsDb := Remove(reviewsDb, id);
    }
  }
}
