/** The place records the part2 in-memory facade builds and shows
    (part2 app/services/facade.py): owner summaries, amenity summaries,
    the normalised listing of `get_places`, and the back-links
    `update_place` adds to amenities. The tables are dicts from id
    strings to records. */
module PlaceViews {
  import opened Wrappers
  import opened Values
  import opened Records
  import opened OrderedDicts

  type Table = ODict<string, Record>

  /** `v in table`: only a string can equal one of the table's keys. */
  predicate Known(table: Table, v: Value)
  {
    v.Str? && v.s in table.items
  }

  /** The `owner` entry for an owner found in `users_db`; `missing` is the
      default for an absent name or email (`''` or `'(missing)'`). */
  function KnownSummary(ownerId: Value, owner: Record, missing: string): (r: Value)
    ensures r.Dict? && r.entries.Keys == {"id", "first_name", "last_name", "email"}
    ensures r.entries["id"] == ownerId
    ensures r.entries["first_name"] == Get(owner, "first_name", Str(missing))
    ensures r.entries["last_name"] == Get(owner, "last_name", Str(missing))
    ensures r.entries["email"] == Get(owner, "email", Str(missing))
  {
    Dict(map["id" := ownerId, "first_name" := Get(owner, "first_name", Str(missing)),
             "last_name" := Get(owner, "last_name", Str(missing)), "email" := Get(owner, "email", Str(missing))])
  }

  /** The `owner` entry when the owner id is empty or not a known user. */
  function UnknownSummary(ownerId: Value): (r: Value)
    ensures r.Dict? && r.entries.Keys == {"id", "first_name", "last_name", "email"}
    ensures r.entries["id"] == if Truthy(ownerId) then ownerId else Str("")
    ensures r.entries["first_name"] == Str("(unknown)")
    ensures r.entries["last_name"] == Str("(unknown)") && r.entries["email"] == Str("(unknown)")
  {
    Dict(map["id" := if Truthy(ownerId) then ownerId else Str(""), "first_name" := Str("(unknown)"),
             "last_name" := Str("(unknown)"), "email" := Str("(unknown)")])
  }

  /** The owner summary of `get_place` and `get_places`. */
  function OwnerView(ownerId: Value, users: Table, missing: string): (r: Value)
    ensures Truthy(ownerId) && Known(users, ownerId) ==> r == KnownSummary(ownerId, users.items[ownerId.s], missing)
    ensures !(Truthy(ownerId) && Known(users, ownerId)) ==> r == UnknownSummary(ownerId)
  {
    if Truthy(ownerId) && Known(users, ownerId) then KnownSummary(ownerId, users.items[ownerId.s], missing)
    else UnknownSummary(ownerId)
  }

  /** `{'id': amenity_id, 'name': amenity.get('name', 'Unknown amenity')}`. */
  function AmenitySummary(id: Value, amenity: Record): Value
  {
    Dict(map["id" := id, "name" := Get(amenity, "name", Str("Unknown amenity"))])
  }

  /** The ids of `ids` that name stored amenities, in their order. */
  function KnownIds(ids: seq<Value>, amenities: Table): (r: seq<Value>)
    ensures |r| <= |ids|
    ensures forall i :: 0 <= i < |r| ==> Known(amenities, r[i])
    decreases |ids|
  {
    if ids == [] then []
    else KnownIds(ids[..|ids| - 1], amenities) + (if Known(amenities, ids[|ids| - 1]) then [ids[|ids| - 1]] else [])
  }

  /** The list `create_place` builds: a summary for each known id, in order. */
  function Summaries(ids: seq<Value>, amenities: Table): (r: seq<Value>)
    decreases |ids|
  {
    if ids == [] then []
    else
      var last := ids[|ids| - 1];
      Summaries(ids[..|ids| - 1], amenities) +
        (if Known(amenities, last) then [AmenitySummary(last, amenities.items[last.s])] else [])
  }

  /** Exactly the known ids are kept, each summarised from its stored
      amenity, in input order. */
  lemma {:induction false} SummariesOfKnownIds(ids: seq<Value>, amenities: Table)
    ensures |Summaries(ids, amenities)| == |KnownIds(ids, amenities)|
    ensures forall i :: 0 <= i < |KnownIds(ids, amenities)| ==>
              Summaries(ids, amenities)[i] ==
                AmenitySummary(KnownIds(ids, amenities)[i], amenities.items[KnownIds(ids, amenities)[i].s])
    ensures forall x :: x in KnownIds(ids, amenities) <==> x in ids && Known(amenities, x)
    decreases |ids|
  {
    if ids != [] {
      var init := ids[..|ids| - 1];
      SummariesOfKnownIds(init, amenities);
      forall x ensures x in ids <==> x in init || x == ids[|ids| - 1] {
        if x in ids {
          var j :| 0 <= j < |ids| && ids[j] == x;
          if j < |ids| - 1 { assert init[j] == x; }
        }
      }
    }
  }

  /** The place's list of amenity ids, the list `append` adds to. */
  function PlacesOf(amenity: Record): seq<Value>
  {
    if "places" in amenity && amenity["places"].List? then amenity["places"].items else []
  }

  /** `if place_id not in amenity['places']: amenity['places'].append(place_id)`. */
  function LinkPlace(amenity: Record, placeId: Value): (r: Record)
    ensures r.Keys == amenity.Keys + {"places"}
    ensures forall k :: k in amenity && k != "places" ==> r[k] == amenity[k]
    ensures placeId in PlacesOf(r)
    ensures PlacesOf(r) == AddOnce(PlacesOf(amenity), placeId)
  {
    amenity["places" := List(AddOnce(PlacesOf(amenity), placeId))]
  }

  /** The amenities table after `update_place` has linked `placeId` from
      every known amenity listed in `ids`; nothing else changes. */
  function Linked(amenities: Table, ids: seq<Value>, placeId: Value): (r: Table)
    ensures r.keys == amenities.keys && r.items.Keys == amenities.items.Keys
    ensures amenities.Valid() ==> r.Valid()
    ensures forall k :: k in amenities.items && Str(k) in ids ==> r.items[k] == LinkPlace(amenities.items[k], placeId)
    ensures forall k :: k in amenities.items && Str(k) !in ids ==> r.items[k] == amenities.items[k]
  {
    ODict(amenities.keys,
          map k | k in amenities.items :: if Str(k) in ids then LinkPlace(amenities.items[k], placeId) else amenities.items[k])
  }

  /** Linking twice is linking once. */
  lemma LinkPlaceIdempotent(amenity: Record, placeId: Value)
    ensures LinkPlace(LinkPlace(amenity, placeId), placeId) == LinkPlace(amenity, placeId)
  {
    AddOnceIdempotent(PlacesOf(amenity), placeId);
    var once := LinkPlace(amenity, placeId);
    assert once["places" := once["places"]] == once;
  }

  /** Linking one more id that names a stored amenity re-links that
      amenity (a second link changes nothing) and no other. */
  lemma LinkedSnocKnown(amenities: Table, s: seq<Value>, x: Value, placeId: Value)
    requires amenities.Valid() && Known(amenities, x)
    ensures Linked(amenities, s + [x], placeId) ==
              Put(Linked(amenities, s, placeId), x.s, LinkPlace(Linked(amenities, s, placeId).items[x.s], placeId))
  {
    var before := Linked(amenities, s, placeId);
    var after := Linked(amenities, s + [x], placeId);
    LinkPlaceIdempotent(amenities.items[x.s], placeId);
    var put := Put(before, x.s, LinkPlace(before.items[x.s], placeId));
    forall k | k in after.items ensures after.items[k] == put.items[k] {
      if k != x.s { assert Str(k) in s + [x] <==> Str(k) in s; }
    }
    assert put.items == after.items;
  }

  /** Linking one more id that names no stored amenity changes nothing. */
  lemma LinkedSnocUnknown(amenities: Table, s: seq<Value>, x: Value, placeId: Value)
    requires !Known(amenities, x)
    ensures Linked(amenities, s + [x], placeId) == Linked(amenities, s, placeId)
  {
    var before := Linked(amenities, s, placeId);
    var after := Linked(amenities, s + [x], placeId);
    forall k | k in after.items ensures after.items[k] == before.items[k] {
      assert Str(k) in s + [x] <==> Str(k) in s;
    }
    assert after.items == before.items;
  }

  /** The object `update_place` builds for a known amenity: id, name and
      both timestamps (each defaulting to the current time). */
  function FullSummary(id: Value, amenity: Record, now: Timestamp): Value
  {
    Dict(map["id" := id, "name" := Get(amenity, "name", Str("Unknown amenity")),
             "created_at" := Get(amenity, "created_at", Str(now)),
             "updated_at" := Get(amenity, "updated_at", Str(now))])
  }

  /** Linking a place does not change what the amenity's summary shows. */
  lemma LinkPlaceKeepsSummary(id: Value, amenity: Record, placeId: Value, now: Timestamp)
    ensures FullSummary(id, LinkPlace(amenity, placeId), now) == FullSummary(id, amenity, now)
    ensures AmenitySummary(id, LinkPlace(amenity, placeId)) == AmenitySummary(id, amenity)
  {
  }

  /** The list `update_place` stores under `amenities`. */
  function FullSummaries(ids: seq<Value>, amenities: Table, now: Timestamp): (r: seq<Value>)
    decreases |ids|
  {
    if ids == [] then []
    else
      var last := ids[|ids| - 1];
      FullSummaries(ids[..|ids| - 1], amenities, now) +
        (if Known(amenities, last) then [FullSummary(last, amenities.items[last.s], now)] else [])
  }

  /** One step of `update_place`'s amenity loop, from the table `Linked`
      has made of `start` so far: an id is known there exactly when it was
      known at the start, its summary is the one the start gives, and the
      table and the summaries grow as `Linked` and `FullSummaries` say. */
  lemma LinkStep(start: Table, s: seq<Value>, x: Value, placeId: Value, now: Timestamp)
    requires start.Valid()
    ensures Known(Linked(start, s, placeId), x) <==> Known(start, x)
    ensures Known(start, x) ==>
              FullSummary(x, Linked(start, s, placeId).items[x.s], now) == FullSummary(x, start.items[x.s], now)
    ensures FullSummaries(s + [x], start, now) ==
              FullSummaries(s, start, now) + (if Known(start, x) then [FullSummary(x, start.items[x.s], now)] else [])
    ensures Known(start, x) ==>
              Linked(start, s + [x], placeId) ==
                Put(Linked(start, s, placeId), x.s, LinkPlace(Linked(start, s, placeId).items[x.s], placeId))
    ensures !Known(start, x) ==> Linked(start, s + [x], placeId) == Linked(start, s, placeId)
  {
    assert (s + [x])[..|s|] == s;
    if Known(start, x) {
      LinkedSnocKnown(start, s, x, placeId);
      LinkPlaceKeepsSummary(x, start.items[x.s], placeId, now);
    } else {
      LinkedSnocUnknown(start, s, x, placeId);
    }
  }

  /** `update_place` keeps the known ids, in order, like `create_place`. */
  lemma {:induction false} FullSummariesOfKnownIds(ids: seq<Value>, amenities: Table, now: Timestamp)
    ensures |FullSummaries(ids, amenities, now)| == |KnownIds(ids, amenities)|
    ensures forall i :: 0 <= i < |KnownIds(ids, amenities)| ==>
              FullSummaries(ids, amenities, now)[i] ==
                FullSummary(KnownIds(ids, amenities)[i], amenities.items[KnownIds(ids, amenities)[i].s], now)
    decreases |ids|
  {
    if ids != [] {
      FullSummariesOfKnownIds(ids[..|ids| - 1], amenities, now);
      SummariesOfKnownIds(ids[..|ids| - 1], amenities);
    }
  }

  /** The fields `get_places` makes sure every listed place has, with their
      defaults. */
  function FieldDefault(field: string, now: Timestamp): Value
  {
    if field in {"price", "latitude", "longitude"} then Float(0.0)
    else if field in {"created_at", "updated_at"} then Str(now)
    else Str("")
  }

  const RequiredFields: seq<string> :=
    ["id", "title", "description", "price", "latitude", "longitude", "owner_id", "created_at", "updated_at"]

  /** The place with every missing required field set to its default. */
  function WithDefaults(place: Record, now: Timestamp): (r: Record)
    ensures r.Keys == place.Keys + (set f | f in RequiredFields)
    ensures forall k :: k in place ==> r[k] == place[k]
    ensures forall f :: f in RequiredFields && f !in place ==> r[f] == FieldDefault(f, now)
  {
    map k | k in place.Keys + (set f | f in RequiredFields) :: if k in place then place[k] else FieldDefault(k, now)
  }

  /** The amenity list `get_places` shows: a list of `{id, name}` objects is
      kept, a list of id strings is resolved, anything else is dropped. */
  function NormalizedAmenities(v: Value, amenities: Table): (r: Value)
    ensures r.List?
    ensures v.List? && (forall a :: a in v.items ==> a.Dict? && "id" in a.entries && "name" in a.entries) ==> r == v
  {
    if !v.List? then List([])
    else if forall a :: a in v.items ==> a.Dict? && "id" in a.entries && "name" in a.entries then v
    else if forall a :: a in v.items ==> a.Str? then List(Summaries(v.items, amenities))
    else List([])
  }

  /** One entry of `get_places`. */
  function Listed(place: Record, users: Table, amenities: Table, now: Timestamp): Record
  {
    var filled := WithDefaults(place, now);
    filled["owner" := OwnerView(Get(filled, "owner_id", Null), users, "")]
          ["amenities" := NormalizedAmenities(Get(filled, "amenities", Null), amenities)]
  }

  /** A listed place has every required field, an owner summary and an
      amenity list; its other stored fields are shown unchanged, and a
      missing required field shows its default. */
  lemma ListedShape(place: Record, users: Table, amenities: Table, now: Timestamp)
    ensures Listed(place, users, amenities, now).Keys == place.Keys + (set f | f in RequiredFields) + {"owner", "amenities"}
    ensures Listed(place, users, amenities, now)["owner"].Dict? && Listed(place, users, amenities, now)["amenities"].List?
    ensures forall k :: k in place && k != "owner" && k != "amenities" ==> Listed(place, users, amenities, now)[k] == place[k]
    ensures forall f :: f in RequiredFields && f !in place ==> Listed(place, users, amenities, now)[f] == FieldDefault(f, now)
  {
  }

  /** `get_place`: the stored record plus the owner summary. */
  function Viewed(place: Record, users: Table): (r: Record)
    ensures r.Keys == place.Keys + {"owner"}
    ensures forall k :: k in place && k != "owner" ==> r[k] == place[k]
    ensures r["owner"] == OwnerView(Get(place, "owner_id", Null), users, "(missing)")
  {
    place["owner" := OwnerView(Get(place, "owner_id", Null), users, "(missing)")]
  }
}
