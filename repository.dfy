/** The repositories of part3 (part3 app/persistence/repository.py): the
    in-memory one, a dict from id to object, and the map-level contract of
    the SQLAlchemy one, a table of rows keyed by primary key. An object is
    represented by the record of its attributes, and a query's row order by
    insertion order. */
module Repositories {
  import opened Wrappers
  import opened Values
  import opened Errors
  import opened Records
  import opened OrderedDicts
  import opened PersistenceModels

  /** The generator `next((obj for obj in rows if getattr(obj, name) ==
      value), None)`: the position of the first row whose attribute equals
      `value` (`|rows|` when none does); `getattr` raises on the first row
      without the attribute that the scan reaches. */
  function FirstMatch(rows: seq<Record>, name: string, value: Value): (r: Result<nat, Error>)
    ensures r.Success? ==> r.value <= |rows|
    ensures r.Success? ==> forall j :: 0 <= j < r.value ==> name in rows[j] && !Equal(rows[j][name], value)
    ensures r.Success? && r.value < |rows| ==> name in rows[r.value] && Equal(rows[r.value][name], value)
    ensures r.Failure? ==> r.error == AttributeMissing(name)
    ensures r.Failure? ==> exists j :: 0 <= j < |rows| && name !in rows[j] &&
                                       forall k :: 0 <= k < j ==> name in rows[k] && !Equal(rows[k][name], value)
  {
    if rows == [] then Success(0)
    else if name !in rows[0] then Failure(AttributeMissing(name))
    else if Equal(rows[0][name], value) then Success(0)
    else match FirstMatch(rows[1..], name, value)
      case Failure(e) =>
        ghost var j :| 0 <= j < |rows[1..]| && name !in rows[1..][j] &&
                       forall k :: 0 <= k < j ==> name in rows[1..][k] && !Equal(rows[1..][k][name], value);
        assert name !in rows[j + 1];
        Failure(e)
      case Success(i) => Success(i + 1)
  }

  /** When every row has the attribute the scan cannot fail, and it finds
      nothing exactly when no row holds the value. */
  lemma {:induction false} FirstMatchTotal(rows: seq<Record>, name: string, value: Value)
    requires forall j :: 0 <= j < |rows| ==> name in rows[j]
    ensures FirstMatch(rows, name, value).Success?
    ensures FirstMatch(rows, name, value).value == |rows| <==>
              forall j :: 0 <= j < |rows| ==> !Equal(rows[j][name], value)
  {
    if rows != [] && !Equal(rows[0][name], value) {
      FirstMatchTotal(rows[1..], name, value);
      if FirstMatch(rows, name, value).value == |rows| {
        forall j | 0 <= j < |rows| ensures !Equal(rows[j][name], value) {
          if j > 0 { assert rows[j] == rows[1..][j - 1]; }
        }
      }
    }
  }

  /** `None` or the row at the position `FirstMatch` found. */
  function RowAt(rows: seq<Record>, i: nat): (r: Option<Record>)
    ensures i < |rows| ==> r == Some(rows[i])
    ensures i >= |rows| ==> r == None
  {
    if i < |rows| then Some(rows[i]) else None
  }

  class InMemoryRepository {
    /** `_storage`. */
    var storage: ODict<Value, Record>

    ghost predicate Valid()
      reads this
    {
      storage.Valid()
    }

    constructor ()
      ensures Valid() && storage == Empty()
    {
      storage := Empty();
    }

    /** `add`: `self._storage[obj.id] = obj`; an object without an `id`
        attribute raises. Any earlier entry under the id is replaced. */
    method Add(obj: Record) returns (r: Outcome<Error>)
      requires Valid()
      modifies this
      ensures Valid()
      ensures "id" !in obj ==> r == Fail(AttributeMissing("id")) && storage == old(storage)
      ensures "id" in obj ==> r == Pass && storage == Put(old(storage), obj["id"], obj)
    {
      if "id" !in obj {
        return Fail(AttributeMissing("id"));
      }
      storage := Put(storage, obj["id"], obj);
      return Pass;
    }

    /** `get`: `dict.get`, None for a missing id. */
    function Get(id: Value): (r: Option<Record>)
      reads this
      ensures r.Some? <==> id in storage.items
      ensures r.Some? ==> r.value == storage.items[id]
    {
      Lookup(storage, id)
    }

    /** `get_all`: the stored objects in insertion order. */
    function GetAll(): (r: seq<Record>)
      reads this
      requires Valid()
      ensures |r| == |storage.keys| == |storage.items|
      ensures forall i :: 0 <= i < |r| ==> r[i] == storage.items[storage.keys[i]]
    {
      ValuesOf(storage)
    }

    /** `update`: the stored object's own `update(data)` (the business-layer
        one: protected keys, then a fresh `updated_at`); an unknown id
        changes nothing. */
    method Update(id: Value, data: Record, now: Timestamp)
      requires Valid()
      modifies this
      ensures Valid()
      ensures id !in old(storage.items) ==> storage == old(storage)
      ensures id in old(storage.items) ==> storage == Put(old(storage), id, Updated(old(storage.items[id]), data, now))
    {
      match Get(id)
      case None =>
      case Some(obj) =>
        var copied := CopyKeys(obj, data, data.Keys - Protected);
        storage := Put(storage, id, copied["updated_at" := Str(now)]);
    }

    /** `delete`: a missing id is a no-op; otherwise only that id goes. */
    method Delete(id: Value)
      requires Valid()
      modifies this
      ensures Valid()
      ensures storage == Remove(old(storage), id)
    {
      storage := Remove(storage, id);
    }

    /** `get_by_attribute`: the first stored object, in insertion order,
        whose attribute equals `value`, or None. */
    function GetByAttribute(name: string, value: Value): (r: Result<Option<Record>, Error>)
      reads this
      requires Valid()
      ensures r.Failure? ==> r.error == AttributeMissing(name)
      ensures r.Success? && r.value.Some? ==>
                exists i :: 0 <= i < |storage.keys| && r.value.value == storage.items[storage.keys[i]] &&
                            name in r.value.value && Equal(r.value.value[name], value)
      ensures r.Success? && r.value.Some? ==>
                exists i :: 0 <= i < |GetAll()| && r.value.value == GetAll()[i] &&
                            forall j :: 0 <= j < i ==> name in GetAll()[j] && !Equal(GetAll()[j][name], value)
      ensures r.Success? && r.value.None? ==>
                forall j :: 0 <= j < |GetAll()| ==> name in GetAll()[j] && !Equal(GetAll()[j][name], value)
      ensures (forall i :: 0 <= i < |GetAll()| ==> name in GetAll()[i]) ==> r.Success?
    {
      var rows := GetAll();
      match FirstMatch(rows, name, value)
      case Failure(e) => Failure(e)
      case Success(i) => Success(RowAt(rows, i))
    }
  }

  /** The query `filter(column == value).first()`: the position of the first
      row whose column equals `value`; an unset column reads as NULL. */
  function FirstWhere(rows: seq<Record>, name: string, value: Value): (i: nat)
    ensures i <= |rows|
    ensures forall j :: 0 <= j < i ==> !Equal(Get(rows[j], name, Null), value)
    ensures i < |rows| ==> Equal(Get(rows[i], name, Null), value)
  {
    if rows == [] || Equal(Get(rows[0], name, Null), value) then 0
    else 1 + FirstWhere(rows[1..], name, value)
  }

  /** The query `filter(column == value).all()`: every row whose column
      equals `value`, in row order. */
  function AllWhere(rows: seq<Record>, name: string, value: Value): (r: seq<Record>)
    ensures |r| <= |rows|
    ensures forall x :: x in r <==> x in rows && Equal(Get(x, name, Null), value)
  {
    if rows == [] then []
    else (if Equal(Get(rows[0], name, Null), value) then [rows[0]] else []) + AllWhere(rows[1..], name, value)
  }

  /** `.first()` is the head of `.all()`: None exactly when no row matches. */
  lemma {:induction false} FirstWhereIsFirstOfAll(rows: seq<Record>, name: string, value: Value)
    ensures var all := AllWhere(rows, name, value);
            RowAt(rows, FirstWhere(rows, name, value)) == if all == [] then None else Some(all[0])
  {
    if rows != [] && !Equal(Get(rows[0], name, Null), value) {
      FirstWhereIsFirstOfAll(rows[1..], name, value);
      assert RowAt(rows, FirstWhere(rows, name, value)) == RowAt(rows[1..], FirstWhere(rows[1..], name, value));
    }
  }

  /** Two rows of the same place: `.first()` returns one of them, where the
      caller asked for both. */
  lemma FirstDropsSecondMatch()
    ensures var rows := [map["id" := Str("r1"), "place_id" := Str("p")], map["id" := Str("r2"), "place_id" := Str("p")]];
            && RowAt(rows, FirstWhere(rows, "place_id", Str("p"))) == Some(rows[0])
            && AllWhere(rows, "place_id", Str("p")) == rows
  {
    var rows := [map["id" := Str("r1"), "place_id" := Str("p")], map["id" := Str("r2"), "place_id" := Str("p")]];
    assert rows[1..][1..] == [];
  }

  class SqlRepository {
    /** The attribute names of the mapped model class (what `hasattr` and
        `getattr(model_class, name)` find besides a row's own values). */
    const attributes: set<string>
    /** The table: rows keyed by primary key. */
    var rows: ODict<Value, Record>

    ghost predicate Valid()
      reads this
    {
      rows.Valid()
    }

    constructor (attributes: set<string>)
      ensures Valid() && this.attributes == attributes && rows == Empty()
    {
      this.attributes := attributes;
      rows := Empty();
    }

    /** `add`: `session.add` and `commit`; the commit fails when the primary
        key is taken. The object is returned. */
    method Add(obj: Record) returns (r: Result<Record, Error>)
      requires Valid()
      modifies this
      ensures Valid()
      ensures "id" !in obj ==> r == Failure(AttributeMissing("id")) && rows == old(rows)
      ensures "id" in obj && obj["id"] in old(rows.items) ==> r == Failure(DuplicateKey) && rows == old(rows)
      ensures "id" in obj && obj["id"] !in old(rows.items) ==> r == Success(obj) && rows == Put(old(rows), obj["id"], obj)
    {
      if "id" !in obj {
        return Failure(AttributeMissing("id"));
      }
      if obj["id"] in rows.items {
        return Failure(DuplicateKey);
      }
      rows := Put(rows, obj["id"], obj);
      return Success(obj);
    }

    /** `get`: `session.get`, None for a missing key. */
    function Get(id: Value): (r: Option<Record>)
      reads this
      ensures r.Some? <==> id in rows.items
      ensures r.Some? ==> r.value == rows.items[id]
    {
      Lookup(rows, id)
    }

    /** `get_all`: every row. */
    function GetAll(): (r: seq<Record>)
      reads this
      requires Valid()
      ensures |r| == |rows.keys| == |rows.items|
      ensures forall i :: 0 <= i < |r| ==> r[i] == rows.items[rows.keys[i]]
    {
      ValuesOf(rows)
    }

    /** `update`: for each key of `data` the object has as an attribute,
        `setattr`; then commit. Nothing else changes; in particular
        `updated_at` is not refreshed. The object is returned, or None for
        an unknown id. */
    method Update(id: Value, data: Record) returns (r: Option<Record>)
      requires Valid()
      modifies this
      ensures Valid()
      ensures id !in old(rows.items) ==> r == None && rows == old(rows)
      ensures id in old(rows.items) ==>
                var row := Overwritten(old(rows.items[id]), data, old(rows.items[id]).Keys + attributes);
                r == Some(row) && rows == Put(old(rows), id, row)
    {
      match Get(id)
      case None =>
        return None;
      case Some(obj) =>
        var row := CopyKeys(obj, data, obj.Keys + attributes);
        rows := Put(rows, id, row);
        return Some(row);
    }

    /** `delete`: True exactly when the object existed; it is gone after. */
    method Delete(id: Value) returns (deleted: bool)
      requires Valid()
      modifies this
      ensures Valid()
      ensures deleted <==> id in old(rows.items)
      ensures rows == Remove(old(rows), id) && id !in rows.items
    {
      deleted := id in rows.items;
      rows := Remove(rows, id);
    }

    /** `get_by_attribute`: `getattr(model_class, name)` raises for a name the
        class lacks; otherwise the first matching row, or None. */
    function GetByAttribute(name: string, value: Value): (r: Result<Option<Record>, Error>)
      reads this
      requires Valid()
      ensures r.Failure? <==> name !in attributes
      ensures r.Failure? ==> r.error == AttributeMissing(name)
      ensures r.Success? && r.value.Some? ==>
                exists i :: 0 <= i < |rows.keys| && r.value.value == rows.items[rows.keys[i]] &&
                            Equal(Values.Get(r.value.value, name, Null), value) &&
                            forall j :: 0 <= j < i ==> !Equal(Values.Get(rows.items[rows.keys[j]], name, Null), value)
      ensures r.Success? && r.value.None? ==>
                forall i :: 0 <= i < |rows.keys| ==> !Equal(Values.Get(rows.items[rows.keys[i]], name, Null), value)
    {
      if name !in attributes then Failure(AttributeMissing(name))
      else
        var all := GetAll();
        Success(RowAt(all, FirstWhere(all, name, value)))
    }
  }

  /** An update through the SQL contract is idempotent: applying the same
      data twice leaves the row as applying it once. */
  lemma SqlUpdateIdempotent(row: Record, data: Record, attributes: set<string>)
    ensures var once := Overwritten(row, data, row.Keys + attributes);
            Overwritten(once, data, once.Keys + attributes) == once
  {
    var once := Overwritten(row, data, row.Keys + attributes);
    var twice := Overwritten(once, data, once.Keys + attributes);
    assert twice.Keys == once.Keys;
  }
}
