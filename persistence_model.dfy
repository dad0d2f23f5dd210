/** `BaseModel` of the business layer (part2 business/persistence/models/
    base_model.py): an object whose attributes are a dict (`__dict__`),
    updated key by key with three protected keys. Timestamps are held as
    their ISO text, so `isoformat()` leaves them as they are. */
module PersistenceModels {
  import opened Wrappers
  import opened Values
  import opened Errors
  import opened Records

  /** The keys `update` never writes from its argument. */
  const Protected: set<string> := {"id", "created_at", "updated_at"}

  /** The attributes after `update(data)` at clock reading `now`: every key
      of `data` except the protected three is copied, then `updated_at` is
      set to `now`. */
  function Updated(attrs: Record, data: Record, now: Timestamp): (r: Record)
    ensures r.Keys == attrs.Keys + (data.Keys - Protected) + {"updated_at"}
    ensures forall k :: k in data && k !in Protected ==> r[k] == data[k]
    ensures forall k :: k in attrs && k != "updated_at" && (k !in data || k in Protected) ==> r[k] == attrs[k]
    ensures r["updated_at"] == Str(now)
  {
    Overwritten(attrs, data, data.Keys - Protected)["updated_at" := Str(now)]
  }

  /** `update` never changes the id or the creation time, always refreshes
      `updated_at` (even for empty data), and with empty data changes
      nothing else. */
  lemma UpdatedKeepsIdentity(attrs: Record, data: Record, now: Timestamp)
    ensures "id" in attrs <==> "id" in Updated(attrs, data, now)
    ensures "id" in attrs ==> Updated(attrs, data, now)["id"] == attrs["id"]
    ensures "created_at" in attrs <==> "created_at" in Updated(attrs, data, now)
    ensures "created_at" in attrs ==> Updated(attrs, data, now)["created_at"] == attrs["created_at"]
    ensures Updated(attrs, map[], now) == attrs["updated_at" := Str(now)]
  {
    OverwrittenIdempotent(attrs, data, data.Keys - Protected);
    var empty: Record := map[];
    assert empty.Keys - Protected == {};
  }

  /** Applying the same update twice is applying it once. */
  lemma UpdatedIdempotent(attrs: Record, data: Record, now: Timestamp)
    ensures Updated(Updated(attrs, data, now), data, now) == Updated(attrs, data, now)
  {
    var once := Updated(attrs, data, now);
    var twice := Updated(once, data, now);
    assert twice.Keys == once.Keys;
    forall k | k in once ensures twice[k] == once[k] {
      if k != "updated_at" && (k !in data || k in Protected) {
        assert twice[k] == once[k];
      }
    }
  }

  /** `to_dict`: every attribute, with the two timestamps in ISO form;
      `self.created_at` (read first) or `self.updated_at` raises when the
      attribute was never set. */
  function Serialized(attrs: Record): (r: Result<Record, Error>)
    ensures "created_at" !in attrs ==> r == Failure(AttributeMissing("created_at"))
    ensures "created_at" in attrs && "updated_at" !in attrs ==> r == Failure(AttributeMissing("updated_at"))
    ensures r.Success? <==> "created_at" in attrs && "updated_at" in attrs
    ensures r.Success? ==> r.value.Keys == attrs.Keys && forall k :: k in attrs ==> r.value[k] == attrs[k]
  {
    if "created_at" !in attrs then Failure(AttributeMissing("created_at"))
    else if "updated_at" !in attrs then Failure(AttributeMissing("updated_at"))
    else Success(attrs)
  }

  /** The attributes the initializer is evidently meant to set. */
  function InitialAttributes(id: string, createdNow: Timestamp, updatedNow: Timestamp): (r: Record)
    ensures r.Keys == Protected
    ensures r["id"] == Str(id) && r["created_at"] == Str(createdNow) && r["updated_at"] == Str(updatedNow)
  {
    map["id" := Str(id), "created_at" := Str(createdNow), "updated_at" := Str(updatedNow)]
  }

  /** As written, the initializer's three assignments sit at class level,
      so an instance starts with no attributes: `to_dict` fails, and keeps
      failing after any sequence of updates, since `update` never writes
      `created_at`. */
  lemma {:induction false} AsWrittenNeverSerializes(updates: seq<Record>, clock: seq<Timestamp>)
    requires |updates| == |clock|
    ensures Serialized(UpdatedAll(map[], updates, clock)) == Failure(AttributeMissing("created_at"))
  {
    NoCreationTimeAfterUpdates(map[], updates, clock);
  }

  /** The attributes after a sequence of updates, each with its clock reading. */
  function UpdatedAll(attrs: Record, updates: seq<Record>, clock: seq<Timestamp>): Record
    requires |updates| == |clock|
    decreases |updates|
  {
    if updates == [] then attrs
    else UpdatedAll(Updated(attrs, updates[0], clock[0]), updates[1..], clock[1..])
  }

  lemma {:induction false} NoCreationTimeAfterUpdates(attrs: Record, updates: seq<Record>, clock: seq<Timestamp>)
    requires |updates| == |clock| && "created_at" !in attrs
    ensures "created_at" !in UpdatedAll(attrs, updates, clock)
    decreases |updates|
  {
    if updates != [] {
      NoCreationTimeAfterUpdates(Updated(attrs, updates[0], clock[0]), updates[1..], clock[1..]);
    }
  }

  /** With the corrected initializer, `to_dict` succeeds after any sequence
      of updates and still reports the original id and creation time. */
  lemma {:induction false} CorrectedAlwaysSerializes(attrs: Record, updates: seq<Record>, clock: seq<Timestamp>)
    requires |updates| == |clock| && Serialized(attrs).Success? && "id" in attrs
    ensures Serialized(UpdatedAll(attrs, updates, clock)).Success?
    ensures "id" in UpdatedAll(attrs, updates, clock) && UpdatedAll(attrs, updates, clock)["id"] == attrs["id"]
    ensures UpdatedAll(attrs, updates, clock)["created_at"] == attrs["created_at"]
    decreases |updates|
  {
    if updates != [] {
      var next := Updated(attrs, updates[0], clock[0]);
      UpdatedKeepsIdentity(attrs, updates[0], clock[0]);
      CorrectedAlwaysSerializes(next, updates[1..], clock[1..]);
    }
  }

  /** A statement `name.attr = ...` of a class or method body. */
  datatype Assignment = Assignment(name: string, attr: string)

  /** The three assignments of the initializer's intended body. */
  const InitAssignments: seq<Assignment> :=
    [Assignment("self", "id"), Assignment("self", "created_at"), Assignment("self", "updated_at")]

  /** Running attribute assignments in a scope whose bound names are
      `bound`: the first one whose object is unbound raises NameError. */
  function RunAssignments(bound: set<string>, stmts: seq<Assignment>): (r: Outcome<Error>)
    ensures r.Pass? <==> forall i :: 0 <= i < |stmts| ==> stmts[i].name in bound
    ensures r.Fail? ==> exists i :: 0 <= i < |stmts| && stmts[i].name !in bound &&
                                    r.error == NameNotDefined(stmts[i].name)
  {
    if stmts == [] then Pass
    else if stmts[0].name !in bound then Fail(NameNotDefined(stmts[0].name))
    else
      var rest := RunAssignments(bound, stmts[1..]);
      assert forall i :: 1 <= i < |stmts| ==> stmts[i] == stmts[1..][i - 1];
      rest
  }

  /** As written, the assignments are part of the class body, where the
      only name bound so far is the method `__init__` just defined: the
      class statement itself raises on `self`. Inside `__init__`, where
      `self` is the first parameter, they run. */
  lemma {:induction false} ClassBodyRaises()
    ensures RunAssignments({"__init__"}, InitAssignments) == Fail(NameNotDefined("self"))
    ensures RunAssignments({"self"}, InitAssignments).Pass?
  {
    assert InitAssignments[1..][1..][1..] == [];
  }

  class PersistentModel {
    /** `__dict__`. */
    var attrs: Record

    /** `__init__` as written: its body is only the docstring, so it sets
        nothing. (The misplaced assignments make the class statement raise
        first, as `ClassBodyRaises` shows; this is the method taken on its
        own.) */
    constructor AsWritten()
      ensures attrs == map[]
    {
      attrs := map[];
    }

    /** `__init__` with its three assignments inside the method: a fresh id
        and two clock readings. */
    constructor (id: string, createdNow: Timestamp, updatedNow: Timestamp)
      ensures attrs == InitialAttributes(id, createdNow, updatedNow)
      ensures Serialized(attrs).Success?
    {
      attrs := InitialAttributes(id, createdNow, updatedNow);
    }

    function ToDict(): (r: Result<Record, Error>)
      reads this
      ensures r == Serialized(attrs)
    {
      Serialized(attrs)
    }

    /** `update(data)`: the `setattr` loop over `data.items()`, then the
        timestamp. */
    method Update(data: Record, now: Timestamp)
      modifies this
      ensures attrs == Updated(old(attrs), data, now)
    {
      var copied := CopyKeys(attrs, data, data.Keys - Protected);
      attrs := copied["updated_at" := Str(now)];
    }
  }
}
