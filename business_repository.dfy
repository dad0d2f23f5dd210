/** The business layer's `InMemoryRepository` (part2 business/persistence/
    repositories/in_memory_repository.py): model objects kept in a dict
    under their `id` attribute. */
module BusinessRepositories {
  import opened Wrappers
  import opened Values
  import opened Errors
  import opened OrderedDicts
  import opened PersistenceModels

  class InMemoryRepository {
    /** `_objects`. */
    var objects: ODict<Value, PersistentModel>

    ghost predicate Valid()
      reads this
    {
      objects.Valid()
    }

    constructor ()
      ensures Valid() && objects == Empty()
    {
      objects := Empty();
    }

    /** `all`: the stored objects, in insertion order. */
    function All(): (r: seq<PersistentModel>)
      reads this
      requires Valid()
      ensures |r| == |objects.keys| == |objects.items|
      ensures forall i :: 0 <= i < |r| ==> r[i] == objects.items[objects.keys[i]]
    {
      ValuesOf(objects)
    }

    /** `get`: None for a missing id, never an error. */
    function Get(id: Value): (r: Option<PersistentModel>)
      reads this
      ensures r.Some? <==> id in objects.items
      ensures r.Some? ==> r.value == objects.items[id]
    {
      Lookup(objects, id)
    }

    /** `save`: `self._objects[obj.id] = obj`, which fails when the object
        has no `id` attribute; the object itself is returned. */
    method Save(obj: PersistentModel) returns (r: Result<PersistentModel, Error>)
      requires Valid()
      modifies this
      ensures Valid()
      ensures "id" !in obj.attrs ==> r == Failure(AttributeMissing("id")) && objects == old(objects)
      ensures "id" in obj.attrs ==> r == Success(obj) && objects == Put(old(objects), obj.attrs["id"], obj)
    {
      if "id" !in obj.attrs {
        return Failure(AttributeMissing("id"));
      }
      objects := Put(objects, obj.attrs["id"], obj);
      return Success(obj);
    }

    /** `delete`: removes the id if present, nothing otherwise. */
    method Delete(id: Value)
      requires Valid()
      modifies this
      ensures Valid()
      ensures objects == Remove(old(objects), id)
    {
      objects := Remove(objects, id);
    }
  }

  /** An object built by the initializer as written cannot be saved; one
      built by the corrected initializer is stored under its id. */
  method SaveNewModels(repo: InMemoryRepository, id: string, createdNow: Timestamp, updatedNow: Timestamp)
    returns (asWritten: Result<PersistentModel, Error>, corrected: Result<PersistentModel, Error>)
    requires repo.Valid()
    modifies repo
    ensures repo.Valid()
    ensures asWritten == Failure(AttributeMissing("id"))
    ensures corrected.Success? && repo.Get(Str(id)) == Some(corrected.value)
  {
    var broken := new PersistentModel.AsWritten();
    asWritten := repo.Save(broken);
    var fixed := new PersistentModel(id, createdNow, updatedNow);
    corrected := repo.Save(fixed);
  }
}
