/** `BaseModel` of the application models (part2 base_model.py): an id fixed
    at construction and two timestamps, the second of which `save` refreshes.
    The fresh id (`str(uuid4())`) and the clock reading (`datetime.now()`)
    are the caller's arguments. */
module BaseModels {
  import opened Values

  class BaseModel {
    const id: string
    var createdAt: Timestamp
    var updatedAt: Timestamp

    /** `__init__`: both timestamps are the same clock reading. */
    constructor (id: string, now: Timestamp)
      ensures this.id == id && createdAt == now && updatedAt == now
    {
      this.id := id;
      createdAt := now;
      updatedAt := now;
    }

    /** `save`: only `updated_at` moves. */
    method Save(now: Timestamp)
      modifies this
      ensures updatedAt == now
      ensures createdAt == old(createdAt)
    {
      updatedAt := now;
    }

    /** `to_dict`: exactly the id and the two timestamps in ISO form. */
    function ToDict(): (d: Record)
      reads this
      ensures d.Keys == {"id", "created_at", "updated_at"}
      ensures d["id"] == Str(id)
      ensures d["created_at"] == Str(createdAt) && d["updated_at"] == Str(updatedAt)
    {
      map["id" := Str(id), "created_at" := Str(createdAt), "updated_at" := Str(updatedAt)]
    }
  }
}
