/**
 * The identifier allocator: two monotonic counters, one for object IDs and
 * one for face IDs. A stored ID of 0 means "unassigned".
 */
module Ids {
  import opened Structure

  /** The allocator's state as a value: the last object ID and the last face ID handed out. */
  datatype Counters = Counters(lastObject: int, lastFace: int)
  {
    predicate Valid() { lastObject >= 0 && lastFace >= 0 }
  }

  /**
   * The ID an object ends up with, and the allocator state after: the stored
   * ID when it is non-zero, otherwise the next object ID.
   */
  function DrawObjectId(stored: int, c: Counters): (r: (int, Counters))
    ensures r.1 == c <==> stored != 0
    ensures stored != 0 ==> r.0 == stored
    ensures stored == 0 ==> r.0 == r.1.lastObject == c.lastObject + 1 && r.1.lastFace == c.lastFace
    ensures c.Valid() ==> r.1.Valid() && r.0 != 0
  {
    if stored == 0 then (c.lastObject + 1, c.(lastObject := c.lastObject + 1)) else (stored, c)
  }

  /** The same rule for face IDs, drawing from the face counter. */
  function DrawFaceId(stored: int, c: Counters): (r: (int, Counters))
    ensures r.1 == c <==> stored != 0
    ensures stored != 0 ==> r.0 == stored
    ensures stored == 0 ==> r.0 == r.1.lastFace == c.lastFace + 1 && r.1.lastObject == c.lastObject
    ensures c.Valid() ==> r.1.Valid() && r.0 != 0
  {
    if stored == 0 then (c.lastFace + 1, c.(lastFace := c.lastFace + 1)) else (stored, c)
  }

  class IdGenerator {
    var lastObjectId: int
    var lastFaceId: int

    function State(): Counters
      reads this
    {
      Counters(lastObjectId, lastFaceId)
    }

    /** A fresh generator: the first IDs it hands out are 1. */
    constructor ()
      ensures State() == Counters(0, 0)
    {
      lastObjectId, lastFaceId := 0, 0;
    }

    method NextObjectId() returns (id: int)
      modifies this
      ensures id == old(lastObjectId) + 1 && lastObjectId == id
      ensures lastFaceId == old(lastFaceId)
    {
      lastObjectId := lastObjectId + 1;
      id := lastObjectId;
    }

    method NextFaceId() returns (id: int)
      modifies this
      ensures id == old(lastFaceId) + 1 && lastFaceId == id
      ensures lastObjectId == old(lastObjectId)
    {
      lastFaceId := lastFaceId + 1;
      id := lastFaceId;
    }
  }

  /** `GetObjectID`: the stored `id` property, or a fresh object ID when it is 0. */
  method GetObjectId(gs: Node, gen: IdGenerator) returns (id: int)
    modifies gen
    ensures (id, gen.State()) == DrawObjectId(PropertyLong(gs, "id"), old(gen.State()))
  {
    id := PropertyLong(gs, "id");
    if id == 0 {
      id := gen.NextObjectId();
    }
  }
}
