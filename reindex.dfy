/**
 * `Reindex`: gives every object of a list, and everything beneath it, a
 * fresh object ID in pre-order, and every face of a solid a fresh face ID,
 * drawing both from the caller's generator. The source mutates the objects
 * in place, so a child's `Parent` reference keeps pointing at the same
 * object; with parents modelled by ID, the links naming a renumbered
 * object are rewritten to its new ID.
 */
module Reindex {
  import opened Wrappers
  import opened Ids
  import opened MapObjects

  // ---------------------------------------------------------------- the renumbering

  /** How the `Parent` links of a list of objects follow their owner's renumbering. */
  datatype Relabel = Keep | Rename(from: int, to: int)

  function Relinked(p: ParentLink, rl: Relabel): ParentLink
  {
    if rl.Rename? && p == GroupParent(rl.from) then GroupParent(rl.to) else p
  }

  /** The faces in order, each with the next face ID and nothing else changed. */
  function RenumberFaces(faces: seq<Face>, c: Counters): (r: (seq<Face>, Counters))
    ensures |r.0| == |faces|
    ensures r.1 == c.(lastFace := c.lastFace + |faces|)
    ensures forall k :: 0 <= k < |faces| ==> r.0[k] == faces[k].(id := c.lastFace + 1 + k)
    decreases |faces|
  {
    if faces == [] then ([], c)
    else
      var pre := RenumberFaces(faces[..|faces| - 1], c);
      var id := DrawFaceId(0, pre.1);
      (pre.0 + [faces[|faces| - 1].(id := id.0)], id.1)
  }

  /** The faces whose `Parent` is the solid `from` now name it by its new ID `to`. */
  function RelinkFaces(faces: seq<Face>, from: int, to: int): seq<Face>
  {
    seq(|faces|, k requires 0 <= k < |faces| =>
      faces[k].(solid := if faces[k].solid == Some(from) then Some(to) else faces[k].solid))
  }

  /**
   * One object: its faces renumbered first (a solid's), then its own ID,
   * then its children in order. Its own `Parent` link follows `rl`; the
   * children of a group follow the group's renumbering.
   */
  function ReindexObj(o: MapObject, rl: Relabel, c: Counters): (r: (MapObject, Counters))
    ensures r.0.id == c.lastObject + 1 && r.0.parent == Relinked(o.parent, rl)
    ensures r.0.Solid? == o.Solid? && r.0.Entity? == o.Entity? && r.0.Group? == o.Group?
    decreases o
  {
    var fs := if o.Solid? then RenumberFaces(o.faces, c) else ([], c);
    var id := DrawObjectId(0, fs.1);
    var kids := ReindexSeq(o.children, if o.Group? then Rename(o.id, id.0) else Keep, id.1);
    var p := Relinked(o.parent, rl);
    match o
    case Solid(_, _, colour, visgroups, _, codeHidden, visgroupHidden, _) =>
      (Solid(id.0, RelinkFaces(fs.0, o.id, id.0), colour, visgroups, p, codeHidden, visgroupHidden, kids.0), kids.1)
    case Entity(_, className, data, origin, colour, visgroups, _, _) =>
      (Entity(id.0, className, data, origin, colour, visgroups, p, kids.0), kids.1)
    case Group(_, colour, visgroups, _, _) =>
      (Group(id.0, colour, visgroups, p, kids.0), kids.1)
  }

  /** The objects in order, each with what is beneath it. */
  function ReindexSeq(objs: seq<MapObject>, rl: Relabel, c: Counters): (r: (seq<MapObject>, Counters))
    ensures |r.0| == |objs|
    decreases objs
  {
    if objs == [] then ([], c)
    else
      var pre := ReindexSeq(objs[..|objs| - 1], rl, c);
      var o := ReindexObj(objs[|objs| - 1], rl, pre.1);
      (pre.0 + [o.0], o.1)
  }

  /** A non-empty list: the list without its last object, then that object. */
  lemma ReindexSeqLast(objs: seq<MapObject>, rl: Relabel, c: Counters)
    requires objs != []
    ensures var prefix := ReindexSeq(objs[..|objs| - 1], rl, c);
      var last := ReindexObj(objs[|objs| - 1], rl, prefix.1);
      ReindexSeq(objs, rl, c) == (prefix.0 + [last.0], last.1)
  {
  }

  /** Every object of the list has its `Parent` link relabelled by `rl`. */
  lemma {:induction false} ReindexSeqParents(objs: seq<MapObject>, rl: Relabel, c: Counters)
    ensures var r := ReindexSeq(objs, rl, c).0;
      forall k :: 0 <= k < |objs| ==> r[k].parent == Relinked(objs[k].parent, rl)
    decreases objs
  {
    if objs != [] {
      ReindexSeqParents(objs[..|objs| - 1], rl, c);
    }
  }

  /** The generator as `ReindexObj` hands it to the children: after the object's own faces and ID. */
  function ChildStart(o: MapObject, c: Counters): Counters
  {
    var faces := if o.Solid? then |o.faces| else 0;
    Counters(c.lastObject + 1, c.lastFace + faces)
  }

  function ChildRelabel(o: MapObject, c: Counters): Relabel
  {
    if o.Group? then Rename(o.id, c.lastObject + 1) else Keep
  }

  lemma ReindexObjParts(o: MapObject, rl: Relabel, c: Counters)
    ensures var r := ReindexObj(o, rl, c);
      var kids := ReindexSeq(o.children, ChildRelabel(o, c), ChildStart(o, c));
      r.0.children == kids.0 && r.1 == kids.1
  {
  }

  // ---------------------------------------------------------------- the methods

  /** `Faces.ForEach(x => x.ID = generator.GetNextFaceID())`. */
  method NumberFaces(faces: seq<Face>, gen: IdGenerator) returns (r: seq<Face>)
    modifies gen
    ensures (r, gen.State()) == RenumberFaces(faces, old(gen.State()))
  {
    r := [];
    for i := 0 to |faces|
      invariant (r, gen.State()) == RenumberFaces(faces[..i], old(gen.State()))
    {
      var id := gen.NextFaceId();
      assert faces[..i + 1][..i] == faces[..i];
      r := r + [faces[i].(id := id)];
    }
    assert faces[..|faces|] == faces;
  }

  /** The body of `Reindex`'s loop for one object. */
  method ReindexOne(o: MapObject, rl: Relabel, gen: IdGenerator) returns (r: MapObject)
    modifies gen
    ensures (r, gen.State()) == ReindexObj(o, rl, old(gen.State()))
    decreases o
  {
    var fs := [];
    if o.Solid? {
      fs := NumberFaces(o.faces, gen);
    }
    var id := gen.NextObjectId();
    var kids := ReindexAll(o.children, if o.Group? then Rename(o.id, id) else Keep, gen);
    var p := Relinked(o.parent, rl);
    match o
    case Solid(_, _, colour, visgroups, _, codeHidden, visgroupHidden, _) =>
      r := Solid(id, RelinkFaces(fs, o.id, id), colour, visgroups, p, codeHidden, visgroupHidden, kids);
    case Entity(_, className, data, origin, colour, visgroups, _, _) =>
      r := Entity(id, className, data, origin, colour, visgroups, p, kids);
    case Group(_, colour, visgroups, _, _) =>
      r := Group(id, colour, visgroups, p, kids);
  }

  /** `Reindex(objs, generator)`: every object in turn, depth first. */
  method ReindexAll(objs: seq<MapObject>, rl: Relabel, gen: IdGenerator) returns (r: seq<MapObject>)
    modifies gen
    ensures (r, gen.State()) == ReindexSeq(objs, rl, old(gen.State()))
    decreases objs
  {
    r := [];
    for i := 0 to |objs|
      invariant (r, gen.State()) == ReindexSeq(objs[..i], rl, old(gen.State()))
    {
      var o := ReindexOne(objs[i], rl, gen);
      assert objs[..i + 1][..i] == objs[..i];
      r := r + [o];
    }
    assert objs[..|objs|] == objs;
  }

  // ---------------------------------------------------------------- only the IDs change

  /** An object with its IDs and the IDs in its links erased. */
  function StripFace(f: Face): Face
  {
    f.(id := 0, solid := if f.solid.Some? then Some(0) else None)
  }

  function StripFaces(faces: seq<Face>): seq<Face>
  {
    seq(|faces|, k requires 0 <= k < |faces| => StripFace(faces[k]))
  }

  function StripParent(p: ParentLink): ParentLink
  {
    if p.GroupParent? then GroupParent(0) else p
  }

  function Strip(o: MapObject): MapObject
    decreases o
  {
    match o
    case Solid(_, faces, colour, visgroups, p, codeHidden, visgroupHidden, children) =>
      Solid(0, StripFaces(faces), colour, visgroups,
            StripParent(p), codeHidden, visgroupHidden, StripSeq(children))
    case Entity(_, className, data, origin, colour, visgroups, p, children) =>
      Entity(0, className, data, origin, colour, visgroups, StripParent(p), StripSeq(children))
    case Group(_, colour, visgroups, p, children) =>
      Group(0, colour, visgroups, StripParent(p), StripSeq(children))
  }

  function StripSeq(objs: seq<MapObject>): seq<MapObject>
    decreases objs
  {
    seq(|objs|, k requires 0 <= k < |objs| => Strip(objs[k]))
  }

  /** Reindexing changes IDs and the links that name them, and nothing else. */
  lemma {:induction false} ReindexShape(objs: seq<MapObject>, rl: Relabel, c: Counters)
    ensures StripSeq(ReindexSeq(objs, rl, c).0) == StripSeq(objs)
    decreases objs
  {
    if objs != [] {
      var n := |objs| - 1;
      var prefix := ReindexSeq(objs[..n], rl, c);
      var pre, c1 := prefix.0, prefix.1;
      ReindexShape(objs[..n], rl, c);
      ReindexObjShape(objs[n], rl, c1);
      var r := ReindexSeq(objs, rl, c).0;
      assert r == pre + [ReindexObj(objs[n], rl, c1).0];
      assert forall k :: 0 <= k < n ==> StripSeq(r)[k] == StripSeq(pre)[k] == StripSeq(objs[..n])[k];
    }
  }

  lemma {:induction false} ReindexObjShape(o: MapObject, rl: Relabel, c: Counters)
    ensures Strip(ReindexObj(o, rl, c).0) == Strip(o)
    decreases o
  {
    var r := ReindexObj(o, rl, c).0;
    ReindexObjParts(o, rl, c);
    ReindexShape(o.children, ChildRelabel(o, c), ChildStart(o, c));
    assert StripSeq(r.children) == StripSeq(o.children);
    assert StripParent(r.parent) == StripParent(o.parent);
    if o.Solid? {
      RenumberedShape(o.faces, c, o.id, c.lastObject + 1);
      assert StripFaces(r.faces) == StripFaces(o.faces);
    }
  }

  /** Renumbering and relinking faces changes only their IDs and the IDs they link to. */
  lemma RenumberedShape(faces: seq<Face>, c: Counters, from: int, to: int)
    ensures StripFaces(RelinkFaces(RenumberFaces(faces, c).0, from, to)) == StripFaces(faces)
  {
    var fs := RelinkFaces(RenumberFaces(faces, c).0, from, to);
    assert forall k :: 0 <= k < |faces| ==> StripFace(fs[k]) == StripFace(faces[k]);
  }

  // ---------------------------------------------------------------- the new IDs are consecutive

  /** The object IDs of a list, each object before what is beneath it. */
  function ObjectIds(objs: seq<MapObject>): seq<int>
    decreases objs
  {
    if objs == [] then [] else ObjectIds(objs[..|objs| - 1]) + ObjectIdsOf(objs[|objs| - 1])
  }

  function ObjectIdsOf(o: MapObject): seq<int>
    decreases o
  {
    [o.id] + ObjectIds(o.children)
  }

  /** The face IDs of a list, in the same order. */
  function FaceIds(objs: seq<MapObject>): seq<int>
    decreases objs
  {
    if objs == [] then [] else FaceIds(objs[..|objs| - 1]) + FaceIdsOf(objs[|objs| - 1])
  }

  function FaceIdsOf(o: MapObject): seq<int>
    decreases o
  {
    OwnFaceIds(o) + FaceIds(o.children)
  }

  /** The IDs of a solid's own faces; other objects have none. */
  function OwnFaceIds(o: MapObject): seq<int>
  {
    if o.Solid? then IdsOfFaces(o.faces) else []
  }

  function IdsOfFaces(faces: seq<Face>): (r: seq<int>)
    ensures |r| == |faces|
  {
    if faces == [] then [] else IdsOfFaces(faces[..|faces| - 1]) + [faces[|faces| - 1].id]
  }

  /** Faces whose IDs count up from `start` give IDs that count up from `start`. */
  lemma {:induction false} IdsOfFacesCount(faces: seq<Face>, start: int)
    requires forall k :: 0 <= k < |faces| ==> faces[k].id == start + k
    ensures CountsUp(IdsOfFaces(faces), start)
  {
    if faces != [] {
      var pre := faces[..|faces| - 1];
      IdsOfFacesCount(pre, start);
      assert IdsOfFaces(faces)[..|faces| - 1] == IdsOfFaces(pre);
    }
  }

  /** `ids` are `start`, `start + 1`, ... in order. */
  predicate CountsUp(ids: seq<int>, start: int)
    decreases |ids|
  {
    ids == [] || (CountsUp(ids[..|ids| - 1], start) && ids[|ids| - 1] == start + |ids| - 1)
  }

  lemma {:induction false} CountsUpAt(ids: seq<int>, start: int)
    ensures CountsUp(ids, start) <==> forall k :: 0 <= k < |ids| ==> ids[k] == start + k
    decreases |ids|
  {
    if ids != [] {
      var pre := ids[..|ids| - 1];
      CountsUpAt(pre, start);
      assert forall k :: 0 <= k < |pre| ==> pre[k] == ids[k];
    }
  }

  lemma CountsUpAppend(a: seq<int>, b: seq<int>, start: int)
    requires CountsUp(a, start) && CountsUp(b, start + |a|)
    ensures CountsUp(a + b, start)
  {
    CountsUpAt(a, start);
    CountsUpAt(b, start + |a|);
    CountsUpAt(a + b, start);
  }

  lemma ObjectIdsSnoc(pre: seq<MapObject>, x: MapObject)
    ensures ObjectIds(pre + [x]) == ObjectIds(pre) + ObjectIdsOf(x)
  {
    assert (pre + [x])[..|pre|] == pre;
  }

  lemma ObjectIdsLast(objs: seq<MapObject>)
    requires objs != []
    ensures ObjectIds(objs) == ObjectIds(objs[..|objs| - 1]) + ObjectIdsOf(objs[|objs| - 1])
  {
  }

  /** One more object after a prefix: its object IDs follow on from those of the prefix. */
  lemma ObjectIdsStep(objs: seq<MapObject>, pre: seq<MapObject>, x: MapObject, start: int, mid: int)
    requires objs != [] && mid == start + |ObjectIds(pre)|
    requires |ObjectIds(pre)| == |ObjectIds(objs[..|objs| - 1])| && CountsUp(ObjectIds(pre), start)
    requires |ObjectIdsOf(x)| == |ObjectIdsOf(objs[|objs| - 1])| && CountsUp(ObjectIdsOf(x), mid)
    ensures |ObjectIds(pre + [x])| == |ObjectIds(objs)| && CountsUp(ObjectIds(pre + [x]), start)
  {
    ObjectIdsSnoc(pre, x);
    ObjectIdsLast(objs);
    CountsUpAppend(ObjectIds(pre), ObjectIdsOf(x), start);
  }

  lemma FaceIdsSnoc(pre: seq<MapObject>, x: MapObject)
    ensures FaceIds(pre + [x]) == FaceIds(pre) + FaceIdsOf(x)
  {
    assert (pre + [x])[..|pre|] == pre;
  }

  lemma FaceIdsLast(objs: seq<MapObject>)
    requires objs != []
    ensures FaceIds(objs) == FaceIds(objs[..|objs| - 1]) + FaceIdsOf(objs[|objs| - 1])
  {
  }

  /** The same for face IDs. */
  lemma FaceIdsStep(objs: seq<MapObject>, pre: seq<MapObject>, x: MapObject, start: int, mid: int)
    requires objs != [] && mid == start + |FaceIds(pre)|
    requires |FaceIds(pre)| == |FaceIds(objs[..|objs| - 1])| && CountsUp(FaceIds(pre), start)
    requires |FaceIdsOf(x)| == |FaceIdsOf(objs[|objs| - 1])| && CountsUp(FaceIdsOf(x), mid)
    ensures |FaceIds(pre + [x])| == |FaceIds(objs)| && CountsUp(FaceIds(pre + [x]), start)
  {
    FaceIdsSnoc(pre, x);
    FaceIdsLast(objs);
    CountsUpAppend(FaceIds(pre), FaceIdsOf(x), start);
  }

  /** An object numbered `start`, above children numbered from `start + 1`. */
  lemma ObjectIdsJoin(o: MapObject, x: MapObject, kids: seq<MapObject>, start: int, mid: int)
    requires x.id == start && x.children == kids && mid == start + 1
    requires |ObjectIds(kids)| == |ObjectIds(o.children)| && CountsUp(ObjectIds(kids), mid)
    ensures |ObjectIdsOf(x)| == |ObjectIdsOf(o)| && CountsUp(ObjectIdsOf(x), start)
  {
    assert CountsUp([x.id], start);
    CountsUpAppend([x.id], ObjectIds(kids), start);
  }

  /** An object with its own faces numbered from `start`, above children's faces numbered after them. */
  lemma FaceIdsJoin(o: MapObject, x: MapObject, kids: seq<MapObject>, start: int, mid: int)
    requires x.children == kids && mid == start + |OwnFaceIds(o)|
    requires |OwnFaceIds(x)| == |OwnFaceIds(o)| && CountsUp(OwnFaceIds(x), start)
    requires |FaceIds(kids)| == |FaceIds(o.children)| && CountsUp(FaceIds(kids), mid)
    ensures |FaceIdsOf(x)| == |FaceIdsOf(o)| && CountsUp(FaceIdsOf(x), start)
  {
    CountsUpAppend(OwnFaceIds(x), FaceIds(kids), start);
  }

  /**
   * The object IDs of the result, in pre-order, are the next ones the
   * generator hands out, one per object, and the generator ends on the
   * last of them.
   */
  lemma {:induction false} ReindexObjectIds(objs: seq<MapObject>, rl: Relabel, c: Counters)
    ensures var r := ReindexSeq(objs, rl, c);
      && |ObjectIds(r.0)| == |ObjectIds(objs)|
      && CountsUp(ObjectIds(r.0), c.lastObject + 1)
      && r.1.lastObject == c.lastObject + |ObjectIds(objs)|
    decreases objs
  {
    if objs != [] {
      var n := |objs| - 1;
      var prefix := ReindexSeq(objs[..n], rl, c);
      var last := ReindexObj(objs[n], rl, prefix.1);
      ReindexObjectIds(objs[..n], rl, c);
      ReindexObjObjectIds(objs[n], rl, prefix.1);
      ReindexSeqLast(objs, rl, c);
      ObjectIdsStep(objs, prefix.0, last.0, c.lastObject + 1, prefix.1.lastObject + 1);
    }
  }

  lemma {:induction false} ReindexObjObjectIds(o: MapObject, rl: Relabel, c: Counters)
    ensures var r := ReindexObj(o, rl, c);
      && |ObjectIdsOf(r.0)| == |ObjectIdsOf(o)|
      && CountsUp(ObjectIdsOf(r.0), c.lastObject + 1)
      && r.1.lastObject == c.lastObject + |ObjectIdsOf(o)|
    decreases o
  {
    var r := ReindexObj(o, rl, c);
    var kids := ReindexSeq(o.children, ChildRelabel(o, c), ChildStart(o, c));
    ReindexObjParts(o, rl, c);
    ReindexObjectIds(o.children, ChildRelabel(o, c), ChildStart(o, c));
    ObjectIdsJoin(o, r.0, kids.0, c.lastObject + 1, ChildStart(o, c).lastObject + 1);
  }

  /** The same for face IDs: the next ones the generator hands out, one per face. */
  lemma {:induction false} ReindexFaceIds(objs: seq<MapObject>, rl: Relabel, c: Counters)
    ensures var r := ReindexSeq(objs, rl, c);
      && |FaceIds(r.0)| == |FaceIds(objs)|
      && CountsUp(FaceIds(r.0), c.lastFace + 1)
      && r.1.lastFace == c.lastFace + |FaceIds(objs)|
    decreases objs
  {
    if objs != [] {
      var n := |objs| - 1;
      var prefix := ReindexSeq(objs[..n], rl, c);
      var last := ReindexObj(objs[n], rl, prefix.1);
      ReindexFaceIds(objs[..n], rl, c);
      ReindexObjFaceIds(objs[n], rl, prefix.1);
      ReindexSeqLast(objs, rl, c);
      FaceIdsStep(objs, prefix.0, last.0, c.lastFace + 1, prefix.1.lastFace + 1);
    }
  }

  lemma {:induction false} ReindexObjFaceIds(o: MapObject, rl: Relabel, c: Counters)
    ensures var r := ReindexObj(o, rl, c);
      && |FaceIdsOf(r.0)| == |FaceIdsOf(o)|
      && CountsUp(FaceIdsOf(r.0), c.lastFace + 1)
      && r.1.lastFace == c.lastFace + |FaceIdsOf(o)|
    decreases o
  {
    var r := ReindexObj(o, rl, c);
    var kids := ReindexSeq(o.children, ChildRelabel(o, c), ChildStart(o, c));
    ReindexObjParts(o, rl, c);
    ReindexFaceIds(o.children, ChildRelabel(o, c), ChildStart(o, c));
    OwnFacesRenumbered(o, rl, c);
    FaceIdsJoin(o, r.0, kids.0, c.lastFace + 1, ChildStart(o, c).lastFace + 1);
  }

  lemma OwnFacesRenumbered(o: MapObject, rl: Relabel, c: Counters)
    ensures var ids := OwnFaceIds(ReindexObj(o, rl, c).0);
      |ids| == |OwnFaceIds(o)| && CountsUp(ids, c.lastFace + 1)
  {
    if o.Solid? {
      var faces := RelinkFaces(RenumberFaces(o.faces, c).0, o.id, c.lastObject + 1);
      assert ReindexObj(o, rl, c).0.faces == faces;
      IdsOfFacesCount(faces, c.lastFace + 1);
    }
  }

  /** Hence the reindexed objects have pairwise distinct IDs, all above the generator's old state. */
  lemma ReindexDistinct(objs: seq<MapObject>, rl: Relabel, c: Counters)
    ensures var ids := ObjectIds(ReindexSeq(objs, rl, c).0);
      && (forall i, j :: 0 <= i < j < |ids| ==> ids[i] < ids[j])
      && (forall i :: 0 <= i < |ids| ==> ids[i] > c.lastObject)
    ensures var ids := FaceIds(ReindexSeq(objs, rl, c).0);
      && (forall i, j :: 0 <= i < j < |ids| ==> ids[i] < ids[j])
      && (forall i :: 0 <= i < |ids| ==> ids[i] > c.lastFace)
  {
    ReindexObjectIds(objs, rl, c);
    ReindexFaceIds(objs, rl, c);
    CountsUpAt(ObjectIds(ReindexSeq(objs, rl, c).0), c.lastObject + 1);
    CountsUpAt(FaceIds(ReindexSeq(objs, rl, c).0), c.lastFace + 1);
  }

  // ---------------------------------------------------------------- links keep pointing at their owner

  /**
   * Every face of a solid names that solid, and every child of a group
   * names that group, all the way down: what `Parent` references give
   * the source for free.
   */
  predicate LinkedObj(o: MapObject)
    decreases o
  {
    && (o.Solid? ==> forall k :: 0 <= k < |o.faces| ==> o.faces[k].solid == Some(o.id))
    && (o.Group? ==> forall k :: 0 <= k < |o.children| ==> o.children[k].parent == GroupParent(o.id))
    && LinkedSeq(o.children)
  }

  predicate LinkedSeq(objs: seq<MapObject>)
    decreases objs
  {
    forall k :: 0 <= k < |objs| ==> LinkedObj(objs[k])
  }

  /** Reindexing keeps every face and every child linked to its owner. */
  lemma {:induction false} ReindexLinked(objs: seq<MapObject>, rl: Relabel, c: Counters)
    requires LinkedSeq(objs)
    ensures LinkedSeq(ReindexSeq(objs, rl, c).0)
    decreases objs
  {
    if objs != [] {
      var n := |objs| - 1;
      var prefix := ReindexSeq(objs[..n], rl, c);
      var pre, c1 := prefix.0, prefix.1;
      ReindexLinked(objs[..n], rl, c);
      ReindexObjLinked(objs[n], rl, c1);
      var r := ReindexSeq(objs, rl, c).0;
      assert r == pre + [ReindexObj(objs[n], rl, c1).0];
      assert forall k :: 0 <= k < n ==> r[k] == pre[k];
    }
  }

  lemma {:induction false} ReindexObjLinked(o: MapObject, rl: Relabel, c: Counters)
    requires LinkedObj(o)
    ensures LinkedObj(ReindexObj(o, rl, c).0)
    decreases o
  {
    var fs := if o.Solid? then RenumberFaces(o.faces, c).0 else [];
    var id := c.lastObject + 1;
    var c2 := ChildStart(o, c);
    ReindexLinked(o.children, if o.Group? then Rename(o.id, id) else Keep, c2);
    ReindexSeqParents(o.children, if o.Group? then Rename(o.id, id) else Keep, c2);
  }
}
