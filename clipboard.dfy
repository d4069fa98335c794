/**
 * Copy and paste: `CreateCopyStream` writes a selection of objects under a
 * `clipboard` block, and `ExtractCopyStream` reads such a block back into
 * objects whose IDs are drawn afresh from the caller's generator.
 */
module Clipboard {
  import opened Wrappers
  import opened Structure
  import opened Geometry
  import opened MapObjects
  import opened Ids
  import opened Faces
  import opened Entities
  import opened Scene
  import opened Save
  import opened Reindex

  // ---------------------------------------------------------------- copying

  /** A solid is copied only when neither code nor a visgroup hides it. */
  predicate Copyable(o: MapObject)
  {
    o.Solid? && !o.codeHidden && !o.visgroupHidden
  }

  function GroupBlocks(groups: seq<MapObject>): (r: seq<Node>)
    requires forall k :: 0 <= k < |groups| ==> groups[k].Group?
    ensures |r| == |groups|
  {
    seq(|groups|, k requires 0 <= k < |groups| => WriteGroup(groups[k]))
  }

  /**
   * `CreateCopyStream`: the copyable solids, then the groups, then the
   * entities, each written as on save, under one `clipboard` block.
   */
  function CreateCopyStream(env: Env, objs: seq<MapObject>): Result<Node, WriteError>
  {
    var solids := Filter(objs, Copyable);
    var groups := Filter(objs, (o: MapObject) => o.Group?);
    var ents := Filter(objs, (o: MapObject) => o.Entity?);
    match WriteSolids(env, solids)
    case Failure(e) => Failure(e)
    case Success(ss) =>
      match WriteEntities(env, ents)
      case Failure(e) => Failure(e)
      case Success(es) => Success(Node("clipboard", [], ss + GroupBlocks(groups) + es))
  }

  /**
   * Copying fails exactly when writing a copyable solid or an entity fails;
   * otherwise the `clipboard` block holds one block per copyable solid, then
   * one `group` block per group, then one `entity` block per entity.
   */
  lemma CopyStreamShape(env: Env, objs: seq<MapObject>)
    ensures var solids := Filter(objs, Copyable);
      var ents := Filter(objs, (o: MapObject) => o.Entity?);
      CreateCopyStream(env, objs).Success? <==> WriteSolids(env, solids).Success? && WriteEntities(env, ents).Success?
    ensures var solids := Filter(objs, Copyable);
      var groups := Filter(objs, (o: MapObject) => o.Group?);
      var ents := Filter(objs, (o: MapObject) => o.Entity?);
      CreateCopyStream(env, objs).Success? ==>
      var n := CreateCopyStream(env, objs).value;
      && n.name == "clipboard" && n.props == []
      && |n.children| == |solids| + |groups| + |ents|
      && n.children[..|solids|] == WriteSolids(env, solids).value
      && n.children[|solids|..|solids| + |groups|] == GroupBlocks(groups)
      && n.children[|solids| + |groups|..] == WriteEntities(env, ents).value
  {
    if CreateCopyStream(env, objs).Success? {
      var solids := Filter(objs, Copyable);
      var groups := Filter(objs, (o: MapObject) => o.Group?);
      var ents := Filter(objs, (o: MapObject) => o.Entity?);
      ThreeParts(WriteSolids(env, solids).value, GroupBlocks(groups), WriteEntities(env, ents).value);
    }
  }

  /** Where each part of a three-part concatenation sits. */
  lemma ThreeParts<T>(a: seq<T>, b: seq<T>, c: seq<T>)
    ensures var s := a + b + c;
      && |s| == |a| + |b| + |c|
      && s[..|a|] == a && s[|a|..|a| + |b|] == b && s[|a| + |b|..] == c
  {
    var s := a + b + c;
    assert s[..|a|] == a;
    assert s[|a|..|a| + |b|] == b;
    assert s[|a| + |b|..] == c;
  }

  // ---------------------------------------------------------------- pasting

  /** The block read as a world, with IDs from a fresh generator. */
  function PastedWorld(env: Env, n: Node): (World, Counters)
  {
    DecodeWorld(env, n, Counters(0, 0))
  }

  /** The objects a `clipboard` block reads into: the world's children, then the entities. */
  function Pasted(env: Env, n: Node): seq<MapObject>
  {
    var w := PastedWorld(env, n);
    w.0.children + DecodeEntities(env, GetChildren(n, "entity"), NoParent, w.1).0
  }

  /**
   * `ExtractCopyStream`: nothing when there is no block or it is not a
   * `clipboard` block; otherwise the pasted objects, reindexed against the
   * caller's generator.
   */
  function Extracted(env: Env, gs: Option<Node>, c: Counters): (Option<seq<MapObject>>, Counters)
  {
    if gs.None? || gs.value.name != "clipboard" then (None, c)
    else
      var re := ReindexSeq(Pasted(env, gs.value), Keep, c);
      (Some(re.0), re.1)
  }

  method ExtractCopyStream(env: Env, gs: Option<Node>, gen: IdGenerator) returns (r: Option<seq<MapObject>>)
    modifies gen
    ensures (r, gen.State()) == Extracted(env, gs, old(gen.State()))
  {
    if gs.None? || gs.value.name != "clipboard" {
      return None;
    }
    var list := ReadPasted(env, gs.value);
    var objs := ReindexAll(list, Keep, gen);
    r := Some(objs);
  }

  /** The objects of a `clipboard` block, read with a generator of their own. */
  method ReadPasted(env: Env, n: Node) returns (objs: seq<MapObject>)
    ensures objs == Pasted(env, n)
  {
    var dummy := new IdGenerator();
    var world := ReadWorld(env, n, dummy);
    // `ReadEntity` leaves each entity's `Parent` unset
    var ents := ReadEntities(env, GetChildren(n, "entity"), NoParent, dummy);
    objs := world.children + ents;
  }

  /**
   * Pasting yields nothing, and draws no ID, exactly when there is no block
   * or it is not a `clipboard` block; otherwise it yields the world's
   * children then one entity per `entity` block, unchanged but for their
   * IDs, and those IDs are consecutive from the caller's generator, so none
   * of them is one the generator handed out before.
   */
  lemma ExtractProps(env: Env, gs: Option<Node>, c: Counters)
    ensures var x := Extracted(env, gs, c);
      x.0.None? <==> gs.None? || gs.value.name != "clipboard"
    ensures var x := Extracted(env, gs, c);
      x.0.None? ==> x.1 == c
    ensures var x := Extracted(env, gs, c);
      x.0.Some? ==>
      && StripSeq(x.0.value) == StripSeq(Pasted(env, gs.value))
      && |ObjectIds(x.0.value)| == |ObjectIds(Pasted(env, gs.value))|
      && CountsUp(ObjectIds(x.0.value), c.lastObject + 1)
      && |FaceIds(x.0.value)| == |FaceIds(Pasted(env, gs.value))|
      && CountsUp(FaceIds(x.0.value), c.lastFace + 1)
      && x.1.lastObject == c.lastObject + |ObjectIds(x.0.value)|
  {
    if gs.Some? && gs.value.name == "clipboard" {
      var objs := Pasted(env, gs.value);
      ReindexShape(objs, Keep, c);
      ReindexObjectIds(objs, Keep, c);
      ReindexFaceIds(objs, Keep, c);
    }
  }

  /** The pasted entities come after the world's children and have no parent. */
  lemma PastedEntities(env: Env, n: Node)
    ensures var world := PastedWorld(env, n).0.children;
      var objs := Pasted(env, n);
      && |objs| == |world| + |GetChildren(n, "entity")|
      && objs[..|world|] == world
      && forall k :: |world| <= k < |objs| ==> objs[k].Entity? && objs[k].parent == NoParent
  {
    var w := PastedWorld(env, n);
    EntitiesAfter(w.0.children, DecodeEntities(env, GetChildren(n, "entity"), NoParent, w.1).0, NoParent);
  }
}
