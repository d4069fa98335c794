/**
 * The save path: collecting the objects of the world tree and writing
 * the blocks of a map file in order.
 */
module Save {
  import opened Wrappers
  import opened Text
  import opened Structure
  import opened Geometry
  import opened MapObjects
  import opened Records
  import opened Faces
  import opened Entities

  /** The objects `FlattenTree` collects: solids, entities and groups, in encounter order. */
  datatype Flat = Flat(solids: seq<MapObject>, entities: seq<MapObject>, groups: seq<MapObject>)

  function Join(a: Flat, b: Flat): Flat
  {
    Flat(a.solids + b.solids, a.entities + b.entities, a.groups + b.groups)
  }

  lemma JoinAssoc(x: Flat, y: Flat, z: Flat)
    ensures Join(x, Join(y, z)) == Join(Join(x, y), z)
  {
    assert x.solids + (y.solids + z.solids) == (x.solids + y.solids) + z.solids;
    assert x.entities + (y.entities + z.entities) == (x.entities + y.entities) + z.entities;
    assert x.groups + (y.groups + z.groups) == (x.groups + y.groups) + z.groups;
  }

  predicate Typed(f: Flat)
  {
    && (forall k :: 0 <= k < |f.solids| ==> f.solids[k].Solid?)
    && (forall k :: 0 <= k < |f.entities| ==> f.entities[k].Entity?)
    && (forall k :: 0 <= k < |f.groups| ==> f.groups[k].Group?)
  }

  lemma JoinTyped(a: Flat, b: Flat)
    requires Typed(a) && Typed(b)
    ensures Typed(Join(a, b))
  {
    var j := Join(a, b);
    assert forall k :: |a.solids| <= k < |j.solids| ==> j.solids[k] == b.solids[k - |a.solids|];
    assert forall k :: |a.entities| <= k < |j.entities| ==> j.entities[k] == b.entities[k - |a.entities|];
    assert forall k :: |a.groups| <= k < |j.groups| ==> j.groups[k] == b.groups[k - |a.groups|];
  }

  /** What `FlattenTree` collects for one child: a group is collected, then everything under it. */
  function FlattenOne(o: MapObject): Flat
    decreases o
  {
    match o
    case Solid(_, _, _, _, _, _, _, _) => Flat([o], [], [])
    case Entity(_, _, _, _, _, _, _, _) => Flat([], [o], [])
    case Group(_, _, _, _, children) => Join(Flat([], [], [o]), Flatten(children))
  }

  /** What `FlattenTree` appends for the children `objs`, in encounter order. */
  function Flatten(objs: seq<MapObject>): Flat
    decreases objs
  {
    if objs == [] then Flat([], [], [])
    else Join(FlattenOne(objs[0]), Flatten(objs[1..]))
  }

  /** Every collected solid is a solid, every entity an entity, every group a group. */
  lemma {:induction false} FlattenTyped(objs: seq<MapObject>)
    ensures Typed(Flatten(objs))
    decreases objs
  {
    if objs != [] {
      FlattenOneTyped(objs[0]);
      FlattenTyped(objs[1..]);
      JoinTyped(FlattenOne(objs[0]), Flatten(objs[1..]));
    }
  }

  lemma {:induction false} FlattenOneTyped(o: MapObject)
    ensures Typed(FlattenOne(o))
    decreases o
  {
    if o.Group? {
      FlattenTyped(o.children);
      JoinTyped(Flat([], [], [o]), Flatten(o.children));
    }
  }

  /** Flattening a concatenation collects the first part, then the second. */
  lemma {:induction false} FlattenAppend(a: seq<MapObject>, b: seq<MapObject>)
    ensures Flatten(a + b) == Join(Flatten(a), Flatten(b))
    decreases a
  {
    if a == [] {
      assert a + b == b;
    } else {
      assert (a + b)[0] == a[0];
      assert (a + b)[1..] == a[1..] + b;
      FlattenAppend(a[1..], b);
      var x, y, z := FlattenOne(a[0]), Flatten(a[1..]), Flatten(b);
      calc {
        Flatten(a + b);
        Join(x, Flatten(a[1..] + b));
        Join(x, Join(y, z));
        { JoinAssoc(x, y, z); }
        Join(Join(x, y), z);
        Join(Flatten(a), z);
      }
    }
  }

  /**
   * A solid or an entity is collected and not descended into, so solids
   * under an entity are not collected; a group is collected, then
   * everything under it.
   */
  lemma FlattenSingle(o: MapObject)
    ensures Flatten([o]) == match o
      case Solid(_, _, _, _, _, _, _, _) => Flat([o], [], [])
      case Entity(_, _, _, _, _, _, _, _) => Flat([], [o], [])
      case Group(_, _, _, _, children) => Join(Flat([], [], [o]), Flatten(children))
  {
    assert [o][1..] == [];
    var f := FlattenOne(o);
    assert Join(f, Flat([], [], [])) == f;
  }

  /**
   * `FlattenTree`: appends to the three lists, in encounter order, the
   * solids, entities and groups among the children and, recursively,
   * beneath every group.
   */
  method FlattenTree(children: seq<MapObject>, solids: seq<MapObject>, entities: seq<MapObject>, groups: seq<MapObject>)
    returns (solids': seq<MapObject>, entities': seq<MapObject>, groups': seq<MapObject>)
    ensures Flat(solids', entities', groups') == Join(Flat(solids, entities, groups), Flatten(children))
    decreases children
  {
    solids', entities', groups' := solids, entities, groups;
    for i := 0 to |children|
      invariant Flat(solids', entities', groups') == Join(Flat(solids, entities, groups), Flatten(children[..i]))
    {
      var mo := children[i];
      ghost var before := Flat(solids', entities', groups');
      if mo.Solid? {
        solids' := solids' + [mo];
      } else if mo.Entity? {
        entities' := entities' + [mo];
      } else {
        assert mo in children;
        solids', entities', groups' := FlattenTree(mo.children, solids', entities', groups' + [mo]);
        JoinAssoc(before, Flat([], [], [mo]), Flatten(mo.children));
      }
      assert Flat(solids', entities', groups') == Join(before, FlattenOne(mo));
      FlattenStep(children, i);
      JoinAssoc(Flat(solids, entities, groups), Flatten(children[..i]), FlattenOne(mo));
    }
    assert children[..|children|] == children;
  }

  lemma FlattenStep(objs: seq<MapObject>, i: nat)
    requires i < |objs|
    ensures Flatten(objs[..i + 1]) == Join(Flatten(objs[..i]), FlattenOne(objs[i]))
  {
    assert objs[..i + 1] == objs[..i] + [objs[i]];
    FlattenAppend(objs[..i], [objs[i]]);
    assert [objs[i]][1..] == [];
    var f := FlattenOne(objs[i]);
    assert Join(f, Flat([], [], [])) == f;
  }

  /** `WriteGroup` over the groups in order. */
  function WriteGroups(groups: seq<MapObject>): (r: seq<Node>)
    requires forall k :: 0 <= k < |groups| ==> groups[k].Group?
    ensures |r| == |groups| && forall k :: 0 <= k < |groups| ==> r[k] == WriteGroup(groups[k])
  {
    seq(|groups|, k requires 0 <= k < |groups| && groups[k].Group? => WriteGroup(groups[k]))
  }

  /** The properties of the `world` block, including the fixed ones the writer always adds. */
  function WorldHead(m: Map): Node
  {
    var n := Set(Empty("world"), "id", IntToString(m.world.id));
    var n := WriteEntityData(Set(n, "classname", "worldspawn"), m.world.data);
    var n := Set(n, "mapversion", IntToString(m.version));
    var n := Set(n, "detailmaterial", "detail/detailsprites");
    var n := Set(n, "detailvbsp", "detail.vbsp");
    var n := Set(n, "maxpropscreenwidth", "-1");
    Set(n, "skyname", "sky_day01_01")
  }

  /** `WriteWorld`: the head, then the solids, then the groups. */
  function WriteWorld(env: Env, m: Map, solids: seq<MapObject>, groups: seq<MapObject>): Result<Node, WriteError>
    requires forall k :: 0 <= k < |solids| ==> solids[k].Solid?
    requires forall k :: 0 <= k < |groups| ==> groups[k].Group?
  {
    match WriteSolids(env, solids)
    case Failure(e) => Failure(e)
    case Success(ss) => Success(Node("world", WorldHead(m).props, ss + WriteGroups(groups)))
  }

  /** `WriteEntity` over the entities in order; the first one that throws stops it. */
  function WriteEntities(env: Env, ents: seq<MapObject>): (r: Result<seq<Node>, WriteError>)
    requires forall k :: 0 <= k < |ents| ==> ents[k].Entity?
    ensures r.Success? <==> forall k :: 0 <= k < |ents| ==> WriteEntity(env, ents[k]).Success?
    ensures r.Success? ==> |r.value| == |ents|
    ensures r.Success? ==> forall k :: 0 <= k < |ents| ==> r.value[k] == WriteEntity(env, ents[k]).value
  {
    AllOf(EntityResults(env, ents))
  }

  /** The outcome of `WriteEntity` for each entity, in order. */
  function EntityResults(env: Env, ents: seq<MapObject>): (rs: seq<Result<Node, WriteError>>)
    requires forall k :: 0 <= k < |ents| ==> ents[k].Entity?
    ensures |rs| == |ents| && forall k :: 0 <= k < |ents| ==> rs[k] == WriteEntity(env, ents[k])
  {
    if ents == [] then [] else [WriteEntity(env, ents[0])] + EntityResults(env, ents[1..])
  }

  function VisgroupsBlock(vs: seq<Visgroup>): (r: Node)
    ensures r.name == "visgroups" && |r.children| == |vs|
    ensures forall k :: 0 <= k < |vs| ==> r.children[k] == WriteVisgroup(vs[k])
  {
    Node("visgroups", [], seq(|vs|, k requires 0 <= k < |vs| => WriteVisgroup(vs[k])))
  }

  /**
   * The blocks `SaveToStream` writes, in order: `versioninfo`, `visgroups`,
   * `viewsettings`, `world`, one `entity` per entity, `cameras`, `cordon`.
   * The world holds the solids and groups of the flattened tree; the
   * entities are those found among the world's children and its groups.
   */
  function SaveBlocks(env: Env, m: Map): Result<seq<Node>, WriteError>
  {
    var flat := Flatten(m.world.children);
    FlattenTyped(m.world.children);
    var world := WriteWorld(env, m, flat.solids, flat.groups);
    var ents := WriteEntities(env, flat.entities);
    if world.Failure? then Failure(world.error)
    else if ents.Failure? then Failure(ents.error)
    else Success(Frame(m, world.value, ents.value))
  }

  /** The blocks around the world and the entities. */
  function Frame(m: Map, world: Node, ents: seq<Node>): seq<Node>
  {
    [Empty("versioninfo"), VisgroupsBlock(m.visgroups), Empty("viewsettings"), world]
    + ents + [Empty("cameras"), Empty("cordon")]
  }

  /**
   * A saved map is `versioninfo`, `visgroups`, `viewsettings` and `world`,
   * then one block per entity, then `cameras` and `cordon`; the world block
   * is the one written from the flattened solids and groups, and the
   * entity blocks are those written from the flattened entities, in order.
   * Saving fails exactly when writing the world or an entity fails.
   */
  lemma SaveBlocksShape(env: Env, m: Map)
    ensures var flat := Flatten(m.world.children);
      Typed(flat) &&
      (SaveBlocks(env, m).Success? <==>
        WriteWorld(env, m, flat.solids, flat.groups).Success? && WriteEntities(env, flat.entities).Success?)
    ensures var flat := Flatten(m.world.children);
      SaveBlocks(env, m).Success? ==>
      var blocks := SaveBlocks(env, m).value;
      var ents := WriteEntities(env, flat.entities).value;
      && Typed(flat)
      && |blocks| == |flat.entities| + 6
      && blocks[0].name == "versioninfo" && blocks[1] == VisgroupsBlock(m.visgroups)
      && blocks[2].name == "viewsettings"
      && blocks[3] == WriteWorld(env, m, flat.solids, flat.groups).value
      && blocks[4..|blocks| - 2] == ents
      && blocks[|blocks| - 2].name == "cameras" && blocks[|blocks| - 1].name == "cordon"
  {
    var flat := Flatten(m.world.children);
    FlattenTyped(m.world.children);
    if SaveBlocks(env, m).Success? {
      var ents := WriteEntities(env, flat.entities).value;
      FrameShape(m, WriteWorld(env, m, flat.solids, flat.groups).value, ents);
    }
  }

  lemma FrameShape(m: Map, world: Node, ents: seq<Node>)
    ensures var blocks := Frame(m, world, ents);
      && |blocks| == |ents| + 6
      && blocks[0].name == "versioninfo" && blocks[1] == VisgroupsBlock(m.visgroups)
      && blocks[2].name == "viewsettings" && blocks[3] == world
      && blocks[4..|blocks| - 2] == ents
      && blocks[|blocks| - 2].name == "cameras" && blocks[|blocks| - 1].name == "cordon"
  {
  }

  /** The `world` block holds one block per solid, then one per group. */
  lemma WriteWorldShape(env: Env, m: Map, solids: seq<MapObject>, groups: seq<MapObject>)
    requires forall k :: 0 <= k < |solids| ==> solids[k].Solid?
    requires forall k :: 0 <= k < |groups| ==> groups[k].Group?
    ensures WriteWorld(env, m, solids, groups).Success? <==> WriteSolids(env, solids).Success?
    ensures WriteWorld(env, m, solids, groups).Success? ==>
      var w := WriteWorld(env, m, solids, groups).value;
      && w.name == "world" && w.props == WorldHead(m).props
      && w.children == WriteSolids(env, solids).value + WriteGroups(groups)
  {
  }

  /**
   * The `world` block's `classname` is `worldspawn` unless the world's
   * key/values say otherwise, and its `skyname` is always the fixed one.
   */
  lemma WorldHeadProps(m: Map)
    ensures Get(WorldHead(m), "skyname") == Some("sky_day01_01")
    ensures Get(WorldHead(m), "classname") ==
      match LastValue(m.world.data.properties, "classname")
      case Some(v) => Some(v)
      case None => Some("worldspawn")
  {
    var n1 := Set(Empty("world"), "id", IntToString(m.world.id));
    var n2 := Set(n1, "classname", "worldspawn");
    var n3 := WriteEntityData(n2, m.world.data);
    WriteEntityDataGet(n2, m.world.data, "classname");
    var n4 := Set(n3, "mapversion", IntToString(m.version));
    var n5 := Set(n4, "detailmaterial", "detail/detailsprites");
    var n6 := Set(n5, "detailvbsp", "detail.vbsp");
    var n7 := Set(n6, "maxpropscreenwidth", "-1");
    SetOther(n3, "mapversion", IntToString(m.version), "classname");
    SetOther(n4, "detailmaterial", "detail/detailsprites", "classname");
    SetOther(n5, "detailvbsp", "detail.vbsp", "classname");
    SetOther(n6, "maxpropscreenwidth", "-1", "classname");
    SetOther(n7, "skyname", "sky_day01_01", "classname");
  }

  /**
   * `SaveToStream`: flattens the world's tree, then writes every block
   * before any of them reaches the stream, so a failure writes nothing.
   */
  method SaveMap(env: Env, m: Map) returns (r: Result<seq<Node>, WriteError>)
    ensures r == SaveBlocks(env, m)
  {
    var solids, ents, groups := FlattenTree(m.world.children, [], [], []);
    var flat := Flatten(m.world.children);
    assert Flat(solids, ents, groups) == flat;
    FlattenTyped(m.world.children);
    var world := WriteWorld(env, m, solids, groups);
    var entities := WriteEntities(env, ents);
    if world.Failure? {
      r := Failure(world.error);
    } else if entities.Failure? {
      r := Failure(entities.error);
    } else {
      r := Success(Frame(m, world.value, entities.value));
    }
  }
}
