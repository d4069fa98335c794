/** Point and brush entities, and groups: their readers and writers. */
module Entities {
  import opened Wrappers
  import opened Text
  import opened Structure
  import opened Geometry
  import opened MapObjects
  import opened Ids
  import opened Records
  import opened Faces

  // ---------------------------------------------------------------- reading

  /** `Select(ReadSolid).Where(s => s != null)`: the solids that read back, in order. */
  function DecodeSolids(env: Env, nodes: seq<Node>, c: Counters): (r: (seq<MapObject>, Counters))
    ensures |r.0| <= |nodes|
    ensures forall k :: 0 <= k < |r.0| ==> r.0[k].Solid? && r.0[k].parent == NoParent
    decreases |nodes|
  {
    if nodes == [] then ([], c)
    else
      var pre := DecodeSolids(env, nodes[..|nodes| - 1], c);
      var s := DecodeSolid(env, nodes[|nodes| - 1], pre.1);
      (if s.0.Some? then pre.0 + [s.0.value] else pre.0, s.1)
  }

  method ReadSolids(env: Env, nodes: seq<Node>, gen: IdGenerator) returns (solids: seq<MapObject>)
    modifies gen
    ensures (solids, gen.State()) == DecodeSolids(env, nodes, old(gen.State()))
  {
    ghost var c0 := gen.State();
    solids := [];
    for i := 0 to |nodes|
      invariant (solids, gen.State()) == DecodeSolids(env, nodes[..i], c0)
    {
      DecodeSolidsStep(env, nodes, c0, i);
      var s := ReadSolid(env, nodes[i], gen);
      if s != None {
        solids := solids + [s.value];
      }
    }
    assert nodes[..|nodes|] == nodes;
  }

  /**
   * Decoding blocks `a` then blocks `b` is decoding `a`, then decoding `b`
   * from the allocator state `a` leaves: the solids stay in block order and
   * the counters thread through.
   */
  lemma {:induction false} DecodeSolidsAppend(env: Env, a: seq<Node>, b: seq<Node>, c: Counters)
    ensures var first := DecodeSolids(env, a, c);
      var second := DecodeSolids(env, b, first.1);
      DecodeSolids(env, a + b, c) == (first.0 + second.0, second.1)
    decreases |b|
  {
    var first := DecodeSolids(env, a, c);
    if b == [] {
      AppendEmpty(a);
      AppendEmpty(first.0);
    } else {
      var b' := b[..|b| - 1];
      SplitLast(b);
      DecodeSolidsAppend(env, a, b', c);
      DecodeSolidsAppendLast(env, a, b', b[|b| - 1], c);
    }
  }

  /** The inductive step of `DecodeSolidsAppend`: when it holds for `b`, it holds for one more block after `b`. */
  lemma DecodeSolidsAppendLast(env: Env, a: seq<Node>, b: seq<Node>, n: Node, c: Counters)
    ensures var first := DecodeSolids(env, a, c);
      var mid := DecodeSolids(env, b, first.1);
      var second := DecodeSolids(env, b + [n], first.1);
      DecodeSolids(env, a + b, c) == (first.0 + mid.0, mid.1) ==>
        DecodeSolids(env, a + (b + [n]), c) == (first.0 + second.0, second.1)
  {
    var first := DecodeSolids(env, a, c);
    var mid := DecodeSolids(env, b, first.1);
    AppendOneAssoc(a, b, n);
    DecodeSolidsSnoc(env, a + b, n, c);
    DecodeSolidsSnoc(env, b, n, first.1);
    var s := DecodeSolid(env, n, mid.1);
    if s.0.Some? {
      AppendOneAssoc(first.0, mid.0, s.0.value);
    }
  }

  /** One more block at the end adds its solid, if it reads back, after the others. */
  lemma DecodeSolidsSnoc(env: Env, nodes: seq<Node>, n: Node, c: Counters)
    ensures var pre := DecodeSolids(env, nodes, c);
      var s := DecodeSolid(env, n, pre.1);
      DecodeSolids(env, nodes + [n], c) == (if s.0.Some? then pre.0 + [s.0.value] else pre.0, s.1)
  {
    assert (nodes + [n])[..|nodes|] == nodes;
  }

  /** One block: its solid when it reads back, nothing otherwise; the counters move on either way. */
  lemma DecodeSolidsSingle(env: Env, n: Node, c: Counters)
    ensures var s := DecodeSolid(env, n, c);
      DecodeSolids(env, [n], c) == (if s.0.Some? then [s.0.value] else [], s.1)
  {
    assert [n][..0] == [] && [n][..1] == [n] && [n][0] == n;
    DecodeSolidsStep(env, [n], c, 0);
    var pre := DecodeSolids(env, [], c);
    assert pre == ([], c);
    var s := DecodeSolid(env, n, c);
    if s.0.Some? {
      assert pre.0 + [s.0.value] == [s.0.value];
    }
  }

  lemma DecodeSolidsStep(env: Env, nodes: seq<Node>, c: Counters, i: nat)
    requires i < |nodes|
    ensures var pre := DecodeSolids(env, nodes[..i], c);
      var s := DecodeSolid(env, nodes[i], pre.1);
      DecodeSolids(env, nodes[..i + 1], c) == (if s.0.Some? then pre.0 + [s.0.value] else pre.0, s.1)
  {
    assert nodes[..i + 1][..i] == nodes[..i];
  }

  /**
   * `ReadEntity` on allocator state `c`: the ID first, then the class name,
   * key/values and origin, the editor colour and visgroups, and the solids
   * that read back, none of which has its parent set.
   */
  function DecodeEntity(env: Env, n: Node, c: Counters): (r: (MapObject, Counters))
    ensures r.0.Entity? && r.0.parent == NoParent
    ensures r.0.className == StringOf(n, "classname") && r.0.data == ReadEntityData(n)
  {
    var id := DrawObjectId(PropertyLong(n, "id"), c);
    var editor := EditorOf(n);
    var solids := DecodeSolids(env, GetChildren(n, "solid"), id.1);
    (Entity(id.0, StringOf(n, "classname"), ReadEntityData(n), env.readCoord(Get(n, "origin")),
            PropertyColour(editor, "color", env.brushColour), ReadVisgroupIds(editor), NoParent, solids.0), solids.1)
  }

  /**
   * An entity's children are exactly what its `solid` blocks decode to,
   * from the allocator state its own ID leaves, and the entity leaves the
   * allocator where its last block does; with no `solid` block it has no
   * children and only its ID was drawn.
   */
  lemma EntityChildren(env: Env, n: Node, c: Counters)
    ensures var id := DrawObjectId(PropertyLong(n, "id"), c);
      var solids := DecodeSolids(env, GetChildren(n, "solid"), id.1);
      var r := DecodeEntity(env, n, c);
      && r.0.id == id.0 && r.0.children == solids.0 && r.1 == solids.1
      && (GetChildren(n, "solid") == [] ==> r.0.children == [] && r.1 == id.1)
      && |r.0.children| <= |GetChildren(n, "solid")|
      && forall k :: 0 <= k < |r.0.children| ==> r.0.children[k].Solid? && r.0.children[k].parent == NoParent
  {
  }

  method ReadEntity(env: Env, n: Node, gen: IdGenerator) returns (ent: MapObject)
    modifies gen
    ensures (ent, gen.State()) == DecodeEntity(env, n, old(gen.State()))
  {
    var id := GetObjectId(n, gen);
    var editor := EditorOf(n);
    var solids := ReadSolids(env, GetChildren(n, "solid"), gen);
    ent := Entity(id, StringOf(n, "classname"), ReadEntityData(n), env.readCoord(Get(n, "origin")),
                  PropertyColour(editor, "color", env.brushColour), ReadVisgroupIds(editor), NoParent, solids);
  }

  /** `ReadGroup`: the ID, then the editor colour and visgroups; no parent and no children yet. */
  function DecodeGroup(env: Env, n: Node, c: Counters): (r: (MapObject, Counters))
    ensures r.0.Group? && r.0.parent == NoParent && r.0.children == []
    ensures (r.0.id, r.1) == DrawObjectId(PropertyLong(n, "id"), c)
  {
    var id := DrawObjectId(PropertyLong(n, "id"), c);
    var editor := EditorOf(n);
    (Group(id.0, PropertyColour(editor, "color", env.brushColour), ReadVisgroupIds(editor), NoParent, []), id.1)
  }

  method ReadGroup(env: Env, n: Node, gen: IdGenerator) returns (g: MapObject)
    modifies gen
    ensures (g, gen.State()) == DecodeGroup(env, n, old(gen.State()))
  {
    var id := GetObjectId(n, gen);
    var editor := EditorOf(n);
    g := Group(id, PropertyColour(editor, "color", env.brushColour), ReadVisgroupIds(editor), NoParent, []);
  }

  // ---------------------------------------------------------------- writing

  /** `FindAll` on each object in turn: the object, then everything beneath it, in pre-order. */
  function Preorder(objs: seq<MapObject>): (r: seq<MapObject>)
    ensures |objs| <= |r|
    decreases objs
  {
    if objs == [] then []
    else [objs[0]] + Preorder(objs[0].children) + Preorder(objs[1..])
  }

  /** The pre-order of a concatenation is the pre-order of each part, in turn. */
  lemma {:induction false} PreorderAppend(a: seq<MapObject>, b: seq<MapObject>)
    ensures Preorder(a + b) == Preorder(a) + Preorder(b)
    decreases |a|
  {
    if a == [] {
      assert a + b == b;
    } else {
      assert (a + b)[0] == a[0] && (a + b)[1..] == a[1..] + b;
      PreorderAppend(a[1..], b);
    }
  }

  /** One object comes before everything beneath it. */
  lemma PreorderSingle(o: MapObject)
    ensures Preorder([o]) == [o] + Preorder(o.children)
  {
    assert [o][1..] == [];
  }

  /** `OfType<Solid>()`: the solids, in their order and as often as they occur. */
  function SolidsOf(objs: seq<MapObject>): (r: seq<MapObject>)
    ensures forall k :: 0 <= k < |r| ==> r[k].Solid? && r[k] in objs
    ensures forall o :: o in objs && o.Solid? ==> o in r
    ensures forall o :: multiset(r)[o] == if o.Solid? then multiset(objs)[o] else 0
  {
    Filter(objs, (o: MapObject) => o.Solid?)
  }

  /** `OfType<Solid>()` keeps the order: the solids of a concatenation are the solids of each part, in turn. */
  lemma SolidsOfAppend(a: seq<MapObject>, b: seq<MapObject>)
    ensures SolidsOf(a + b) == SolidsOf(a) + SolidsOf(b)
  {
    FilterAppend(a, b, (o: MapObject) => o.Solid?);
  }

  /** `WriteSolid` over the solids in order; the first one that throws stops it. */
  function WriteSolids(env: Env, solids: seq<MapObject>): (r: Result<seq<Node>, WriteError>)
    requires forall k :: 0 <= k < |solids| ==> solids[k].Solid?
    ensures r.Success? <==> forall k :: 0 <= k < |solids| ==> WriteSolid(env, solids[k]).Success?
    ensures r.Success? ==> |r.value| == |solids|
    ensures r.Success? ==> forall k :: 0 <= k < |solids| ==> r.value[k] == WriteSolid(env, solids[k]).value
  {
    var rs := seq(|solids|, k requires 0 <= k < |solids| => WriteSolid(env, solids[k]));
    assert forall k :: 0 <= k < |solids| ==> rs[k] == WriteSolid(env, solids[k]);
    AllOf(rs)
  }

  /** The properties of an `entity` block: ID, class name, key/values, and the origin of a point entity. */
  function EntityHead(env: Env, e: MapObject): Node
    requires e.Entity?
  {
    var n := Set(Empty("entity"), "id", IntToString(e.id));
    var n := WriteEntityData(Set(n, "classname", e.data.name), e.data);
    if e.children == [] then Set(n, "origin", FormatCoordinate(env, e.origin)) else n
  }

  /**
   * `WriteEntity`: the head, the editor block, then every solid found
   * beneath the entity, in pre-order.
   */
  function WriteEntity(env: Env, e: MapObject): Result<Node, WriteError>
    requires e.Entity?
  {
    match WriteSolids(env, SolidsOf(Preorder(e.children)))
    case Failure(err) => Failure(err)
    case Success(solids) =>
      var head := EntityHead(env, e);
      Success(Node("entity", head.props, [WriteEditor(e.colour, e.visgroups, e.parent)] + solids))
  }

  /**
   * A point entity (no children) always has its origin written, over any
   * `origin` key/value; a brush entity has only what its key/values say.
   */
  lemma EntityOriginWritten(env: Env, e: MapObject)
    requires e.Entity?
    ensures Get(EntityHead(env, e), "origin") ==
      if e.children == [] then Some(FormatCoordinate(env, e.origin)) else LastValue(e.data.properties, "origin")
  {
    var n1 := Set(Empty("entity"), "id", IntToString(e.id));
    var n2 := Set(n1, "classname", e.data.name);
    WriteEntityDataGet(n2, e.data, "origin");
    assert Get(n2, "origin") == None by {
      assert Get(n1, "origin") == None;
    }
  }

  /**
   * The `id` written for an entity is the one among its key/values when
   * there is one: the key/values are assigned after the ID.
   */
  lemma EntityIdWritten(env: Env, e: MapObject)
    requires e.Entity?
    ensures Get(EntityHead(env, e), "id") ==
      match LastValue(e.data.properties, "id")
      case Some(v) => Some(v)
      case None => Some(IntToString(e.id))
  {
    var n1 := Set(Empty("entity"), "id", IntToString(e.id));
    var n2 := Set(n1, "classname", e.data.name);
    WriteEntityDataGet(n2, e.data, "id");
    assert Get(n2, "id") == Get(n1, "id");
  }

  /**
   * A written entity holds the editor block first, then one written solid
   * for each solid beneath it, in pre-order; writing fails only when one of those solids
   * cannot be written.
   */
  lemma WriteEntityShape(env: Env, e: MapObject)
    requires e.Entity?
    ensures var solids := SolidsOf(Preorder(e.children));
      WriteEntity(env, e).Success? <==> WriteSolids(env, solids).Success?
    ensures var solids := SolidsOf(Preorder(e.children));
      WriteEntity(env, e).Success? ==>
        var n := WriteEntity(env, e).value;
        && n.name == "entity"
        && n.children[0] == WriteEditor(e.colour, e.visgroups, e.parent)
        && n.children[1..] == WriteSolids(env, solids).value
        && |n.children| == |solids| + 1
  {
  }

  /** A written block's editor is its first child. */
  lemma EditorFirst(n: Node, editor: Node)
    requires editor.name == "editor" && |n.children| >= 1 && n.children[0] == editor
    ensures EditorOf(n) == editor
  {
    assert GetChildren(n, "editor")[0] == editor by {
      assert n.children == [n.children[0]] + n.children[1..];
    }
  }

  /**
   * An entity written without any solids reads back with the same colour,
   * visgroups and entity data key/values (apart from `spawnflags`), and with
   * its own ID when the key/values carry no stale `id`.
   */
  lemma PointEntityRoundTrip(env: Env, e: MapObject, c: Counters, key: string)
    requires e.Entity? && SolidsOf(Preorder(e.children)) == []
    requires key != "spawnflags" && key != "origin" && key != "id" && key != "classname"
    ensures WriteEntity(env, e).Success?
    ensures var r := DecodeEntity(env, WriteEntity(env, e).value, c).0;
      && r.colour == e.colour && r.visgroups == e.visgroups && r.children == []
      && Get(WriteEntity(env, e).value, key) == LastValue(e.data.properties, key)
      && (LastValue(e.data.properties, "id").None? && e.id != 0 ==> r.id == e.id)
  {
    var n := WriteEntity(env, e).value;
    var editor := WriteEditor(e.colour, e.visgroups, e.parent);
    EditorFirst(n, editor);
    EditorColourRoundTrip(e.colour, e.visgroups, e.parent, env.brushColour);
    EditorVisgroupsRoundTrip(e.colour, e.visgroups, e.parent);
    assert GetChildren(n, "solid") == [] by {
      assert n.children == [editor];
      assert Named(n.children[1..], "solid") == [];
    }
    EntityIdWritten(env, e);
    IntRoundTrip(e.id);
    var n1 := Set(Empty("entity"), "id", IntToString(e.id));
    var n2 := Set(n1, "classname", e.data.name);
    WriteEntityDataGet(n2, e.data, key);
    assert Get(n2, key) == None by {
      assert Get(n1, key) == None;
    }
  }

  /** `WriteGroup`: the ID and the editor block. */
  function WriteGroup(g: MapObject): Node
    requires g.Group?
  {
    Node("group", Set(Empty("group"), "id", IntToString(g.id)).props, [WriteEditor(g.colour, g.visgroups, g.parent)])
  }

  /**
   * A written group reads back with its colour and visgroups, with its own
   * ID (drawing none) when that is non-zero, and its editor block names the
   * parent group.
   */
  lemma GroupRoundTrip(env: Env, g: MapObject, c: Counters)
    requires g.Group?
    ensures var r := DecodeGroup(env, WriteGroup(g), c);
      && r.0.colour == g.colour && r.0.visgroups == g.visgroups
      && (g.id != 0 ==> r.0.id == g.id && r.1 == c)
      && PropertyLong(EditorOf(WriteGroup(g)), "groupid") == (if g.parent.GroupParent? then g.parent.groupId else 0)
  {
    var n := WriteGroup(g);
    EditorFirst(n, WriteEditor(g.colour, g.visgroups, g.parent));
    EditorColourRoundTrip(g.colour, g.visgroups, g.parent, env.brushColour);
    EditorVisgroupsRoundTrip(g.colour, g.visgroups, g.parent);
    EditorGroupRoundTrip(g.colour, g.visgroups, g.parent);
    IntRoundTrip(g.id);
  }
}
