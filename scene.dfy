/**
 * The world and the map: reading the world block into a tree of groups
 * and solids, attaching the loose entities, and the writers of the save
 * path.
 */
module Scene {
  import opened Wrappers
  import opened Text
  import opened Structure
  import opened Geometry
  import opened MapObjects
  import opened Ids
  import opened Records
  import opened Faces
  import opened Entities
  import opened GroupLinks

  // ---------------------------------------------------------------- groups of a world

  predicate AllGroups(slots: seq<Slot>)
  {
    forall i :: 0 <= i < |slots| ==> slots[i].group.Group?
  }

  /** Each `group` block read in turn, with the owner its editor block names. */
  function DecodeSlots(env: Env, nodes: seq<Node>, c: Counters): (r: (seq<Slot>, Counters))
    ensures |r.0| == |nodes| && AllGroups(r.0)
    decreases |nodes|
  {
    if nodes == [] then ([], c)
    else
      var pre := DecodeSlots(env, nodes[..|nodes| - 1], c);
      var last := nodes[|nodes| - 1];
      var g := DecodeGroup(env, last, pre.1);
      (pre.0 + [Slot(g.0, PropertyLong(EditorOf(last), "groupid"))], g.1)
  }

  method ReadSlots(env: Env, nodes: seq<Node>, gen: IdGenerator) returns (slots: seq<Slot>)
    modifies gen
    ensures (slots, gen.State()) == DecodeSlots(env, nodes, old(gen.State()))
  {
    ghost var c0 := gen.State();
    slots := [];
    for i := 0 to |nodes|
      invariant (slots, gen.State()) == DecodeSlots(env, nodes[..i], c0)
    {
      var g := ReadGroup(env, nodes[i], gen);
      var gid := PropertyLong(EditorOf(nodes[i]), "groupid");
      assert nodes[..i + 1][..i] == nodes[..i];
      slots := slots + [Slot(g, gid)];
    }
    assert nodes[..|nodes|] == nodes;
  }

  // ---------------------------------------------------------------- solids of a world

  /** A solid that read back, and the position of the linked group it goes under (none: the world). */
  datatype Placed = Placed(solid: MapObject, under: Option<nat>)

  /** A `groupid` above 0 names the first linked group with that ID, if there is one. */
  function Placement(slots: seq<Slot>, links: seq<Link>, gid: int): (r: Option<nat>)
    requires ValidLinks(slots, links)
    ensures r.Some? <==> gid > 0 && exists p :: 0 <= p < |links| && IdsOf(slots, links)[p] == gid
    ensures r.Some? ==> r.value < |links| && IdsOf(slots, links)[r.value] == gid
  {
    if gid > 0 then FirstIndex(IdsOf(slots, links), gid) else None
  }

  predicate PlacedWithin(placed: seq<Placed>, n: nat)
  {
    forall k :: 0 <= k < |placed| ==> placed[k].solid.Solid? && (placed[k].under.Some? ==> placed[k].under.value < n)
  }

  /** Placed solids as one loop yields them: visgroup-hidden exactly when `hidden`, and with no parent yet. */
  predicate PlacedAs(placed: seq<Placed>, n: nat, hidden: bool)
  {
    && PlacedWithin(placed, n)
    && forall k :: 0 <= k < |placed| ==> placed[k].solid.visgroupHidden == hidden && placed[k].solid.parent == NoParent
  }

  lemma PlacedAsAppend(a: seq<Placed>, b: seq<Placed>, n: nat, hidden: bool)
    requires PlacedAs(a, n, hidden) && PlacedAs(b, n, hidden)
    ensures PlacedAs(a + b, n, hidden)
  {
    assert forall k :: 0 <= k < |a + b| ==> (a + b)[k] == if k < |a| then a[k] else b[k - |a|];
  }

  lemma PlacedWithinAppend(a: seq<Placed>, b: seq<Placed>, n: nat)
    requires PlacedWithin(a, n) && PlacedWithin(b, n)
    ensures PlacedWithin(a + b, n)
  {
    assert forall k :: 0 <= k < |a + b| ==> (a + b)[k] == if k < |a| then a[k] else b[k - |a|];
  }

  /** One solid that read back: hidden when it comes from a `hidden` block, and placed by its `groupid`. */
  function PlaceOne(s: MapObject, hidden: bool, slots: seq<Slot>, links: seq<Link>, gid: int): (r: Placed)
    requires s.Solid? && ValidLinks(slots, links)
    ensures r.solid.Solid? && r.solid.parent == s.parent && (r.under.Some? ==> r.under.value < |links|)
    ensures r.solid.visgroupHidden == (hidden || s.visgroupHidden)
  {
    Placed(if hidden then VisgroupHidden(s) else s, Placement(slots, links, gid))
  }

  /**
   * The solids of one loop over `solid` blocks, in order; those that do not
   * read back are skipped, and those read from a `hidden` block are
   * visgroup-hidden.
   */
  function DecodePlaced(env: Env, nodes: seq<Node>, hidden: bool, slots: seq<Slot>, links: seq<Link>, c: Counters)
    : (r: (seq<Placed>, Counters))
    requires ValidLinks(slots, links)
    ensures |r.0| <= |nodes| && PlacedAs(r.0, |links|, hidden)
    decreases |nodes|
  {
    if nodes == [] then ([], c)
    else
      var pre := DecodePlaced(env, nodes[..|nodes| - 1], hidden, slots, links, c);
      var last := nodes[|nodes| - 1];
      var s := DecodeSolid(env, last, pre.1);
      if s.0.None? then (pre.0, s.1)
      else (PlaceAfter(pre.0, s.0.value, hidden, slots, links, PropertyLong(EditorOf(last), "groupid")), s.1)
  }

  /** The solids placed so far, then `s` placed by its `groupid`. */
  function PlaceAfter(pre: seq<Placed>, s: MapObject, hidden: bool, slots: seq<Slot>, links: seq<Link>, gid: int)
    : (r: seq<Placed>)
    requires ValidLinks(slots, links) && s.Solid? && !s.visgroupHidden && s.parent == NoParent
    requires PlacedAs(pre, |links|, hidden)
    ensures |r| == |pre| + 1 && r[..|pre|] == pre && PlacedAs(r, |links|, hidden)
  {
    var one := [PlaceOne(s, hidden, slots, links, gid)];
    assert PlacedAs(pre + one, |links|, hidden) by {
      PlacedAsAppend(pre, one, |links|, hidden);
    }
    assert (pre + one)[..|pre|] == pre;
    pre + one
  }

  method PlaceSolids(env: Env, nodes: seq<Node>, hidden: bool, slots: seq<Slot>, links: seq<Link>, gen: IdGenerator)
    returns (placed: seq<Placed>)
    requires ValidLinks(slots, links)
    modifies gen
    ensures (placed, gen.State()) == DecodePlaced(env, nodes, hidden, slots, links, old(gen.State()))
  {
    ghost var c0 := gen.State();
    placed := [];
    for i := 0 to |nodes|
      invariant (placed, gen.State()) == DecodePlaced(env, nodes[..i], hidden, slots, links, c0)
    {
      DecodePlacedStep(env, nodes, hidden, slots, links, c0, i);
      var s := ReadSolid(env, nodes[i], gen);
      if s == None {
        continue;
      }
      var gid := PropertyLong(EditorOf(nodes[i]), "groupid");
      placed := placed + [PlaceOne(s.value, hidden, slots, links, gid)];
    }
    assert nodes[..|nodes|] == nodes;
  }

  lemma DecodePlacedStep(env: Env, nodes: seq<Node>, hidden: bool, slots: seq<Slot>, links: seq<Link>,
                         c: Counters, i: nat)
    requires ValidLinks(slots, links) && i < |nodes|
    ensures var pre := DecodePlaced(env, nodes[..i], hidden, slots, links, c);
      var s := DecodeSolid(env, nodes[i], pre.1);
      DecodePlaced(env, nodes[..i + 1], hidden, slots, links, c) ==
        if s.0.None? then (pre.0, s.1)
        else (pre.0 + [PlaceOne(s.0.value, hidden, slots, links, PropertyLong(EditorOf(nodes[i]), "groupid"))], s.1)
  {
    assert nodes[..i + 1][..i] == nodes[..i];
  }

  /** The solids of every `hidden` block, block after block. */
  function DecodeHidden(env: Env, blocks: seq<Node>, slots: seq<Slot>, links: seq<Link>, c: Counters)
    : (r: (seq<Placed>, Counters))
    requires ValidLinks(slots, links)
    ensures PlacedAs(r.0, |links|, true)
    decreases |blocks|
  {
    if blocks == [] then ([], c)
    else
      var pre := DecodeHidden(env, blocks[..|blocks| - 1], slots, links, c);
      var more := DecodePlaced(env, GetChildren(blocks[|blocks| - 1], "solid"), true, slots, links, pre.1);
      assert PlacedAs(pre.0 + more.0, |links|, true) by {
        PlacedAsAppend(pre.0, more.0, |links|, true);
      }
      (pre.0 + more.0, more.1)
  }

  /** The loop over the `hidden` blocks of a world, and over the solids of each. */
  method PlaceHidden(env: Env, blocks: seq<Node>, slots: seq<Slot>, links: seq<Link>, gen: IdGenerator)
    returns (placed: seq<Placed>)
    requires ValidLinks(slots, links)
    modifies gen
    ensures (placed, gen.State()) == DecodeHidden(env, blocks, slots, links, old(gen.State()))
  {
    ghost var c0 := gen.State();
    placed := [];
    for i := 0 to |blocks|
      invariant (placed, gen.State()) == DecodeHidden(env, blocks[..i], slots, links, c0)
    {
      assert blocks[..i + 1][..i] == blocks[..i];
      var more := PlaceSolids(env, GetChildren(blocks[i], "solid"), true, slots, links, gen);
      placed := placed + more;
    }
    assert blocks[..|blocks|] == blocks;
  }

  // ---------------------------------------------------------------- the tree

  /** What a linked group's `Parent` is: unset for a top-level group, else the group it went under. */
  function ParentOf(slots: seq<Slot>, links: seq<Link>, p: nat): ParentLink
    requires ValidLinks(slots, links) && p < |links|
  {
    match links[p].parent
    case None => NoParent
    case Some(q) => GroupParent(IdsOf(slots, links)[q])
  }

  /** The solids that went under `under`, in the order they were attached, each pointing back at it. */
  function SolidsUnder(slots: seq<Slot>, links: seq<Link>, placed: seq<Placed>, under: Option<nat>)
    : (r: seq<MapObject>)
    requires ValidLinks(slots, links) && PlacedWithin(placed, |links|)
    requires under.Some? ==> under.value < |links|
    ensures forall k :: 0 <= k < |r| ==>
      && r[k].Solid?
      && r[k].parent == (if under.None? then WorldParent else GroupParent(IdsOf(slots, links)[under.value]))
  {
    if placed == [] then []
    else
      var rest := SolidsUnder(slots, links, placed[1..], under);
      if placed[0].under == under then
        var parent := if under.None? then WorldParent else GroupParent(IdsOf(slots, links)[under.value]);
        [WithParent(placed[0].solid, parent)] + rest
      else rest
  }

  /**
   * The linked group at position `p` with everything under it: the groups
   * linked under it, in link order, then its solids.
   */
  function GroupTree(slots: seq<Slot>, links: seq<Link>, placed: seq<Placed>, p: nat): (r: MapObject)
    requires ValidLinks(slots, links) && AllGroups(slots) && PlacedWithin(placed, |links|) && p < |links|
    ensures r.Group? && r.id == IdsOf(slots, links)[p] && r.parent == ParentOf(slots, links, p)
    ensures forall k :: 0 <= k < |r.children| ==> r.children[k].parent == GroupParent(r.id)
    decreases |links| - p, 1
  {
    var g := slots[links[p].slot].group;
    var subs := SubGroups(slots, links, placed, p, p + 1);
    var solids := SolidsUnder(slots, links, placed, Some(p));
    var r := WithChildren(WithParent(g, ParentOf(slots, links, p)), subs + solids);
    assert forall k :: 0 <= k < |r.children| ==> r.children[k] == if k < |subs| then subs[k] else solids[k - |subs|];
    r
  }

  /** The groups linked under position `p`, from position `q` on. */
  function SubGroups(slots: seq<Slot>, links: seq<Link>, placed: seq<Placed>, p: nat, q: nat): (r: seq<MapObject>)
    requires ValidLinks(slots, links) && AllGroups(slots) && PlacedWithin(placed, |links|) && p < q <= |links|
    ensures forall k :: 0 <= k < |r| ==> r[k].Group? && r[k].parent == GroupParent(IdsOf(slots, links)[p])
    decreases |links| - p, 0, |links| - q
  {
    if q == |links| then []
    else
      var rest := SubGroups(slots, links, placed, p, q + 1);
      if links[q].parent == Some(p) then [GroupTree(slots, links, placed, q)] + rest else rest
  }

  /** The top-level groups from position `p` on, each with everything under it. */
  function TopTrees(slots: seq<Slot>, links: seq<Link>, placed: seq<Placed>, p: nat): (r: seq<MapObject>)
    requires ValidLinks(slots, links) && AllGroups(slots) && PlacedWithin(placed, |links|) && p <= |links|
    ensures forall k :: 0 <= k < |r| ==> r[k].Group? && r[k].parent == NoParent
    decreases |links| - p
  {
    if p == |links| then []
    else
      var rest := TopTrees(slots, links, placed, p + 1);
      if links[p].parent.None? then [GroupTree(slots, links, placed, p)] + rest else rest
  }

  /** The world's children: the top-level groups, then the solids that went under no group. */
  function WorldChildren(slots: seq<Slot>, links: seq<Link>, placed: seq<Placed>): seq<MapObject>
    requires ValidLinks(slots, links) && AllGroups(slots) && PlacedWithin(placed, |links|)
  {
    TopTrees(slots, links, placed, 0) + SolidsUnder(slots, links, placed, None)
  }

  // ---------------------------------------------------------------- reading the world

  /** The parts of a world block in the order `ReadWorld` reads them. */
  datatype WorldParts = WorldParts(id: int, slots: seq<Slot>, placed: seq<Placed>, after: Counters)

  function WorldPartsOf(env: Env, n: Node, c: Counters): (r: WorldParts)
    ensures AllGroups(r.slots) && PlacedWithin(r.placed, |Linked(r.slots)|)
  {
    var id := DrawObjectId(PropertyLong(n, "id"), c);
    var slots := DecodeSlots(env, GetChildren(n, "group"), id.1);
    var links := Linked(slots.0);
    var visible := DecodePlaced(env, GetChildren(n, "solid"), false, slots.0, links, slots.1);
    var hidden := DecodeHidden(env, GetChildren(n, "hidden"), slots.0, links, visible.1);
    assert PlacedWithin(visible.0 + hidden.0, |links|) by {
      PlacedWithinAppend(visible.0, hidden.0, |links|);
    }
    WorldParts(id.0, slots.0, visible.0 + hidden.0, hidden.1)
  }

  /** `ReadWorld` on allocator state `c`: the world and the state after. */
  function DecodeWorld(env: Env, n: Node, c: Counters): (World, Counters)
  {
    var p := WorldPartsOf(env, n, c);
    (World(p.id, "worldspawn", ReadEntityData(n), WorldChildren(p.slots, Linked(p.slots), p.placed)), p.after)
  }

  /**
   * `ReadWorld`: the ID and key/values, the groups and their links, then
   * the visible solids and the solids of every `hidden` block, each under
   * the group its editor block names or under the world.
   */
  method ReadWorld(env: Env, n: Node, gen: IdGenerator) returns (world: World)
    modifies gen
    ensures (world, gen.State()) == DecodeWorld(env, n, old(gen.State()))
  {
    var id := GetObjectId(n, gen);
    var data := ReadEntityData(n);
    var slots := ReadSlots(env, GetChildren(n, "group"), gen);
    var links := LinkGroups(slots);
    var visible := PlaceSolids(env, GetChildren(n, "solid"), false, slots, links, gen);
    var hidden := PlaceHidden(env, GetChildren(n, "hidden"), slots, links, gen);
    var placed := visible + hidden;
    world := World(id, "worldspawn", data, WorldChildren(slots, links, placed));
  }

  /**
   * The world's children are the top-level groups, whose `Parent` is left
   * unset, then the solids attached to no group, which point at the world.
   * (Every child of a group in the tree points back at that group: see the
   * contract of `GroupTree`.)
   */
  lemma WorldParents(slots: seq<Slot>, links: seq<Link>, placed: seq<Placed>)
    requires ValidLinks(slots, links) && AllGroups(slots) && PlacedWithin(placed, |links|)
    ensures var tops := TopTrees(slots, links, placed, 0);
      var children := WorldChildren(slots, links, placed);
      && |tops| <= |children|
      && (forall k :: 0 <= k < |tops| ==> children[k].Group? && children[k].parent == NoParent)
      && (forall k :: |tops| <= k < |children| ==> children[k].Solid? && children[k].parent == WorldParent)
  {
    var tops := TopTrees(slots, links, placed, 0);
    var solids := SolidsUnder(slots, links, placed, None);
    var children := WorldChildren(slots, links, placed);
    assert forall k :: 0 <= k < |tops| ==> children[k] == tops[k];
    assert forall k :: |tops| <= k < |children| ==> children[k] == solids[k - |tops|];
  }

  /**
   * A solid goes under a group exactly when its `groupid` is above 0 and is
   * the ID of a linked group, and then under the first such group; a solid
   * read from a `hidden` block is visgroup-hidden.
   */
  lemma SolidPlacement(env: Env, nodes: seq<Node>, hidden: bool, slots: seq<Slot>, links: seq<Link>, c: Counters)
    requires ValidLinks(slots, links) && |nodes| > 0
    ensures var pre := DecodePlaced(env, nodes[..|nodes| - 1], hidden, slots, links, c);
      var before := pre.0;
      var last := nodes[|nodes| - 1];
      var gid := PropertyLong(EditorOf(last), "groupid");
      var placed := DecodePlaced(env, nodes, hidden, slots, links, c).0;
      && (DecodeSolid(env, last, pre.1).0.None? ==> placed == before)
      && (DecodeSolid(env, last, pre.1).0.Some? ==>
            && |placed| == |before| + 1
            && placed[|before|].solid.visgroupHidden == hidden
            && (placed[|before|].under.Some? <==>
                  gid > 0 && exists p :: 0 <= p < |links| && IdsOf(slots, links)[p] == gid)
            && (placed[|before|].under.Some? ==> placed[|before|].under == FirstIndex(IdsOf(slots, links), gid)))
  {
  }

  // ---------------------------------------------------------------- the map

  /** `parent.GetChildren("visgroups").SelectMany(x => x.GetChildren("visgroup"))`. */
  function VisgroupNodes(blocks: seq<Node>): (r: seq<Node>)
  {
    if blocks == [] then [] else GetChildren(blocks[0], "visgroup") + VisgroupNodes(blocks[1..])
  }

  function ReadVisgroups(env: Env, nodes: seq<Node>): (r: seq<Visgroup>)
    ensures |r| == |nodes| && forall k :: 0 <= k < |nodes| ==> r[k] == ReadVisgroup(env, nodes[k])
  {
    seq(|nodes|, k requires 0 <= k < |nodes| => ReadVisgroup(env, nodes[k]))
  }

  /**
   * The loose entities, read in turn, each with its `Parent` set to `link`:
   * the world when a map is read, and left unset (`NoParent`, as
   * `ReadEntity` leaves it) when the clipboard is read.
   */
  function DecodeEntities(env: Env, nodes: seq<Node>, link: ParentLink, c: Counters): (r: (seq<MapObject>, Counters))
    ensures |r.0| == |nodes|
    ensures EntitiesUnder(r.0, link)
    decreases |nodes|
  {
    if nodes == [] then ([], c)
    else
      var pre := DecodeEntities(env, nodes[..|nodes| - 1], link, c);
      var e := DecodeEntity(env, nodes[|nodes| - 1], pre.1);
      var one := [EntityUnder(e.0, link)];
      assert EntitiesUnder(pre.0 + one, link) by {
        EntitiesUnderAppend(pre.0, one, link);
      }
      (pre.0 + one, e.1)
  }

  /** Every object is an entity whose `Parent` is `link`. */
  predicate EntitiesUnder(objs: seq<MapObject>, link: ParentLink)
  {
    forall k :: 0 <= k < |objs| ==> objs[k].Entity? && objs[k].parent == link
  }

  lemma EntitiesUnderAppend(a: seq<MapObject>, b: seq<MapObject>, link: ParentLink)
    requires EntitiesUnder(a, link) && EntitiesUnder(b, link)
    ensures EntitiesUnder(a + b, link)
  {
    assert forall k :: 0 <= k < |a + b| ==> (a + b)[k] == if k < |a| then a[k] else b[k - |a|];
  }

  /**
   * The assembly step of `GetFromStream` on the parsed top-level blocks:
   * the visgroups, the world (the blank map's own world when there is no
   * `world` block), then every `entity` block attached to the world.
   */
  function DecodeMap(env: Env, root: Node, blank: Map, c: Counters): (r: (Map, Counters))
  {
    var visgroups := blank.visgroups + ReadVisgroups(env, VisgroupNodes(GetChildren(root, "visgroups")));
    var world := match FirstChild(root, "world")
      case Some(w) => DecodeWorld(env, w, c)
      case None => (blank.world, c);
    var ents := DecodeEntities(env, GetChildren(root, "entity"), WorldParent, world.1);
    (blank.(visgroups := visgroups, world := world.0.(children := world.0.children + ents.0)), ents.1)
  }

  /**
   * What the assembly step leaves in the map: the blank map's visgroups
   * followed by one per `visgroup` block; the decoded world (the blank
   * world when there is no `world` block) keeping its own children first,
   * then one entity per `entity` block, each attached to the world; and
   * everything else as in the blank map.
   */
  lemma MapShape(env: Env, root: Node, blank: Map, c: Counters)
    ensures var m := DecodeMap(env, root, blank, c).0;
      var world := match FirstChild(root, "world")
        case Some(w) => DecodeWorld(env, w, c).0
        case None => blank.world;
      && m.version == blank.version
      && m.visgroups == blank.visgroups + ReadVisgroups(env, VisgroupNodes(GetChildren(root, "visgroups")))
      && m.world.(children := world.children) == world
      && |m.world.children| == |world.children| + |GetChildren(root, "entity")|
      && m.world.children[..|world.children|] == world.children
      && forall k :: |world.children| <= k < |m.world.children| ==>
           m.world.children[k].Entity? && m.world.children[k].parent == WorldParent
  {
    var world := match FirstChild(root, "world")
      case Some(w) => DecodeWorld(env, w, c)
      case None => (blank.world, c);
    EntitiesAfter(world.0.children, DecodeEntities(env, GetChildren(root, "entity"), WorldParent, world.1).0, WorldParent);
  }

  /** Entities appended after a prefix keep their place, their kind and their link. */
  lemma EntitiesAfter(prefix: seq<MapObject>, ents: seq<MapObject>, link: ParentLink)
    requires EntitiesUnder(ents, link)
    ensures var objs := prefix + ents;
      && objs[..|prefix|] == prefix
      && forall k :: |prefix| <= k < |objs| ==> objs[k].Entity? && objs[k].parent == link
  {
    var objs := prefix + ents;
    assert objs[..|prefix|] == prefix;
    assert forall k :: |prefix| <= k < |objs| ==> objs[k] == ents[k - |prefix|];
  }

  /** `map.Visgroups.Add(ReadVisgroup(visgroup))` for each visgroup in turn. */
  method AddVisgroups(env: Env, m: Map, nodes: seq<Node>) returns (r: Map)
    ensures r == m.(visgroups := m.visgroups + ReadVisgroups(env, nodes))
  {
    r := m;
    for i := 0 to |nodes|
      invariant r == m.(visgroups := m.visgroups + ReadVisgroups(env, nodes[..i]))
    {
      assert ReadVisgroups(env, nodes[..i + 1]) == ReadVisgroups(env, nodes[..i]) + [ReadVisgroup(env, nodes[i])];
      r := r.(visgroups := r.visgroups + [ReadVisgroup(env, nodes[i])]);
    }
    assert nodes[..|nodes|] == nodes;
  }

  /** The loop over the loose `entity` blocks. */
  method ReadEntities(env: Env, nodes: seq<Node>, link: ParentLink, gen: IdGenerator) returns (ents: seq<MapObject>)
    modifies gen
    ensures (ents, gen.State()) == DecodeEntities(env, nodes, link, old(gen.State()))
  {
    ghost var c0 := gen.State();
    ents := [];
    for i := 0 to |nodes|
      invariant (ents, gen.State()) == DecodeEntities(env, nodes[..i], link, c0)
    {
      DecodeEntitiesStep(env, nodes, link, c0, i);
      var ent := ReadEntity(env, nodes[i], gen);
      ents := ents + [EntityUnder(ent, link)];
    }
    assert nodes[..|nodes|] == nodes;
  }

  lemma DecodeEntitiesStep(env: Env, nodes: seq<Node>, link: ParentLink, c: Counters, i: nat)
    requires i < |nodes|
    ensures var pre := DecodeEntities(env, nodes[..i], link, c);
      var e := DecodeEntity(env, nodes[i], pre.1);
      DecodeEntities(env, nodes[..i + 1], link, c) == (pre.0 + [EntityUnder(e.0, link)], e.1)
  {
    assert nodes[..i + 1][..i] == nodes[..i];
  }

  method ReadMap(env: Env, root: Node, blank: Map, gen: IdGenerator) returns (m: Map)
    modifies gen
    ensures (m, gen.State()) == DecodeMap(env, root, blank, old(gen.State()))
  {
    m := AddVisgroups(env, blank, VisgroupNodes(GetChildren(root, "visgroups")));
    var world := FirstChild(root, "world");
    if world.Some? {
      var w := ReadWorld(env, world.value, gen);
      m := m.(world := w);
    }
    var ents := ReadEntities(env, GetChildren(root, "entity"), WorldParent, gen);
    // `map.WorldSpawn.Children.Add(ent)` for each entity in turn
    m := m.(world := m.world.(children := m.world.children + ents));
  }
}
