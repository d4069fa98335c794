/**
 * Faces and solids: reading a `side` block, writing one, and rebuilding a
 * solid from the planes of its sides.
 */
module Faces {
  import opened Wrappers
  import opened Text
  import opened Structure
  import opened Geometry
  import opened MapObjects
  import opened Ids
  import opened Records
  import opened Displacement

  /** Why a writer throws. */
  datatype WriteError =
    | TooFewVertices           // `face.Vertices[2]` is out of range
    | DisplacementUnsupported  // `WriteDisplacement` throws `NotImplementedException`

  // ---------------------------------------------------------------- reading a side

  /** The texture alignment of a side: material, both axes with shift and scale, rotation. */
  function TextureOf(env: Env, side: Node): Texture
  {
    var u := env.readAxis(Get(side, "uaxis"));
    var v := env.readAxis(Get(side, "vaxis"));
    Texture(StringOf(side, "material"), u.0, u.1, u.2, v.0, v.1, v.2, env.readDecimal(Get(side, "rotation")))
  }

  /**
   * `ReadFace` on allocator state `c`: the face and the state after. The
   * face is a displacement exactly when the side has a `dispinfo` block; its
   * vertices are not read back.
   */
  function DecodeFace(env: Env, side: Node, c: Counters): (r: (Face, Counters))
    ensures r.0.IsDisplacement() <==> FirstChild(side, "dispinfo").Some?
    ensures r.0.vertices == [] && !r.0.hidden && r.0.solid.None?
    ensures (r.0.id, r.1) == DrawFaceId(PropertyLong(side, "id"), c)
    ensures r.0.texture.name == StringOf(side, "material")
  {
    var id := DrawFaceId(PropertyLong(side, "id"), c);
    (BaseFace(env, id.0, side).(texture := TextureOf(env, side), plane := env.readPlane(Get(side, "plane"))), id.1)
  }

  /** The face before its texture and plane are read: a displacement when there is a `dispinfo` block. */
  function BaseFace(env: Env, id: int, side: Node): Face
  {
    match FirstChild(side, "dispinfo")
    case Some(info) => DisplacementFace(env, id, info)
    case None => NewFace(id)
  }

  /** `ReadFace`: draws a face ID when the stored one is 0. */
  method ReadFace(env: Env, side: Node, gen: IdGenerator) returns (face: Face)
    modifies gen
    ensures (face, gen.State()) == DecodeFace(env, side, old(gen.State()))
  {
    var id := PropertyLong(side, "id");
    if id == 0 {
      id := gen.NextFaceId();
    }
    assert (id, gen.State()) == DrawFaceId(PropertyLong(side, "id"), old(gen.State()));
    var dispinfo := FirstChild(side, "dispinfo");
    if dispinfo.Some? {
      face := ReadDisplacement(env, id, dispinfo.value);
    } else {
      face := NewFace(id);
    }
    assert face == BaseFace(env, id, side);
    face := face.(texture := TextureOf(env, side), plane := env.readPlane(Get(side, "plane")));
  }

  /** `ReadFace` over the sides in order, threading the allocator. */
  function DecodeFaces(env: Env, sides: seq<Node>, c: Counters): (r: (seq<Face>, Counters))
    ensures |r.0| == |sides|
    ensures forall k :: 0 <= k < |sides| ==> !r.0[k].hidden
    decreases |sides|
  {
    if sides == [] then ([], c)
    else
      var pre := DecodeFaces(env, sides[..|sides| - 1], c);
      var f := DecodeFace(env, sides[|sides| - 1], pre.1);
      (pre.0 + [f.0], f.1)
  }

  // ---------------------------------------------------------------- writing a side

  /** The property key of vertex `i`. */
  function VertexKey(i: nat): string
  {
    "vertex" + NatToString(i)
  }

  /** The loop of `WriteFace` that writes `vertex0` .. `vertexN-1`, from index `i` on. */
  function VertexLoop(env: Env, vs: seq<Coord>, i: nat, n: Node): Node
    requires i <= |vs|
    decreases |vs| - i
  {
    if i == |vs| then n else VertexLoop(env, vs, i + 1, Set(n, VertexKey(i), FormatCoordinate(env, vs[i])))
  }

  /** The vertex block: one property per vertex, in order. */
  function VertexProps(env: Env, vs: seq<Coord>, i: nat): (ps: seq<(string, string)>)
    requires i <= |vs|
    ensures |ps| == i
    ensures forall k :: 0 <= k < i ==> ps[k] == (VertexKey(k), FormatCoordinate(env, vs[k]))
  {
    seq(i, k requires 0 <= k < i => (VertexKey(k), FormatCoordinate(env, vs[k])))
  }

  lemma {:induction false} VertexLoopProps(env: Env, vs: seq<Coord>, i: nat, n: Node)
    requires i <= |vs| && n.props == VertexProps(env, vs, i)
    ensures VertexLoop(env, vs, i, n).props == VertexProps(env, vs, |vs|)
    ensures VertexLoop(env, vs, i, n).name == n.name && VertexLoop(env, vs, i, n).children == n.children
    decreases |vs| - i
  {
    if i < |vs| {
      VertexPropsNext(env, vs, i);
      AssignAbsent(VertexProps(env, vs, i), VertexKey(i), FormatCoordinate(env, vs[i]));
      VertexLoopProps(env, vs, i + 1, Set(n, VertexKey(i), FormatCoordinate(env, vs[i])));
    }
  }

  /** Vertex `i`'s key is not among those of the earlier vertices, and its property comes next. */
  lemma VertexPropsNext(env: Env, vs: seq<Coord>, i: nat)
    requires i < |vs|
    ensures NoKey(VertexProps(env, vs, i), VertexKey(i))
    ensures VertexProps(env, vs, i) + [(VertexKey(i), FormatCoordinate(env, vs[i]))] == VertexProps(env, vs, i + 1)
  {
    var ps := VertexProps(env, vs, i);
    forall k | 0 <= k < i ensures ps[k].0 != VertexKey(i) {
      NumberedKeysDiffer("vertex", k, i);
    }
  }

  /** The `vertex` block holds `vertexI` for every vertex I, in order, and nothing else. */
  lemma VertexBlockProps(env: Env, vs: seq<Coord>)
    ensures VertexLoop(env, vs, 0, Empty("vertex")).props == VertexProps(env, vs, |vs|)
  {
    VertexLoopProps(env, vs, 0, Empty("vertex"));
  }

  function PlaneText(env: Env, vs: seq<Coord>): string
    requires |vs| >= 3
  {
    "(" + FormatCoordinate(env, vs[0]) + ") (" + FormatCoordinate(env, vs[1]) + ") ("
      + FormatCoordinate(env, vs[2]) + ")"
  }

  function AxisText(env: Env, axis: Coord, shift: real, scale: real): string
  {
    "[" + FormatCoordinate(env, axis) + " " + env.decimalText(shift) + "] " + env.decimalText(scale)
  }

  /** The `side` block's properties, in the order `WriteFace` assigns them. */
  function SideHeader(env: Env, face: Face): Node
    requires |face.vertices| >= 3
  {
    var t := face.texture;
    var n := Set(Empty("side"), "id", IntToString(face.id));
    var n := Set(n, "plane", PlaneText(env, face.vertices));
    var n := Set(n, "material", t.name);
    var n := Set(n, "uaxis", AxisText(env, t.uAxis, t.xShift, t.xScale));
    var n := Set(n, "vaxis", AxisText(env, t.vAxis, t.yShift, t.yScale));
    Set(n, "rotation", env.decimalText(t.rotation))
  }

  /**
   * `WriteFace`: the plane from the first three vertices, the texture, and a
   * `vertex` block. Throws when there are fewer than three vertices, and
   * when the face is a displacement.
   */
  function WriteFace(env: Env, face: Face): Result<Node, WriteError>
  {
    if |face.vertices| < 3 then Failure(TooFewVertices)
    else if face.IsDisplacement() then Failure(DisplacementUnsupported)
    else Success(SideBlock(env, face))
  }

  /** What `WriteFace` accepts: at least three vertices, and not a displacement. */
  predicate Writable(face: Face)
  {
    |face.vertices| >= 3 && !face.IsDisplacement()
  }

  /** The `side` block: its properties, then the `vertex` block. */
  function SideBlock(env: Env, face: Face): Node
    requires |face.vertices| >= 3
  {
    AddChild(SideHeader(env, face), VertexLoop(env, face.vertices, 0, Empty("vertex")))
  }

  /**
   * A written side reads back with the same ID (drawing nothing when the ID
   * is non-zero), the same material, and no displacement.
   */
  lemma FaceRoundTrip(env: Env, face: Face, c: Counters)
    requires Writable(face)
    ensures var r := DecodeFace(env, WriteFace(env, face).value, c);
      && (face.id != 0 ==> r.0.id == face.id && r.1 == c)
      && r.0.texture.name == face.texture.name
      && !r.0.IsDisplacement()
  {
    assert WriteFace(env, face).value == SideBlock(env, face);
    SideBlockFields(env, face);
  }

  /** The ID, material and displacement of a `side` block as `ReadFace` sees them. */
  lemma SideBlockFields(env: Env, face: Face)
    requires |face.vertices| >= 3
    ensures PropertyLong(SideBlock(env, face), "id") == face.id
    ensures StringOf(SideBlock(env, face), "material") == face.texture.name
    ensures FirstChild(SideBlock(env, face), "dispinfo").None?
  {
    var side := SideBlock(env, face);
    SideHeaderLookups(env, face);
    assert Get(side, "id") == Get(SideHeader(env, face), "id");
    assert Get(side, "material") == Get(SideHeader(env, face), "material");
    IntRoundTrip(face.id);
    SideBlockHasNoDisplacement(env, face);
  }

  lemma SideBlockHasNoDisplacement(env: Env, face: Face)
    requires |face.vertices| >= 3
    ensures GetChildren(SideBlock(env, face), "dispinfo") == []
  {
    SideHeaderChildren(env, face);
    VertexBlockName(env, face.vertices);
    LoneChildNamed(SideHeader(env, face), VertexLoop(env, face.vertices, 0, Empty("vertex")), "dispinfo");
  }

  lemma VertexBlockName(env: Env, vs: seq<Coord>)
    ensures VertexLoop(env, vs, 0, Empty("vertex")).name == "vertex"
  {
    VertexLoopProps(env, vs, 0, Empty("vertex"));
  }

  lemma SideHeaderChildren(env: Env, face: Face)
    requires |face.vertices| >= 3
    ensures SideHeader(env, face).children == []
  {
  }

  lemma SideHeaderLookups(env: Env, face: Face)
    requires |face.vertices| >= 3
    ensures Get(SideHeader(env, face), "id") == Some(IntToString(face.id))
    ensures Get(SideHeader(env, face), "material") == Some(face.texture.name)
  {
    var t := face.texture;
    var n1 := Set(Empty("side"), "id", IntToString(face.id));
    var n2 := Set(n1, "plane", PlaneText(env, face.vertices));
    var n3 := Set(n2, "material", t.name);
    var n4 := Set(n3, "uaxis", AxisText(env, t.uAxis, t.xShift, t.xScale));
    var n5 := Set(n4, "vaxis", AxisText(env, t.vAxis, t.yShift, t.yScale));
    var n6 := Set(n5, "rotation", env.decimalText(t.rotation));
    assert SideHeader(env, face) == n6;
    SetOther(n1, "plane", PlaneText(env, face.vertices), "id");
    SetOther(n3, "uaxis", AxisText(env, t.uAxis, t.xShift, t.xScale), "id");
    SetOther(n4, "vaxis", AxisText(env, t.vAxis, t.yShift, t.yScale), "id");
    SetOther(n5, "rotation", env.decimalText(t.rotation), "id");
    SetOther(n2, "material", t.name, "id");
    SetOther(n3, "uaxis", AxisText(env, t.uAxis, t.xShift, t.xScale), "material");
    SetOther(n4, "vaxis", AxisText(env, t.vAxis, t.yShift, t.yScale), "material");
    SetOther(n5, "rotation", env.decimalText(t.rotation), "material");
  }

  // ---------------------------------------------------------------- reading a solid

  function PlanesOf(faces: seq<Face>): (ps: seq<Plane>)
    ensures |ps| == |faces| && forall k :: 0 <= k < |faces| ==> ps[k] == faces[k].plane
  {
    if faces == [] then [] else [faces[0].plane] + PlanesOf(faces[1..])
  }

  /** The faces plane intersection builds: fresh `Face` objects with plane and polygon. */
  function BuiltFaces(polys: seq<Polygon>): (fs: seq<Face>)
    ensures |fs| == |polys|
    ensures forall k :: 0 <= k < |polys| ==>
      fs[k] == NewFace(polys[k].id).(plane := polys[k].plane, vertices := polys[k].vertices)
  {
    if polys == [] then []
    else [NewFace(polys[0].id).(plane := polys[0].plane, vertices := polys[0].vertices)] + BuiltFaces(polys[1..])
  }

  /**
   * `faces.FirstOrDefault(x => x.Plane.Normal.EquivalentTo(normal))`: the
   * index of the first source face whose normal is equivalent.
   */
  function FirstMatch(env: Env, sources: seq<Face>, normal: Coord): (r: Option<nat>)
    ensures r.Some? ==> r.value < |sources| && env.equivalent(sources[r.value].plane.normal, normal)
    ensures r.Some? ==> forall k :: 0 <= k < r.value ==> !env.equivalent(sources[k].plane.normal, normal)
    ensures r.None? <==> forall k :: 0 <= k < |sources| ==> !env.equivalent(sources[k].plane.normal, normal)
  {
    if sources == [] then None
    else if env.equivalent(sources[0].plane.normal, normal) then Some(0)
    else match FirstMatch(env, sources[1..], normal)
      case None => None
      case Some(k) => Some(k + 1)
  }

  /**
   * One rebuilt face after matching: a displacement source replaces it,
   * taking over the rebuilt plane and polygon and re-aligning its texture;
   * otherwise the rebuilt face takes the source's texture. Either way the
   * face belongs to the solid and takes its colour.
   */
  function Rebuilt(env: Env, built: Face, src: Face, solidId: int, colour: Colour): Face
  {
    var face := if src.IsDisplacement() then
        var d := src.(plane := built.plane, vertices := built.vertices);
        d.(texture := env.alignToWorld(d.texture, d.plane))
      else built;
    face.(texture := if src.IsDisplacement() then face.texture else src.texture,
          solid := Some(solidId), colour := colour)
  }

  /**
   * A rebuilt face has the rebuilt plane and polygon, belongs to the solid
   * and takes its colour. A displacement source keeps its ID, displacement
   * and visibility and has its texture aligned to the new plane; a plain
   * source lends only its texture.
   */
  lemma RebuiltFields(env: Env, built: Face, src: Face, solidId: int, colour: Colour)
    ensures var f := Rebuilt(env, built, src, solidId, colour);
      && f.plane == built.plane && f.vertices == built.vertices
      && f.solid == Some(solidId) && f.colour == colour
      && (src.IsDisplacement() ==>
            && f.id == src.id && f.disp == src.disp && f.hidden == src.hidden
            && f.texture == env.alignToWorld(src.texture, built.plane))
      && (!src.IsDisplacement() ==>
            f.id == built.id && f.disp == built.disp && f.hidden == built.hidden && f.texture == src.texture)
  {
  }

  predicate AllMatch(env: Env, built: seq<Face>, sources: seq<Face>)
  {
    forall k :: 0 <= k < |built| ==> FirstMatch(env, sources, built[k].plane.normal).Some?
  }

  /**
   * The state of the matching loop: the faces matched so far, and the list of
   * source faces as the loop has left it. A displacement source is the very
   * object that takes the place of its rebuilt face, so once matched it shows
   * the rebuilt plane to every later search of the list.
   */
  datatype Matching = Matching(faces: seq<Face>, sources: seq<Face>)

  /**
   * One pass of the loop for the rebuilt face `b`: the first source face, as
   * the list stands, whose normal is equivalent. A displacement source is
   * changed in the list; a plain one is left alone.
   */
  function MatchOne(env: Env, m: Matching, b: Face, solidId: int, colour: Colour): (r: Option<Matching>)
    ensures r.None? <==> Unmatched(env, m.sources, b)
  {
    match FirstMatch(env, m.sources, b.plane.normal)
    case None => None
    case Some(j) =>
      var f := Rebuilt(env, b, m.sources[j], solidId, colour);
      Some(Matching(m.faces + [f], if m.sources[j].IsDisplacement() then m.sources[j := f] else m.sources))
  }

  /** The matching loop over the rebuilt faces `built`, None from the first face that finds no source. */
  function MatchPrefix(env: Env, built: seq<Face>, sources: seq<Face>, solidId: int, colour: Colour)
    : (r: Option<Matching>)
    ensures r.Some? ==> |r.value.faces| == |built| && |r.value.sources| == |sources|
    decreases |built|
  {
    if built == [] then Some(Matching([], sources))
    else match MatchPrefix(env, built[..|built| - 1], sources, solidId, colour)
      case None => None
      case Some(m) => MatchOne(env, m, built[|built| - 1], solidId, colour)
  }

  /** The matching loop of `ReadSolid`: the matched faces, or None when some rebuilt face finds no source. */
  function MatchAll(env: Env, built: seq<Face>, sources: seq<Face>, solidId: int, colour: Colour)
    : (r: Option<seq<Face>>)
    ensures r.Some? ==> |r.value| == |built|
  {
    match MatchPrefix(env, built, sources, solidId, colour)
    case None => None
    case Some(m) => Some(m.faces)
  }

  predicate AnyDisplacement(faces: seq<Face>)
  {
    exists k :: 0 <= k < |faces| && faces[k].IsDisplacement()
  }

  /** Hiding every non-displacement face when the solid has a displacement. */
  function HideForDisplacements(faces: seq<Face>): (r: seq<Face>)
    ensures |r| == |faces|
  {
    if AnyDisplacement(faces) then HideFlat(faces) else faces
  }

  /** Every face hidden but the displacements. */
  function HideFlat(faces: seq<Face>): (r: seq<Face>)
    ensures |r| == |faces|
    ensures forall k :: 0 <= k < |faces| ==> r[k] == faces[k].(hidden := !faces[k].IsDisplacement())
  {
    if faces == [] then []
    else [faces[0].(hidden := !faces[0].IsDisplacement())] + HideFlat(faces[1..])
  }

  /** The parts of a solid block `ReadSolid` reads before it matches faces. */
  datatype SolidParts = SolidParts(sources: seq<Face>, built: seq<Face>, id: int, colour: Colour,
                                   visgroups: seq<int>, after: Counters)

  function SolidPartsOf(env: Env, node: Node, c: Counters): SolidParts
  {
    var editor := EditorOf(node);
    var sources := DecodeFaces(env, GetChildren(node, "side"), c);
    var id := DrawObjectId(PropertyLong(node, "id"), sources.1);
    SolidParts(sources.0, BuiltFaces(env.intersect(PlanesOf(sources.0))), id.0,
               PropertyColour(editor, "color", env.brushColour), ReadVisgroupIds(editor), id.1)
  }

  /** `ReadSolid` on allocator state `c`: the solid, or None for an invalid one, and the state after. */
  function DecodeSolid(env: Env, node: Node, c: Counters): (r: (Option<MapObject>, Counters))
    ensures r.0.Some? ==> r.0.value.Solid? && r.0.value.parent == NoParent && r.0.value.children == []
    ensures r.0.Some? ==> !r.0.value.visgroupHidden && !r.0.value.codeHidden
  {
    var p := SolidPartsOf(env, node, c);
    match MatchAll(env, p.built, p.sources, p.id, p.colour)
    case None => (None, p.after)
    case Some(faces) =>
      (Some(Solid(p.id, HideForDisplacements(faces), p.colour, p.visgroups, NoParent, false, false, [])), p.after)
  }

  /** The `Select(x => ReadFace(x, generator))` over the sides of a solid. */
  method ReadFaces(env: Env, sides: seq<Node>, gen: IdGenerator) returns (faces: seq<Face>)
    modifies gen
    ensures (faces, gen.State()) == DecodeFaces(env, sides, old(gen.State()))
  {
    ghost var c0 := gen.State();
    faces := [];
    for i := 0 to |sides|
      invariant (faces, gen.State()) == DecodeFaces(env, sides[..i], c0)
    {
      DecodeFacesStep(env, sides, c0, i);
      var f := ReadFace(env, sides[i], gen);
      faces := faces + [f];
    }
    assert sides[..|sides|] == sides;
  }

  lemma DecodeFacesStep(env: Env, sides: seq<Node>, c: Counters, i: nat)
    requires i < |sides|
    ensures var pre := DecodeFaces(env, sides[..i], c);
      var f := DecodeFace(env, sides[i], pre.1);
      DecodeFaces(env, sides[..i + 1], c) == (pre.0 + [f.0], f.1)
  {
    assert sides[..i + 1][..i] == sides[..i];
  }

  /** One pass of the matching loop, once the source face `f` is found. */
  method RebuildFace(env: Env, face: Face, f: Face, id: int, colour: Colour) returns (r: Face)
    ensures r == Rebuilt(env, face, f, id, colour)
  {
    r := face;
    if f.IsDisplacement() {
      var disp := f.(plane := face.plane, vertices := face.vertices);
      disp := disp.(texture := env.alignToWorld(disp.texture, disp.plane));
      r := disp;
    }
    // `face.Texture = f.Texture`: for a displacement `face` is `f`, whose texture is now aligned
    r := r.(texture := if f.IsDisplacement() then r.texture else f.texture, solid := Some(id), colour := colour);
  }

  lemma MatchPrefixStep(env: Env, built: seq<Face>, sources: seq<Face>, id: int, colour: Colour, i: nat)
    requires i < |built|
    ensures MatchPrefix(env, built[..i + 1], sources, id, colour) ==
      match MatchPrefix(env, built[..i], sources, id, colour)
      case None => None
      case Some(m) => MatchOne(env, m, built[i], id, colour)
  {
    PrefixOfPrefix(built, i, i + 1);
  }

  /**
   * The matching loop of `ReadSolid`, which replaces faces in place and gives
   * up on the first rebuilt face without a source.
   */
  method MatchFaces(env: Env, built: seq<Face>, sources: seq<Face>, id: int, colour: Colour)
    returns (r: Option<seq<Face>>)
    ensures r == MatchAll(env, built, sources, id, colour)
  {
    var faces := built;
    var srcs := sources;
    for i := 0 to |faces|
      invariant |faces| == |built|
      invariant MatchPrefix(env, built[..i], sources, id, colour) == Some(Matching(faces[..i], srcs))
      invariant faces[i..] == built[i..]
    {
      MatchPrefixStep(env, built, sources, id, colour, i);
      var face := faces[i];
      UpdateDrop(faces, built, i, face);
      var m := FirstMatch(env, srcs, face.plane.normal);
      if m.None? {
        assert StuckAt(env, built, sources, id, colour, i);
        MatchAllFails(env, built, sources, id, colour);
        return None;
      }
      var f := srcs[m.value];
      face := RebuildFace(env, face, f, id, colour);
      if f.IsDisplacement() {
        // `disp.Plane = face.Plane`: the object in the source list is the one that changed
        srcs := srcs[m.value := face];
      }
      UpdateTake(faces, i, face);
      UpdateDrop(faces, built, i, face);
      faces := faces[i := face];
    }
    TakeAll(built);
    TakeAll(faces);
    return Some(faces);
  }

  /** `ret.Faces.ForEach(x => x.IsHidden = !(x is Displacement))` when any face is a displacement. */
  method HideFaces(faces: seq<Face>) returns (r: seq<Face>)
    ensures r == HideForDisplacements(faces)
  {
    r := faces;
    if AnyDisplacement(faces) {
      for i := 0 to |r|
        invariant |r| == |faces|
        invariant forall k :: 0 <= k < i ==> r[k] == faces[k].(hidden := !faces[k].IsDisplacement())
        invariant forall k :: i <= k < |r| ==> r[k] == faces[k]
      {
        r := r[i := r[i].(hidden := !r[i].IsDisplacement())];
      }
    }
  }

  /**
   * `ReadSolid`: reads the sides, rebuilds the faces from their planes,
   * matches each rebuilt face to its source, and hides the flat faces of a
   * displaced solid.
   */
  method ReadSolid(env: Env, node: Node, gen: IdGenerator) returns (solid: Option<MapObject>)
    modifies gen
    ensures (solid, gen.State()) == DecodeSolid(env, node, old(gen.State()))
  {
    ghost var c0 := gen.State();
    var editor := EditorOf(node);
    var sources := ReadFaces(env, GetChildren(node, "side"), gen);
    var built := BuiltFaces(env.intersect(PlanesOf(sources)));
    var id := GetObjectId(node, gen);
    var colour := PropertyColour(editor, "color", env.brushColour);
    var visgroups := ReadVisgroupIds(editor);
    assert SolidPartsOf(env, node, c0) == SolidParts(sources, built, id, colour, visgroups, gen.State());
    var matched := MatchFaces(env, built, sources, id, colour);
    if matched.None? {
      return None;
    }
    var faces := HideFaces(matched.value);
    solid := Some(Solid(id, faces, colour, visgroups, NoParent, false, false, []));
  }

  /** No source face has a normal equivalent to that of the rebuilt face `f`. */
  predicate Unmatched(env: Env, sources: seq<Face>, f: Face)
  {
    forall j :: 0 <= j < |sources| ==> !env.equivalent(sources[j].plane.normal, f.plane.normal)
  }

  /** The loop reaches rebuilt face `k` and finds no source for it in the list as the loop has left it. */
  predicate StuckAt(env: Env, built: seq<Face>, sources: seq<Face>, id: int, colour: Colour, k: nat)
  {
    && k < |built|
    && var m := MatchPrefix(env, built[..k], sources, id, colour);
    && m.Some?
    && Unmatched(env, m.value.sources, built[k])
  }

  /** Matching fails exactly when the loop reaches a rebuilt face for which it finds no source. */
  lemma MatchAllFails(env: Env, built: seq<Face>, sources: seq<Face>, id: int, colour: Colour)
    ensures MatchAll(env, built, sources, id, colour).None? <==>
      exists k :: 0 <= k < |built| && StuckAt(env, built, sources, id, colour, k)
  {
    FailsWhereStuck(env, built, sources, id, colour);
    if exists k :: 0 <= k < |built| && StuckAt(env, built, sources, id, colour, k) {
      var k :| 0 <= k < |built| && StuckAt(env, built, sources, id, colour, k);
      StuckFails(env, built, sources, id, colour, k);
    }
  }

  /** A loop stuck at some face fails. */
  lemma {:induction false} StuckFails(env: Env, built: seq<Face>, sources: seq<Face>, id: int, colour: Colour, k: nat)
    ensures StuckAt(env, built, sources, id, colour, k) ==> MatchPrefix(env, built, sources, id, colour).None?
    decreases |built|
  {
    if StuckAt(env, built, sources, id, colour, k) {
      var n := |built| - 1;
      MatchPrefixStep(env, built, sources, id, colour, n);
      TakeAll(built);
      if k < n {
        StuckInPrefix(env, built, sources, id, colour, k, n);
        StuckFails(env, built[..n], sources, id, colour, k);
      }
    }
  }

  /** A loop that fails is stuck at some face. */
  lemma {:induction false} FailsWhereStuck(env: Env, built: seq<Face>, sources: seq<Face>, id: int, colour: Colour)
    ensures MatchPrefix(env, built, sources, id, colour).None? ==>
      exists k :: 0 <= k < |built| && StuckAt(env, built, sources, id, colour, k)
    decreases |built|
  {
    if built != [] && MatchPrefix(env, built, sources, id, colour).None? {
      var n := |built| - 1;
      MatchPrefixStep(env, built, sources, id, colour, n);
      TakeAll(built);
      if MatchPrefix(env, built[..n], sources, id, colour).None? {
        FailsWhereStuck(env, built[..n], sources, id, colour);
        var k :| 0 <= k < n && StuckAt(env, built[..n], sources, id, colour, k);
        StuckInPrefix(env, built, sources, id, colour, k, n);
      } else {
        assert StuckAt(env, built, sources, id, colour, n);
      }
    }
  }

  /** Whether the loop gets stuck at face `k` does not depend on the faces after the first `n`. */
  lemma StuckInPrefix(env: Env, built: seq<Face>, sources: seq<Face>, id: int, colour: Colour, k: nat, n: nat)
    requires k < n <= |built|
    ensures StuckAt(env, built, sources, id, colour, k) <==> StuckAt(env, built[..n], sources, id, colour, k)
  {
    PrefixOfPrefix(built, k, n);
  }

  /**
   * The loop changes only displacement sources, and each keeps its kind, its
   * ID and its displacement data.
   */
  lemma {:induction false} SourcesKept(env: Env, built: seq<Face>, sources: seq<Face>, id: int, colour: Colour)
    ensures var r := MatchPrefix(env, built, sources, id, colour);
      r.Some? ==> forall j :: 0 <= j < |sources| ==>
        && (sources[j].IsDisplacement() ==>
              r.value.sources[j].id == sources[j].id && r.value.sources[j].disp == sources[j].disp)
        && (!sources[j].IsDisplacement() ==> r.value.sources[j] == sources[j])
    decreases |built|
  {
    if built != [] {
      var n := |built| - 1;
      SourcesKept(env, built[..n], sources, id, colour);
      MatchPrefixStep(env, built, sources, id, colour, n);
      TakeAll(built);
    }
  }

  /** A solid is rejected exactly when the matching loop reaches a rebuilt face for which it finds no source. */
  lemma SolidRejectedIffUnmatched(env: Env, node: Node, c: Counters)
    ensures var p := SolidPartsOf(env, node, c);
      DecodeSolid(env, node, c).0.None? <==>
        exists k :: 0 <= k < |p.built| && StuckAt(env, p.built, p.sources, p.id, p.colour, k)
  {
    var p := SolidPartsOf(env, node, c);
    MatchAllFails(env, p.built, p.sources, p.id, p.colour);
  }

  /**
   * Face `k` of a completed match is rebuilt from the first source face whose
   * normal is equivalent, in the list as the loop had left it on reaching `k`.
   */
  lemma {:induction false} MatchedFrom(env: Env, built: seq<Face>, sources: seq<Face>, id: int, colour: Colour, k: nat)
    requires MatchPrefix(env, built, sources, id, colour).Some? && k < |built|
    ensures var m := MatchPrefix(env, built[..k], sources, id, colour);
      && m.Some?
      && var j := FirstMatch(env, m.value.sources, built[k].plane.normal);
      && j.Some?
      && MatchPrefix(env, built, sources, id, colour).value.faces[k] ==
           Rebuilt(env, built[k], m.value.sources[j.value], id, colour)
    decreases |built|
  {
    var n := |built| - 1;
    var pre := built[..n];
    MatchPrefixStep(env, built, sources, id, colour, n);
    TakeAll(built);
    var m := MatchPrefix(env, pre, sources, id, colour);
    assert m.Some?;
    var j := FirstMatch(env, m.value.sources, built[n].plane.normal);
    assert j.Some?;
    var f := Rebuilt(env, built[n], m.value.sources[j.value], id, colour);
    assert MatchPrefix(env, built, sources, id, colour).value.faces == m.value.faces + [f];
    if k < n {
      MatchedFrom(env, pre, sources, id, colour, k);
      PrefixOfPrefix(built, k, n);
      assert pre[..k] == built[..k] && pre[k] == built[k];
      var mk := MatchPrefix(env, built[..k], sources, id, colour);
      assert mk == MatchPrefix(env, pre[..k], sources, id, colour);
      assert FirstMatch(env, mk.value.sources, built[k].plane.normal).Some?;
    }
  }

  /**
   * Each face of an admitted solid comes from the first source face whose
   * normal is equivalent, as the list stood when the loop reached it. A
   * displacement source replaces the rebuilt face: it keeps its own ID and
   * displacement, takes over the rebuilt plane and polygon, and has its
   * texture aligned again. A plain source lends its texture to the rebuilt
   * face. Every face belongs to the solid and carries its colour.
   */
  lemma SolidFacesMatched(env: Env, node: Node, c: Counters, k: nat)
    requires DecodeSolid(env, node, c).0.Some?
    ensures var p := SolidPartsOf(env, node, c);
      var s := DecodeSolid(env, node, c).0.value;
      && |s.faces| == |p.built|
      && s.id == p.id && s.colour == p.colour
      && (k < |s.faces| ==>
            var m := MatchPrefix(env, p.built[..k], p.sources, p.id, p.colour);
            && m.Some?
            && var j := FirstMatch(env, m.value.sources, p.built[k].plane.normal);
            && j.Some?
            && var src := m.value.sources[j.value];
            var f := s.faces[k];
            && f.solid == Some(s.id) && f.colour == s.colour
            && f.plane == p.built[k].plane && f.vertices == p.built[k].vertices
            && f.IsDisplacement() == p.sources[j.value].IsDisplacement()
            && (src.IsDisplacement() ==> f.id == p.sources[j.value].id && f.disp == p.sources[j.value].disp
                                         && f.texture == env.alignToWorld(src.texture, p.built[k].plane))
            && (!src.IsDisplacement() ==> f.id == p.built[k].id && f.texture == p.sources[j.value].texture))
  {
    var p := SolidPartsOf(env, node, c);
    var faces := MatchAll(env, p.built, p.sources, p.id, p.colour).value;
    assert DecodeSolid(env, node, c).0.value.faces == HideForDisplacements(faces);
    if k < |p.built| {
      MatchedFrom(env, p.built, p.sources, p.id, p.colour, k);
      var m := MatchPrefix(env, p.built[..k], p.sources, p.id, p.colour).value;
      SourcesKept(env, p.built[..k], p.sources, p.id, p.colour);
      var j := FirstMatch(env, m.sources, p.built[k].plane.normal).value;
      RebuiltFields(env, p.built[k], m.sources[j], p.id, p.colour);
    }
  }

  /** Matching hides nothing: when no rebuilt or source face is hidden, no matched face and no source is. */
  lemma {:induction false} MatchedShown(env: Env, built: seq<Face>, sources: seq<Face>, id: int, colour: Colour)
    requires forall k :: 0 <= k < |built| ==> !built[k].hidden
    requires forall k :: 0 <= k < |sources| ==> !sources[k].hidden
    ensures var r := MatchPrefix(env, built, sources, id, colour);
      r.Some? ==>
        && (forall k :: 0 <= k < |built| ==> !r.value.faces[k].hidden)
        && (forall j :: 0 <= j < |sources| ==> !r.value.sources[j].hidden)
    decreases |built|
  {
    if built != [] {
      var n := |built| - 1;
      var pre := built[..n];
      assert forall k :: 0 <= k < |pre| ==> pre[k] == built[k];
      MatchedShown(env, pre, sources, id, colour);
      MatchPrefixStep(env, built, sources, id, colour, n);
      TakeAll(built);
      var m := MatchPrefix(env, pre, sources, id, colour);
      if m.Some? {
        var r := MatchOne(env, m.value, built[n], id, colour);
        if r.Some? {
          var j := FirstMatch(env, m.value.sources, built[n].plane.normal).value;
          var f := Rebuilt(env, built[n], m.value.sources[j], id, colour);
          RebuiltFields(env, built[n], m.value.sources[j], id, colour);
          assert forall k :: 0 <= k < |r.value.faces| ==> r.value.faces[k] == if k < n then m.value.faces[k] else f;
        }
      }
    }
  }

  /**
   * When no source face is a displacement the list never changes, and the
   * loop matches every rebuilt face against the faces as read: it succeeds
   * exactly when each rebuilt face has a source, and each face is rebuilt
   * from its first match.
   */
  lemma PlainSourcesMatchAsRead(env: Env, built: seq<Face>, sources: seq<Face>, id: int, colour: Colour)
    requires forall j :: 0 <= j < |sources| ==> !sources[j].IsDisplacement()
    ensures MatchAll(env, built, sources, id, colour).Some? <==> AllMatch(env, built, sources)
    ensures MatchAll(env, built, sources, id, colour).Some? ==>
      forall k :: 0 <= k < |built| ==>
        MatchAll(env, built, sources, id, colour).value[k] ==
          Rebuilt(env, built[k], sources[FirstMatch(env, sources, built[k].plane.normal).value], id, colour)
  {
    forall k | 0 <= k <= |built|
      ensures var m := MatchPrefix(env, built[..k], sources, id, colour); m.Some? ==> m.value.sources == sources
    {
      SourcesUnchanged(env, built[..k], sources, id, colour);
    }
    MatchAllFails(env, built, sources, id, colour);
    if MatchAll(env, built, sources, id, colour).Some? {
      forall k | 0 <= k < |built|
        ensures FirstMatch(env, sources, built[k].plane.normal).Some?
        ensures MatchAll(env, built, sources, id, colour).value[k] ==
          Rebuilt(env, built[k], sources[FirstMatch(env, sources, built[k].plane.normal).value], id, colour)
      {
        MatchedFrom(env, built, sources, id, colour, k);
      }
    } else {
      var k :| 0 <= k < |built| && StuckAt(env, built, sources, id, colour, k);
      assert FirstMatch(env, sources, built[k].plane.normal).None?;
    }
  }

  /**
   * A displacement source takes the plane of the first rebuilt face it
   * matches, so a later rebuilt face whose normal is not equivalent to that
   * plane no longer finds it: with that source alone, the solid is rejected.
   */
  lemma RematchSeesNewPlane(env: Env, b0: Face, b1: Face, d: Face, id: int, colour: Colour)
    requires d.IsDisplacement()
    requires env.equivalent(d.plane.normal, b0.plane.normal)
    requires !env.equivalent(b0.plane.normal, b1.plane.normal)
    ensures MatchAll(env, [b0, b1], [d], id, colour).None?
  {
    var f0 := Rebuilt(env, b0, d, id, colour);
    assert [b0, b1][..1] == [b0] && [b0][..0] == [] && [b0, b1][1] == b1;
    assert MatchPrefix(env, [], [d], id, colour) == Some(Matching([], [d]));
    assert FirstMatch(env, [d], b0.plane.normal) == Some(0);
    assert [d][0 := f0] == [f0] && [] + [f0] == [f0];
    assert MatchPrefix(env, [b0], [d], id, colour) == Some(Matching([f0], [f0]));
    RebuiltFields(env, b0, d, id, colour);
    assert FirstMatch(env, [f0], b1.plane.normal).None?;
  }

  /** With no displacement source, the loop leaves the source list as it was. */
  lemma SourcesUnchanged(env: Env, built: seq<Face>, sources: seq<Face>, id: int, colour: Colour)
    requires forall j :: 0 <= j < |sources| ==> !sources[j].IsDisplacement()
    ensures var m := MatchPrefix(env, built, sources, id, colour); m.Some? ==> m.value.sources == sources
  {
    SourcesKept(env, built, sources, id, colour);
  }

  /**
   * When any face of an admitted solid is a displacement, exactly the
   * displacements are shown; otherwise no face is hidden.
   */
  lemma SolidHidesFlatFaces(env: Env, node: Node, c: Counters)
    requires DecodeSolid(env, node, c).0.Some?
    ensures var s := DecodeSolid(env, node, c).0.value;
      if AnyDisplacement(s.faces) then forall k :: 0 <= k < |s.faces| ==> s.faces[k].hidden == !s.faces[k].IsDisplacement()
      else forall k :: 0 <= k < |s.faces| ==> !s.faces[k].hidden
  {
    var p := SolidPartsOf(env, node, c);
    var faces := MatchAll(env, p.built, p.sources, p.id, p.colour).value;
    assert DecodeSolid(env, node, c).0.value.faces == HideForDisplacements(faces);
    MatchedShown(env, p.built, p.sources, p.id, p.colour);
    HidesFlatFaces(faces);
  }

  /**
   * After hiding, either some face is a displacement and exactly the
   * displacements are shown, or no face is and every face is as it was.
   */
  lemma HidesFlatFaces(faces: seq<Face>)
    ensures var r := HideForDisplacements(faces);
      if AnyDisplacement(r) then forall k :: 0 <= k < |r| ==> r[k].hidden == !r[k].IsDisplacement()
      else r == faces
  {
    if AnyDisplacement(faces) {
      var j :| 0 <= j < |faces| && faces[j].IsDisplacement();
      assert HideForDisplacements(faces)[j].IsDisplacement();
    }
  }

  // ---------------------------------------------------------------- writing a solid

  /** `WriteFace` over the faces in order; the first face that throws stops it. */
  function WriteFaces(env: Env, faces: seq<Face>): (r: Result<seq<Node>, WriteError>)
    ensures r.Success? <==> forall k :: 0 <= k < |faces| ==> Writable(faces[k])
    ensures r.Success? ==> |r.value| == |faces|
    ensures r.Success? ==> forall k :: 0 <= k < |faces| ==> r.value[k] == SideBlock(env, faces[k])
  {
    var rs := seq(|faces|, k requires 0 <= k < |faces| => WriteFace(env, faces[k]));
    assert forall k :: 0 <= k < |faces| ==> rs[k] == WriteFace(env, faces[k]);
    AllOf(rs)
  }

  /** The `solid` block itself, before any `hidden` wrapper. */
  function SolidBlock(env: Env, s: MapObject): Result<Node, WriteError>
    requires s.Solid?
  {
    match WriteFaces(env, s.faces)
    case Failure(e) => Failure(e)
    case Success(sides) =>
      Success(Node("solid", Set(Empty("solid"), "id", IntToString(s.id)).props,
                   sides + [WriteEditor(s.colour, s.visgroups, s.parent)]))
  }

  /** `WriteSolid`: the solid block, wrapped in a `hidden` block when the solid is visgroup-hidden. */
  function WriteSolid(env: Env, s: MapObject): Result<Node, WriteError>
    requires s.Solid?
  {
    match SolidBlock(env, s)
    case Failure(e) => Failure(e)
    case Success(n) => if s.visgroupHidden then Success(Node("hidden", [], [n])) else Success(n)
  }

  /**
   * A written solid is a `hidden` block holding exactly the solid block when
   * it is visgroup-hidden, and the solid block itself otherwise; the block
   * holds one side per face, then the editor block, and its ID reads back.
   */
  lemma WriteSolidShape(env: Env, s: MapObject)
    requires s.Solid? && forall k :: 0 <= k < |s.faces| ==> Writable(s.faces[k])
    ensures WriteSolid(env, s).Success?
    ensures var n := WriteSolid(env, s).value;
      var inner := if s.visgroupHidden then n.children[0] else n;
      && (n.name == "hidden" <==> s.visgroupHidden)
      && (s.visgroupHidden ==> |n.children| == 1 && n.props == [])
      && inner.name == "solid"
      && |inner.children| == |s.faces| + 1
      && (forall k :: 0 <= k < |s.faces| ==> inner.children[k] == SideBlock(env, s.faces[k]))
      && inner.children[|s.faces|] == WriteEditor(s.colour, s.visgroups, s.parent)
      && PropertyLong(inner, "id") == s.id
  {
    IntRoundTrip(s.id);
  }
}
