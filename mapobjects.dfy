/**
 * The editor's object model as the map reader builds it: faces (with an
 * optional displacement), solids, entities, groups, the world and visgroups.
 * Objects are values; a child's `Parent` reference is modelled by the ID
 * of the object it refers to.
 */
module MapObjects {
  import opened Wrappers
  import opened Geometry

  /** `new Vector(normal, distance)`. */
  datatype Vector = Vector(normal: Coord, distance: real)

  /** One control point of a displacement grid. */
  datatype DispPoint = DispPoint(displacement: Vector, offsetDisplacement: Vector, alpha: real)

  /** The payload that makes a face a `Displacement`. */
  datatype DispInfo = DispInfo(power: int, startPosition: Coord, elevation: real, subdiv: bool,
                               points: seq<seq<DispPoint>>)

  /**
   * A face. `solid` is the ID of the solid its `Parent` refers to (None when
   * unset); `disp` is present exactly when the face is a `Displacement`.
   */
  datatype Face = Face(id: int, plane: Plane, vertices: seq<Coord>, texture: Texture,
                       colour: Colour, hidden: bool, solid: Option<int>, disp: Option<DispInfo>)
  {
    predicate IsDisplacement() { disp.Some? }
  }

  /** `new Face(id)`: no plane, no vertices, not hidden, no parent. */
  function NewFace(id: int): Face
  {
    Face(id, Plane(Origin, 0.0), [], BlankTexture, Colour(0, 0, 0), false, None, None)
  }

  /** What an object's `Parent` refers to. */
  datatype ParentLink = NoParent | WorldParent | GroupParent(groupId: int)

  datatype EntityData = EntityData(name: string, properties: seq<(string, string)>, flags: int)

  const NoEntityData := EntityData("", [], 0)

  datatype MapObject =
    | Solid(id: int, faces: seq<Face>, colour: Colour, visgroups: seq<int>, parent: ParentLink,
            codeHidden: bool, visgroupHidden: bool, children: seq<MapObject>)
    | Entity(id: int, className: string, data: EntityData, origin: Coord, colour: Colour,
             visgroups: seq<int>, parent: ParentLink, children: seq<MapObject>)
    | Group(id: int, colour: Colour, visgroups: seq<int>, parent: ParentLink, children: seq<MapObject>)

  /** The object with its `Parent` set to `p`, and nothing else changed. */
  function WithParent(o: MapObject, p: ParentLink): (r: MapObject)
    ensures r.parent == p && r.Solid? == o.Solid? && r.Entity? == o.Entity? && r.Group? == o.Group?
    ensures r.Solid? ==> r.visgroupHidden == o.visgroupHidden
  {
    o.(parent := p)
  }

  /** The entity `e` with its `Parent` set to `p`, and nothing else changed. */
  function EntityUnder(e: MapObject, p: ParentLink): (r: MapObject)
    requires e.Entity?
    ensures r.Entity? && r.parent == p
  {
    Entity(e.id, e.className, e.data, e.origin, e.colour, e.visgroups, p, e.children)
  }

  /** The solid `s` hidden by a visgroup, and nothing else changed. */
  function VisgroupHidden(s: MapObject): (r: MapObject)
    requires s.Solid?
    ensures r.Solid? && r.visgroupHidden && r.parent == s.parent
  {
    Solid(s.id, s.faces, s.colour, s.visgroups, s.parent, s.codeHidden, true, s.children)
  }

  /** The object with children `cs`, and nothing else changed. */
  function WithChildren(o: MapObject, cs: seq<MapObject>): (r: MapObject)
    ensures r.children == cs && r.(children := o.children) == o
  {
    o.(children := cs)
  }

  /** The root container ("worldspawn"). */
  datatype World = World(id: int, className: string, data: EntityData, children: seq<MapObject>)

  datatype Visgroup = Visgroup(id: int, name: string, colour: Colour, visible: bool)

  datatype Map = Map(version: int, visgroups: seq<Visgroup>, world: World)
}
