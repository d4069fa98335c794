/**
 * Geometry and appearance values, and the collaborators of the map reader
 * whose code lies outside this model (decimal formatting and parsing,
 * plane intersection, normal comparison, texture alignment). Those are
 * gathered in `Env`, a record of total functions every operation receives,
 * so that nothing is assumed about them beyond their types.
 */
module Geometry {
  import opened Wrappers
  import opened Text
  import opened Structure

  datatype Coord = Coord(x: real, y: real, z: real)

  /** `Coordinate.Zero`. */
  const Origin := Coord(0.0, 0.0, 0.0)

  datatype Plane = Plane(normal: Coord, distance: real)

  type Byte = x: int | 0 <= x < 256

  datatype Colour = Colour(r: Byte, g: Byte, b: Byte)

  /** Texture alignment of a face: material, U and V axes with shift and scale, rotation. */
  datatype Texture = Texture(name: string, uAxis: Coord, xShift: real, xScale: real,
                             vAxis: Coord, yShift: real, yScale: real, rotation: real)

  /**
   * The texture a face built from planes starts with; the reader replaces it
   * before the face is returned.
   */
  const BlankTexture := Texture("", Origin, 0.0, 1.0, Origin, 0.0, 1.0, 0.0)

  /** One face produced by plane intersection: its id, its plane and its polygon. */
  datatype Polygon = Polygon(id: int, plane: Plane, vertices: seq<Coord>)

  /** `PropertyCoordinateArray(key, count)`: always `count` coordinates. */
  type CoordRowReader = f: (Option<string>, nat) -> seq<Coord> | forall v, n :: |f(v, n)| == n
    witness (v: Option<string>, n: nat) => seq(n, _ => Origin)

  /** `PropertyDecimalArray(key, count)`: always `count` decimals. */
  type DecimalRowReader = f: (Option<string>, nat) -> seq<real> | forall v, n :: |f(v, n)| == n
    witness (v: Option<string>, n: nat) => seq(n, _ => 0.0)

  /**
   * The collaborators. Each typed reader receives the raw property value
   * (None when the key is absent).
   */
  datatype Env = Env(
    readCoord: Option<string> -> Coord,               // PropertyCoordinate
    readDecimal: Option<string> -> real,              // PropertyDecimal
    readPlane: Option<string> -> Plane,               // PropertyPlane
    readAxis: Option<string> -> (Coord, real, real),  // PropertyTextureAxis: axis, shift, scale
    readCoordRow: CoordRowReader,
    readDecimalRow: DecimalRowReader,
    fixed3: real -> string,                           // decimal.ToString("0.000")
    decimalText: real -> string,                      // decimal.ToString()
    resolution: int -> nat,                           // Displacement.SetPower(p), then Resolution
    intersect: seq<Plane> -> seq<Polygon>,            // Solid.CreateFromIntersectingPlanes, fresh generator
    equivalent: (Coord, Coord) -> bool,               // Normal.EquivalentTo
    alignToWorld: (Texture, Plane) -> Texture,        // Face.AlignTextureToWorld
    brushColour: Colour                               // Colour.GetRandomBrushColour
  )

  /** `FormatCoordinate`: three fixed-point values separated by single spaces. */
  function FormatCoordinate(env: Env, c: Coord): string
  {
    env.fixed3(c.x) + " " + env.fixed3(c.y) + " " + env.fixed3(c.z)
  }

  /** `FormatColor`: the three channels as decimal integers separated by single spaces. */
  function FormatColor(c: Colour): string
  {
    IntToString(c.r) + " " + IntToString(c.g) + " " + IntToString(c.b)
  }

  function ParseByte(s: string): Option<Byte>
  {
    match ParseInt(s)
    case Some(v) => if 0 <= v < 256 then Some(v) else None
    case None => None
  }

  /**
   * `PropertyColour(key, default)`: three space-separated integers in
   * 0..255, or `default` when the key is absent or the value is malformed.
   */
  function PropertyColour(n: Node, key: string, default: Colour): (c: Colour)
    ensures Get(n, key).None? ==> c == default
  {
    match Get(n, key)
    case None => default
    case Some(v) =>
      var parts := Split(v, ' ');
      if |parts| != 3 then default
      else match (ParseByte(parts[0]), ParseByte(parts[1]), ParseByte(parts[2]))
        case (Some(r), Some(g), Some(b)) => Colour(r, g, b)
        case _ => default
  }

  lemma SplitThree(r: string, g: string, b: string)
    requires ' ' !in r && ' ' !in g && ' ' !in b
    ensures Split(r + " " + g + " " + b, ' ') == [r, g, b]
  {
    assert r + " " + g + " " + b == r + [' '] + (g + [' '] + b);
    SplitJoin(r, g + [' '] + b, ' ');
    SplitJoin(g, b, ' ');
  }

  lemma ByteRoundTrip(x: Byte)
    ensures ParseByte(IntToString(x)) == Some(x)
  {
    IntRoundTrip(x);
  }

  /** A colour written with `FormatColor` reads back unchanged, whatever the default. */
  lemma ColourRoundTrip(n: Node, key: string, c: Colour, default: Colour)
    ensures PropertyColour(Set(n, key, FormatColor(c)), key, default) == c
  {
    NoSpaceInInt(c.r);
    NoSpaceInInt(c.g);
    NoSpaceInInt(c.b);
    SplitThree(IntToString(c.r), IntToString(c.g), IntToString(c.b));
    ByteRoundTrip(c.r);
    ByteRoundTrip(c.g);
    ByteRoundTrip(c.b);
    assert Get(Set(n, key, FormatColor(c)), key) == Some(FormatColor(c));
  }
}
