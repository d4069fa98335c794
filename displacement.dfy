/**
 * Decoding a `dispinfo` block into a displacement grid. Each of the five
 * per-point channels is a child block holding one `rowI` property per grid
 * row; a channel block that is absent reads as zeros.
 */
module Displacement {
  import opened Wrappers
  import opened Text
  import opened Structure
  import opened Geometry
  import opened MapObjects

  /** The property key of grid row `i`. */
  function RowKey(i: nat): string
  {
    "row" + NatToString(i)
  }

  /** The power the grid is built with: the `power` property, 3 when absent or malformed. */
  function PowerOf(info: Node): int
  {
    PropertyInteger(info, "power", 3)
  }

  /** The number of control points along each side of the grid: `Resolution + 1`. */
  function GridSize(env: Env, info: Node): (n: nat)
    ensures n >= 1
  {
    env.resolution(PowerOf(info)) + 1
  }

  /** Row `i` of a coordinate channel, or `size` zero coordinates when the channel block is absent. */
  function CoordRow(env: Env, info: Node, channel: string, size: nat, i: nat): (r: seq<Coord>)
    ensures |r| == size
  {
    match FirstChild(info, channel)
    case Some(c) => env.readCoordRow(Get(c, RowKey(i)), size)
    case None => Repeat(Origin, size)
  }

  /** Row `i` of a decimal channel, or `size` zeros when the channel block is absent. */
  function DecimalRow(env: Env, info: Node, channel: string, size: nat, i: nat): (r: seq<real>)
    ensures |r| == size
  {
    match FirstChild(info, channel)
    case Some(c) => env.readDecimalRow(Get(c, RowKey(i)), size)
    case None => Repeat(0.0, size)
  }

  /** `n` copies of `x`: the row of an absent channel. */
  function Repeat<T>(x: T, n: nat): (r: seq<T>)
    ensures |r| == n && forall k :: 0 <= k < n ==> r[k] == x
  {
    if n == 0 then [] else Repeat(x, n - 1) + [x]
  }

  /** The control points of one row, cell `j` built from cell `j` of each channel. */
  function Points(norm: seq<Coord>, dist: seq<real>, offn: seq<Coord>, offs: seq<real>, alph: seq<real>)
    : (r: seq<DispPoint>)
    requires |dist| == |norm| && |offn| == |norm| && |offs| == |norm| && |alph| == |norm|
    ensures |r| == |norm|
    ensures forall j :: 0 <= j < |r| ==>
      r[j] == DispPoint(Vector(norm[j], dist[j]), Vector(offn[j], offs[j]), alph[j])
  {
    if norm == [] then []
    else
      var first := DispPoint(Vector(norm[0], dist[0]), Vector(offn[0], offs[0]), alph[0]);
      [first] + Points(norm[1..], dist[1..], offn[1..], offs[1..], alph[1..])
  }

  /** Row `i` of control points, cell `j` built from cell `j` of each channel's row. */
  function RowCells(env: Env, info: Node, size: nat, i: nat): (r: seq<DispPoint>)
    ensures |r| == size
  {
    var norm := CoordRow(env, info, "normals", size, i);
    var dist := DecimalRow(env, info, "distances", size, i);
    var offn := CoordRow(env, info, "offset_normals", size, i);
    var offs := DecimalRow(env, info, "offsets", size, i);
    var alph := DecimalRow(env, info, "alphas", size, i);
    Points(norm, dist, offn, offs, alph)
  }

  /** The control point at row `i`, column `j`. */
  function Cell(env: Env, info: Node, size: nat, i: nat, j: nat): DispPoint
    requires j < size
  {
    RowCells(env, info, size, i)[j]
  }

  /** The whole grid: `size` rows of `size` cells. */
  function Grid(env: Env, info: Node): (g: seq<seq<DispPoint>>)
    ensures |g| == GridSize(env, info)
    ensures forall i :: 0 <= i < |g| ==> g[i] == RowCells(env, info, GridSize(env, info), i)
  {
    Rows(env, info, GridSize(env, info), GridSize(env, info))
  }

  /** The first `n` rows of the grid. */
  function Rows(env: Env, info: Node, size: nat, n: nat): (g: seq<seq<DispPoint>>)
    ensures |g| == n
    ensures forall i :: 0 <= i < n ==> g[i] == RowCells(env, info, size, i)
  {
    if n == 0 then [] else Rows(env, info, size, n - 1) + [RowCells(env, info, size, n - 1)]
  }

  /** The face `ReadDisplacement` returns. */
  function DisplacementFace(env: Env, id: int, info: Node): Face
  {
    NewFace(id).(disp := Some(Header(env, info).(points := Grid(env, info))))
  }

  /** The scalar header of the displacement: power, start position, elevation, subdivision flag. */
  function Header(env: Env, info: Node): DispInfo
  {
    DispInfo(PowerOf(info), env.readCoord(Get(info, "startposition")),
             env.readDecimal(Get(info, "elevation")), PropertyInteger(info, "subdiv", 0) > 0, [])
  }

  /** The two nested loops of `ReadDisplacement`: every cell of a fresh grid decoded. */
  method FillGrid(env: Env, info: Node, size: nat) returns (grid: array2<DispPoint>)
    ensures fresh(grid) && grid.Length0 == size && grid.Length1 == size
    ensures forall a, b :: 0 <= a < size && 0 <= b < size ==> grid[a, b] == Cell(env, info, size, a, b)
  {
    grid := new DispPoint[size, size];
    for i := 0 to size
      invariant forall a, b :: 0 <= a < i && 0 <= b < size ==> grid[a, b] == Cell(env, info, size, a, b)
    {
      FillRow(grid, i, RowCells(env, info, size, i));
    }
  }

  /** The inner loop: row `i` of the grid set to `row` cell by cell, every other row untouched. */
  method FillRow(grid: array2<DispPoint>, i: nat, row: seq<DispPoint>)
    requires i < grid.Length0 && |row| == grid.Length1
    modifies grid
    ensures forall b :: 0 <= b < grid.Length1 ==> grid[i, b] == row[b]
    ensures forall a, b :: 0 <= a < grid.Length0 && a != i && 0 <= b < grid.Length1 ==> grid[a, b] == old(grid[a, b])
  {
    for j := 0 to grid.Length1
      invariant forall b :: 0 <= b < j ==> grid[i, b] == row[b]
      invariant forall a, b :: 0 <= a < grid.Length0 && a != i && 0 <= b < grid.Length1 ==> grid[a, b] == old(grid[a, b])
    {
      grid[i, j] := row[j];
    }
  }

  /**
   * `ReadDisplacement`: a displacement face with the given ID whose grid is
   * completely filled, every cell decoded from its row of each channel.
   */
  method ReadDisplacement(env: Env, id: int, info: Node) returns (face: Face)
    ensures face == DisplacementFace(env, id, info)
  {
    var size := GridSize(env, info);
    var grid := FillGrid(env, info, size);
    var points := seq(size, a requires 0 <= a < size reads grid =>
                        seq(size, b requires 0 <= b < size reads grid => grid[a, b]));
    CellsMakeGrid(env, info, points);
    face := NewFace(id).(disp := Some(Header(env, info).(points := points)));
  }

  /** A square of the right size holding every decoded cell is the grid. */
  lemma CellsMakeGrid(env: Env, info: Node, points: seq<seq<DispPoint>>)
    requires |points| == GridSize(env, info)
    requires forall a :: 0 <= a < |points| ==> |points[a]| == GridSize(env, info)
    requires forall a, b :: 0 <= a < |points| && 0 <= b < GridSize(env, info) ==>
               points[a][b] == Cell(env, info, GridSize(env, info), a, b)
    ensures points == Grid(env, info)
  {
    var g := Grid(env, info);
    forall a | 0 <= a < |points| ensures points[a] == g[a] {
      assert |points[a]| == |g[a]|;
    }
  }

  /** The displacement face: a new face with the header and a full square grid of decoded cells. */
  lemma DisplacementFaceShape(env: Env, id: int, info: Node)
    ensures var face := DisplacementFace(env, id, info);
      && face == NewFace(id).(disp := face.disp)
      && face.disp.Some? && face.disp.value.(points := []) == Header(env, info)
      && |face.disp.value.points| == GridSize(env, info)
      && (forall i :: 0 <= i < GridSize(env, info) ==> |face.disp.value.points[i]| == GridSize(env, info))
      && forall i, j :: 0 <= i < GridSize(env, info) && 0 <= j < GridSize(env, info) ==>
           face.disp.value.points[i][j] == Cell(env, info, GridSize(env, info), i, j)
  {
  }

  /** A channel block that is absent gives the zero value in every cell, not a failure. */
  lemma {:induction false} AbsentChannelsReadZero(env: Env, info: Node, i: nat, j: nat)
    requires j < GridSize(env, info)
    ensures var p := Cell(env, info, GridSize(env, info), i, j);
      && (FirstChild(info, "normals").None? ==> p.displacement.normal == Origin)
      && (FirstChild(info, "distances").None? ==> p.displacement.distance == 0.0)
      && (FirstChild(info, "offset_normals").None? ==> p.offsetDisplacement.normal == Origin)
      && (FirstChild(info, "offsets").None? ==> p.offsetDisplacement.distance == 0.0)
      && (FirstChild(info, "alphas").None? ==> p.alpha == 0.0)
  {
  }
}
