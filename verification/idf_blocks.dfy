/**
 * The pieces both IDF generators are built from: the surface geometry of the
 * rectangular zone, the surface objects, and the concrete and clear-glass
 * layers both catalogs list.
 *
 * Coordinates are in the editor's frame: `y` is the vertical axis, the zone
 * spans `x` in [-width/2, width/2] and `z` in [-length/2, length/2], the floor
 * lies at `y = 0` and the ceiling at `y = height`. North is `-z`, South `+z`,
 * East `+x` and West `-x`.
 */
module IdfBlocks {
  import opened Wrappers
  import opened ModelTypes
  import opened Idf

  datatype Orientation = North | South | East | West

  /** The order in which the wall and window pairs are emitted. */
  const Orientations: seq<Orientation> := [North, South, East, West]

  function OrientationName(o: Orientation): string {
    match o
    case North => "North"
    case South => "South"
    case East => "East"
    case West => "West"
  }

  function WallName(o: Orientation): string {
    "Wall " + OrientationName(o)
  }

  function WindowName(o: Orientation): string {
    "Window " + OrientationName(o)
  }

  /** Distinct orientations give distinct wall and window names, and no wall is named like a window. */
  lemma SurfaceNamesDistinct(o1: Orientation, o2: Orientation)
    ensures WallName(o1) == WallName(o2) <==> o1 == o2
    ensures WindowName(o1) == WindowName(o2) <==> o1 == o2
    ensures WallName(o1) != WindowName(o2)
  {
    assert WallName(o1)[0] == 'W' && WallName(o1)[1] == 'a';
    assert WindowName(o2)[1] == 'i';
    if o1 != o2 {
      assert WallName(o1)[5..] == OrientationName(o1);
      assert WallName(o2)[5..] == OrientationName(o2);
      assert WindowName(o1)[7..] == OrientationName(o1);
      assert WindowName(o2)[7..] == OrientationName(o2);
    }
  }

  // ---------------------------------------------------------------------------
  // Geometry

  datatype Axis = X | Y | Z

  function Coord(v: Vertex, a: Axis): real {
    match a
    case X => v.x
    case Y => v.y
    case Z => v.z
  }

  /** Every vertex of `vs` has coordinate `c` on axis `a`. */
  predicate OnPlane(vs: seq<Vertex>, a: Axis, c: real) {
    forall k :: 0 <= k < |vs| ==> Coord(vs[k], a) == c
  }

  /** The heights of the four vertices, in order. */
  function Heights(vs: seq<Vertex>): seq<real> {
    seq(|vs|, k requires 0 <= k < |vs| => vs[k].y)
  }

  /** The axis a wall of orientation `o` is perpendicular to. */
  function NormalAxis(o: Orientation): Axis {
    if o == North || o == South then Z else X
  }

  /** The horizontal axis that runs along a wall of orientation `o`. */
  function AlongAxis(o: Orientation): Axis {
    if o == North || o == South then X else Z
  }

  /** +1 when the outside of the wall lies towards the positive end of its normal axis. */
  function OutwardSign(o: Orientation): real {
    if o == South || o == East then 1.0 else -1.0
  }

  /** Half the zone's extent along the normal of wall `o`. */
  function HalfDepth(d: Dimensions, o: Orientation): real {
    if NormalAxis(o) == Z then d.length / 2.0 else d.width / 2.0
  }

  /** The zone's extent along wall `o`: width for North and South, length for East and West. */
  function WallSpan(d: Dimensions, o: Orientation): real {
    if AlongAxis(o) == X then d.width else d.length
  }

  /** The wall's plane: North `z = -length/2`, South `z = length/2`, East `x = width/2`, West `x = -width/2`. */
  function WallOffset(d: Dimensions, o: Orientation): (c: real)
    ensures o == North ==> c == -d.length / 2.0
    ensures o == South ==> c == d.length / 2.0
    ensures o == East ==> c == d.width / 2.0
    ensures o == West ==> c == -d.width / 2.0
  {
    OutwardSign(o) * HalfDepth(d, o)
  }

  /** How far inside its wall a window is drawn. */
  const WindowInset: real := 0.01

  /** The window's plane: its wall's plane moved `WindowInset` towards the zone's centre. */
  function WindowOffset(d: Dimensions, o: Orientation): real {
    match o
    case North => -d.length / 2.0 + WindowInset
    case South => d.length / 2.0 - WindowInset
    case East => d.width / 2.0 - WindowInset
    case West => -d.width / 2.0 + WindowInset
  }

  /** Half the width of the fixed window. */
  const WindowHalfWidth: real := 0.75
  /** Bottom and top edge of the fixed window. */
  const WindowBottom: real := 1.0
  const WindowTop: real := 2.1

  function FloorVertices(d: Dimensions): seq<Vertex> {
    [ Vertex(-d.width / 2.0, 0.0, -d.length / 2.0),
      Vertex(-d.width / 2.0, 0.0, d.length / 2.0),
      Vertex(d.width / 2.0, 0.0, d.length / 2.0),
      Vertex(d.width / 2.0, 0.0, -d.length / 2.0) ]
  }

  function CeilingVertices(d: Dimensions): seq<Vertex> {
    [ Vertex(d.width / 2.0, d.height, -d.length / 2.0),
      Vertex(d.width / 2.0, d.height, d.length / 2.0),
      Vertex(-d.width / 2.0, d.height, d.length / 2.0),
      Vertex(-d.width / 2.0, d.height, -d.length / 2.0) ]
  }

  function WallVertices(d: Dimensions, o: Orientation): seq<Vertex> {
    var w := d.width / 2.0;
    var l := d.length / 2.0;
    var h := d.height;
    match o
    case North => [Vertex(-w, h, -l), Vertex(-w, 0.0, -l), Vertex(w, 0.0, -l), Vertex(w, h, -l)]
    case South => [Vertex(w, h, l), Vertex(w, 0.0, l), Vertex(-w, 0.0, l), Vertex(-w, h, l)]
    case East => [Vertex(w, h, -l), Vertex(w, 0.0, -l), Vertex(w, 0.0, l), Vertex(w, h, l)]
    case West => [Vertex(-w, h, l), Vertex(-w, 0.0, l), Vertex(-w, 0.0, -l), Vertex(-w, h, -l)]
  }

  function WindowVertices(d: Dimensions, o: Orientation): seq<Vertex> {
    var a := 0.75;
    var top := 1.0 + 1.1;
    var c := WindowOffset(d, o);
    match o
    case North => [Vertex(-a, top, c), Vertex(-a, 1.0, c), Vertex(a, 1.0, c), Vertex(a, top, c)]
    case South => [Vertex(a, top, c), Vertex(a, 1.0, c), Vertex(-a, 1.0, c), Vertex(-a, top, c)]
    case East => [Vertex(c, top, a), Vertex(c, 1.0, a), Vertex(c, 1.0, -a), Vertex(c, top, -a)]
    case West => [Vertex(c, top, -a), Vertex(c, 1.0, -a), Vertex(c, 1.0, a), Vertex(c, top, a)]
  }

  /** `vs` has exactly the four corners `(±a, ±b)` on the horizontal axes `p` and `q`, each once. */
  predicate FourCorners(vs: seq<Vertex>, p: Axis, q: Axis, a: real, b: real) {
    |vs| == 4
    && (forall k :: 0 <= k < 4 ==>
          (Coord(vs[k], p) == a || Coord(vs[k], p) == -a) && (Coord(vs[k], q) == b || Coord(vs[k], q) == -b))
    && (forall k, j :: 0 <= k < j < 4 ==>
          Coord(vs[k], p) != Coord(vs[j], p) || Coord(vs[k], q) != Coord(vs[j], q))
  }

  /** The floor is the rectangle `(±width/2, ±length/2)` at height 0; the ceiling the same rectangle at `height`. */
  lemma FloorAndCeilingGeometry(d: Dimensions)
    requires d.width > 0.0 && d.length > 0.0
    ensures OnPlane(FloorVertices(d), Y, 0.0)
    ensures FourCorners(FloorVertices(d), X, Z, d.width / 2.0, d.length / 2.0)
    ensures OnPlane(CeilingVertices(d), Y, d.height)
    ensures FourCorners(CeilingVertices(d), X, Z, d.width / 2.0, d.length / 2.0)
  {
  }

  /**
   * Every wall lies in its plane, spans the zone's full extent along it, and
   * lists its vertices top, bottom, bottom, top, so that the first vertex is an
   * upper corner.
   */
  lemma WallGeometry(d: Dimensions, o: Orientation)
    requires d.width > 0.0 && d.length > 0.0
    ensures |WallVertices(d, o)| == 4
    ensures OnPlane(WallVertices(d, o), NormalAxis(o), WallOffset(d, o))
    ensures Heights(WallVertices(d, o)) == [d.height, 0.0, 0.0, d.height]
    ensures forall k :: 0 <= k < 4 ==>
              Coord(WallVertices(d, o)[k], AlongAxis(o)) == WallSpan(d, o) / 2.0
              || Coord(WallVertices(d, o)[k], AlongAxis(o)) == -WallSpan(d, o) / 2.0
    ensures Coord(WallVertices(d, o)[0], AlongAxis(o)) == Coord(WallVertices(d, o)[1], AlongAxis(o))
    ensures Coord(WallVertices(d, o)[2], AlongAxis(o)) == Coord(WallVertices(d, o)[3], AlongAxis(o))
    ensures Coord(WallVertices(d, o)[1], AlongAxis(o)) == -Coord(WallVertices(d, o)[2], AlongAxis(o))
  {
  }

  /**
   * Every window is the fixed 1.5 m by 1.1 m rectangle centred on its wall,
   * from height 1 to 2.1, on a plane 0.01 inside the wall's plane, whatever
   * the zone's dimensions.
   */
  lemma WindowGeometry(d: Dimensions, o: Orientation)
    ensures |WindowVertices(d, o)| == 4
    ensures OnPlane(WindowVertices(d, o), NormalAxis(o), WindowOffset(d, o))
    ensures WindowOffset(d, o) == WallOffset(d, o) - OutwardSign(o) * WindowInset
    ensures Heights(WindowVertices(d, o)) == [WindowTop, WindowBottom, WindowBottom, WindowTop]
    ensures forall k :: 0 <= k < 4 ==>
              Coord(WindowVertices(d, o)[k], AlongAxis(o)) == WindowHalfWidth
              || Coord(WindowVertices(d, o)[k], AlongAxis(o)) == -WindowHalfWidth
    ensures Coord(WindowVertices(d, o)[1], AlongAxis(o)) == -Coord(WindowVertices(d, o)[2], AlongAxis(o))
  {
  }

  /**
   * The window lies inside the outline of its wall exactly when the wall is at
   * least 1.5 m wide and the zone at least 2.1 m high.
   */
  lemma WindowWithinWall(d: Dimensions, o: Orientation)
    requires d.width > 0.0 && d.length > 0.0
    ensures (forall k :: 0 <= k < 4 ==>
               -WallSpan(d, o) / 2.0 <= Coord(WindowVertices(d, o)[k], AlongAxis(o)) <= WallSpan(d, o) / 2.0
               && 0.0 <= WindowVertices(d, o)[k].y <= d.height)
            <==> WallSpan(d, o) >= 2.0 * WindowHalfWidth && d.height >= WindowTop
  {
    var vs := WindowVertices(d, o);
    if WallSpan(d, o) < 2.0 * WindowHalfWidth {
      assert Coord(vs[1], AlongAxis(o)) == WindowHalfWidth || Coord(vs[2], AlongAxis(o)) == WindowHalfWidth;
    }
    if d.height < WindowTop {
      assert vs[0].y == WindowTop;
    }
  }

  // ---------------------------------------------------------------------------
  // Objects both generators emit

  function FloorSurface(d: Dimensions, construction: string, zone: string): IdfObject {
    Surface("Floor", "Floor", construction, zone, "Ground", "NoSun", "NoWind", FloorVertices(d))
  }

  function CeilingSurface(d: Dimensions, construction: string, zone: string): IdfObject {
    Surface("Ceiling", "Ceiling", construction, zone, "Outdoors", "SunExposed", "WindExposed", CeilingVertices(d))
  }

  function WallSurface(d: Dimensions, o: Orientation, construction: string, zone: string): IdfObject {
    Surface(WallName(o), "Wall", construction, zone, "Outdoors", "SunExposed", "WindExposed", WallVertices(d, o))
  }

  /** A window always sits in the wall of the same orientation. */
  function WindowSurface(d: Dimensions, o: Orientation, construction: string): IdfObject {
    Fenestration(WindowName(o), construction, WallName(o), WindowVertices(d, o))
  }

  const ConcreteMaterial: IdfObject := Material("Concrete", "MediumRough", "0.10", "1.7", "2300", "920")

  const Clear3mmGlazing: IdfObject :=
    Glazing("Clear 3mm", "0.003", "0.837", "0.075", "0.075", "0.898", "0.081", "0.081", "0.84")

  /** The comment block both generated texts open with. */
  const Banner: string :=
    "\n!---------------------------------------------------------\n"
    + "! Tropos3D - Arquivo IDF para EnergyPlus\n"
    + "! Gerado automaticamente\n"
    + "!---------------------------------------------------------\n\n"

  const SurfacesComment: string := "! SUPERFÍCIES\n\n"
  const CatalogComment: string := "! CONSTRUÇÕES E MATERIAIS\n\n"
}
