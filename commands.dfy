/** The draw calls the plotter issues, as a pure function of the document: the series of
    shapes appended to the canvas, in the order they are painted. */
module Commands {
  import opened Geo
  import opened Pixels

  /** The three shape styles the plotter uses, kept as tags: a translucent green fill for
      polygons, an opaque yellow fill for points and a solid blue stroke for lines. */
  datatype Style = TranslucentGreenFill | YellowFill | BlueStroke

  datatype DrawCmd =
    | FilledPolygon(vertices: seq<Pixel>, style: Style)
    | Circle(center: Pixel, radius: int, style: Style)
    | Path(vertices: seq<Pixel>, style: Style)

  /** The radius, in pixels, of the dot drawn for a point. */
  const PointRadius: int := 5

  /** The shape painted for one polygon: its first ring, transformed. */
  function PolygonCmd(rings: seq<seq<Position>>): (c: DrawCmd)
    requires DrawablePolygon(rings)
    ensures c.FilledPolygon? && c.style == TranslucentGreenFill
    ensures |c.vertices| == |rings[0]|
    ensures forall i :: 0 <= i < |rings[0]| ==> c.vertices[i] == ToPixel(rings[0][i])
  {
    FilledPolygon(Vertices(rings[0]), TranslucentGreenFill)
  }

  /** The shape painted for one point. */
  function PointCmd(p: Position): (c: DrawCmd)
    requires HasXY(p)
    ensures c.Circle? && c.style == YellowFill && c.radius == PointRadius
    ensures c.center == ToPixel(p)
  {
    Circle(ToPixel(p), PointRadius, YellowFill)
  }

  /** The shape painted for one line string: an open path through its positions. */
  function LineCmd(line: seq<Position>): (c: DrawCmd)
    requires AllHaveXY(line)
    ensures c.Path? && c.style == BlueStroke
    ensures |c.vertices| == |line|
    ensures forall i :: 0 <= i < |line| ==> c.vertices[i] == ToPixel(line[i])
  {
    Path(Vertices(line), BlueStroke)
  }

  /** One dot per position of a multi-point, in order. */
  function PointCmds(ps: seq<Position>): (cs: seq<DrawCmd>)
    requires AllHaveXY(ps)
    ensures |cs| == |ps|
    ensures forall i :: 0 <= i < |ps| ==> cs[i] == Circle(ToPixel(ps[i]), PointRadius, YellowFill)
  {
    if ps == [] then [] else [PointCmd(ps[0])] + PointCmds(ps[1..])
  }

  /** One path per line of a multi-line string, in order. */
  function LineCmds(lines: seq<seq<Position>>): (cs: seq<DrawCmd>)
    requires forall i :: 0 <= i < |lines| ==> AllHaveXY(lines[i])
    ensures |cs| == |lines|
    ensures forall i :: 0 <= i < |lines| ==> cs[i] == LineCmd(lines[i])
  {
    if lines == [] then [] else [LineCmd(lines[0])] + LineCmds(lines[1..])
  }

  /** One filled polygon per member of a multi-polygon, in order. */
  function PolygonCmds(polygons: seq<seq<seq<Position>>>): (cs: seq<DrawCmd>)
    requires forall i :: 0 <= i < |polygons| ==> DrawablePolygon(polygons[i])
    ensures |cs| == |polygons|
    ensures forall i :: 0 <= i < |polygons| ==> cs[i] == PolygonCmd(polygons[i])
  {
    if polygons == [] then [] else [PolygonCmd(polygons[0])] + PolygonCmds(polygons[1..])
  }

  /** What drawing one geometry paints: one shape for a point, a line string or a polygon, one
      per member for a multi-geometry, and nothing for a kind the plotter does not handle. */
  function GeometryCmds(g: Geometry): (cs: seq<DrawCmd>)
    requires Drawable(g)
    ensures g.Point? || g.LineString? || g.Polygon? ==> |cs| == 1
    ensures g.MultiPoint? ==> |cs| == |g.points|
    ensures g.MultiLineString? ==> |cs| == |g.lines|
    ensures g.MultiPolygon? ==> |cs| == |g.polygons|
    ensures g.Other? ==> cs == []
    decreases g
  {
    match g
    case Point(p) => [PointCmd(p)]
    case MultiPoint(ps) => PointCmds(ps)
    case LineString(line) => [LineCmd(line)]
    case MultiLineString(lines) => LineCmds(lines)
    case Polygon(rings) => [PolygonCmd(rings)]
    case MultiPolygon(polygons) => PolygonCmds(polygons)
    case GeometryCollection(gs) => CollectionCmds(gs)
    case Other => []
  }

  /** What drawing a sequence of geometries one after the other paints. */
  function CollectionCmds(gs: seq<Geometry>): (cs: seq<DrawCmd>)
    requires forall i :: 0 <= i < |gs| ==> Drawable(gs[i])
    ensures gs == [] ==> cs == []
    decreases gs
  {
    if gs == [] then [] else GeometryCmds(gs[0]) + CollectionCmds(gs[1..])
  }

  /** A feature paints its geometry, if it has one. */
  function FeatureCmds(f: Feature): (cs: seq<DrawCmd>)
    requires DrawableFeature(f)
    ensures f.geometry.None? ==> cs == []
  {
    match f.geometry
    case None => []
    case Some(g) => GeometryCmds(g)
  }

  /** What drawing a sequence of features one after the other paints. */
  function FeaturesCmds(fs: seq<Feature>): (cs: seq<DrawCmd>)
    requires forall i :: 0 <= i < |fs| ==> DrawableFeature(fs[i])
    ensures fs == [] ==> cs == []
  {
    if fs == [] then [] else FeatureCmds(fs[0]) + FeaturesCmds(fs[1..])
  }

  /** What processing a whole document paints. */
  function Cmds(gj: GeoJson): (cs: seq<DrawCmd>)
    requires DrawableDocument(gj)
    ensures gj.SingleFeature? && gj.feature.geometry.None? ==> cs == []
  {
    match gj
    case FeatureCollection(fs) => FeaturesCmds(fs)
    case SingleFeature(f) => FeatureCmds(f)
    case BareGeometry(g) => GeometryCmds(g)
  }
}
