/** The already-parsed GeoJSON tree that the plotter walks (RFC 7946: FeatureCollection in
    section 3.3, Feature in section 3.2, the geometry kinds in section 3.1), reduced to the
    parts the plotter reads, and the conditions under which walking it does not panic. */
module Geo {

  datatype Option<+T> = None | Some(value: T)

  /** A position: x (longitude-like), y (latitude-like), then any further components. */
  type Position = seq<real>

  /** The geometry kinds. `Other` stands for the catch-all arm of the traversal's match:
      a kind that is acknowledged and not drawn. */
  datatype Geometry =
    | Point(coordinates: Position)
    | MultiPoint(points: seq<Position>)
    | LineString(line: seq<Position>)
    | MultiLineString(lines: seq<seq<Position>>)
    | Polygon(rings: seq<seq<Position>>)
    | MultiPolygon(polygons: seq<seq<seq<Position>>>)
    | GeometryCollection(geometries: seq<Geometry>)
    | Other

  /** A feature; its properties, id and bounding box are never read and are not modelled. */
  datatype Feature = Feature(geometry: Option<Geometry>)

  /** A whole document: a feature collection, a single feature, or a bare geometry. */
  datatype GeoJson =
    | FeatureCollection(features: seq<Feature>)
    | SingleFeature(feature: Feature)
    | BareGeometry(geometry: Geometry)

  /** Reading `coord[0]` and `coord[1]` does not panic. */
  predicate HasXY(p: Position) {
    |p| >= 2
  }

  predicate AllHaveXY(ps: seq<Position>) {
    forall i :: 0 <= i < |ps| ==> HasXY(ps[i])
  }

  /** Drawing a polygon reads its first ring (`coordinates[0]`) and every position in it;
      the later rings (holes) are never read. */
  predicate DrawablePolygon(rings: seq<seq<Position>>) {
    |rings| >= 1 && AllHaveXY(rings[0])
  }

  /** Walking `g` never indexes out of bounds. */
  predicate Drawable(g: Geometry)
    decreases g
  {
    match g
    case Point(p) => HasXY(p)
    case MultiPoint(ps) => AllHaveXY(ps)
    case LineString(line) => AllHaveXY(line)
    case MultiLineString(lines) => forall i :: 0 <= i < |lines| ==> AllHaveXY(lines[i])
    case Polygon(rings) => DrawablePolygon(rings)
    case MultiPolygon(polygons) => forall i :: 0 <= i < |polygons| ==> DrawablePolygon(polygons[i])
    case GeometryCollection(gs) => forall i :: 0 <= i < |gs| ==> Drawable(gs[i])
    case Other => true
  }

  predicate DrawableFeature(f: Feature) {
    f.geometry.Some? ==> Drawable(f.geometry.value)
  }

  predicate DrawableDocument(gj: GeoJson) {
    match gj
    case FeatureCollection(fs) => forall i :: 0 <= i < |fs| ==> DrawableFeature(fs[i])
    case SingleFeature(f) => DrawableFeature(f)
    case BareGeometry(g) => Drawable(g)
  }
}
