/** The imperative plotter: one drawing area that each draw call paints onto, and the
    recursive walk that issues the draw calls. */
module Plot {
  import opened Geo
  import opened Pixels
  import opened Commands
  import opened Properties

  /** The drawing area. It is only ever added to: every draw call appends one shape. */
  class Canvas {
    /** Every shape painted so far, oldest first. */
    var shapes: seq<DrawCmd>

    constructor ()
      ensures shapes == []
    {
      shapes := [];
    }

    /** Paints the first ring of a polygon as a filled shape; the other rings are not read. */
    method DrawPolygon(rings: seq<seq<Position>>)
      requires DrawablePolygon(rings)
      modifies this
      ensures shapes == old(shapes) + [PolygonCmd(rings)]
    {
      var polygon := Vertices(rings[0]);
      shapes := shapes + [FilledPolygon(polygon, TranslucentGreenFill)];
    }

    /** Paints a dot of radius 5 at a point. */
    method DrawPoint(coordinates: Position)
      requires HasXY(coordinates)
      modifies this
      ensures shapes == old(shapes) + [PointCmd(coordinates)]
    {
      var center := Pixel(Trunc(coordinates[0] * Scale + OffsetX), Trunc(coordinates[1] * Scale + OffsetY));
      shapes := shapes + [Circle(center, PointRadius, YellowFill)];
    }

    /** Strokes an open path through the positions of a line string. */
    method DrawLineString(coordinates: seq<Position>)
      requires AllHaveXY(coordinates)
      modifies this
      ensures shapes == old(shapes) + [LineCmd(coordinates)]
    {
      var linestring := Vertices(coordinates);
      shapes := shapes + [Path(linestring, BlueStroke)];
    }

    /** Dispatches a geometry on its kind; collections are walked depth first. */
    method MatchGeometry(geom: Geometry)
      requires Drawable(geom)
      modifies this
      ensures shapes == old(shapes) + GeometryCmds(geom)
      decreases geom, 1
    {
      match geom
      case Polygon(coordinates) => DrawPolygon(coordinates);
      case MultiPolygon(coordinates) => DrawPolygons(coordinates);
      case GeometryCollection(gc) => MatchGeometries(gc);
      case Point(coordinates) => DrawPoint(coordinates);
      case MultiPoint(coordinates) => DrawPoints(coordinates);
      case LineString(coordinates) => DrawLineString(coordinates);
      case MultiLineString(coordinates) => DrawLineStrings(coordinates);
      case Other =>
    }

    /** The loop over the members of a multi-polygon. */
    method DrawPolygons(coordinates: seq<seq<seq<Position>>>)
      requires forall i :: 0 <= i < |coordinates| ==> DrawablePolygon(coordinates[i])
      modifies this
      ensures shapes == old(shapes) + PolygonCmds(coordinates)
    {
      for i := 0 to |coordinates|
        invariant shapes == old(shapes) + PolygonCmds(coordinates[..i])
      {
        PolygonCmdsStep(coordinates, i);
        DrawPolygon(coordinates[i]);
      }
      assert coordinates[..|coordinates|] == coordinates;
    }

    /** The loop over the children of a geometry collection, each drawn in full before the next. */
    method MatchGeometries(gc: seq<Geometry>)
      requires forall i :: 0 <= i < |gc| ==> Drawable(gc[i])
      modifies this
      ensures shapes == old(shapes) + CollectionCmds(gc)
      decreases gc, 0
    {
      for i := 0 to |gc|
        invariant shapes == old(shapes) + CollectionCmds(gc[..i])
      {
        CollectionCmdsStep(gc, i);
        MatchGeometry(gc[i]);
      }
      assert gc[..|gc|] == gc;
    }

    /** The loop over the positions of a multi-point. */
    method DrawPoints(coordinates: seq<Position>)
      requires AllHaveXY(coordinates)
      modifies this
      ensures shapes == old(shapes) + PointCmds(coordinates)
    {
      for i := 0 to |coordinates|
        invariant shapes == old(shapes) + PointCmds(coordinates[..i])
      {
        PointCmdsStep(coordinates, i);
        DrawPoint(coordinates[i]);
      }
      assert coordinates[..|coordinates|] == coordinates;
    }

    /** The loop over the lines of a multi-line string. */
    method DrawLineStrings(coordinates: seq<seq<Position>>)
      requires forall i :: 0 <= i < |coordinates| ==> AllHaveXY(coordinates[i])
      modifies this
      ensures shapes == old(shapes) + LineCmds(coordinates)
    {
      for i := 0 to |coordinates|
        invariant shapes == old(shapes) + LineCmds(coordinates[..i])
      {
        LineCmdsStep(coordinates, i);
        DrawLineString(coordinates[i]);
      }
      assert coordinates[..|coordinates|] == coordinates;
    }

    /** Walks a whole document: every feature of a collection in order, the geometry of a
        single feature, or a bare geometry. Features without a geometry are skipped. */
    method ProcessGeoJson(gj: GeoJson)
      requires DrawableDocument(gj)
      modifies this
      ensures shapes == old(shapes) + Cmds(gj)
    {
      match gj
      case FeatureCollection(features) =>
        DrawFeatures(features);
      case SingleFeature(feature) =>
        if feature.geometry.Some? {
          MatchGeometry(feature.geometry.value);
        }
      case BareGeometry(geometry) =>
        MatchGeometry(geometry);
    }

    /** The loop over the features of a collection; a feature without a geometry is skipped. */
    method DrawFeatures(features: seq<Feature>)
      requires forall i :: 0 <= i < |features| ==> DrawableFeature(features[i])
      modifies this
      ensures shapes == old(shapes) + FeaturesCmds(features)
    {
      for i := 0 to |features|
        invariant shapes == old(shapes) + FeaturesCmds(features[..i])
      {
        FeaturesCmdsStep(features, i);
        if features[i].geometry.Some? {
          MatchGeometry(features[i].geometry.value);
        }
      }
      assert features[..|features|] == features;
    }
  }

  /** The plotter's run on an already-parsed document: a fresh canvas, then the walk. */
  method Render(gj: GeoJson) returns (root: Canvas)
    requires DrawableDocument(gj)
    ensures fresh(root)
    ensures root.shapes == Cmds(gj)
  {
    root := new Canvas();
    root.ProcessGeoJson(gj);
  }
}
