/** What the walk over a document draws, stated against reference definitions: the
    depth-first list of leaf geometries, the multi-geometries as collections of their members,
    a feature collection as the collection of its present geometries, and the number of
    shapes of each kind. */
module Traversal {
  import opened Geo
  import opened Pixels
  import opened Commands
  import opened Properties

  // ---------------------------------------------------------------------------
  // Depth-first, order-preserving flattening.

  /** The geometries that are not collections, in depth-first, left-to-right order. */
  function Leaves(g: Geometry): (ls: seq<Geometry>)
    ensures forall i :: 0 <= i < |ls| ==> !ls[i].GeometryCollection?
    decreases g, 1
  {
    match g
    case GeometryCollection(gs) => CollectionLeaves(gs)
    case _ => [g]
  }

  function CollectionLeaves(gs: seq<Geometry>): (ls: seq<Geometry>)
    ensures forall i :: 0 <= i < |ls| ==> !ls[i].GeometryCollection?
    decreases gs, 0
  {
    if gs == [] then [] else Leaves(gs[0]) + CollectionLeaves(gs[1..])
  }

  predicate AllDrawable(gs: seq<Geometry>) {
    forall i :: 0 <= i < |gs| ==> Drawable(gs[i])
  }

  /** Walking a geometry draws its leaves one after the other, each in full, in
      depth-first order: a nested collection is expanded before its next sibling. */
  lemma {:induction false} DrawsLeafByLeaf(g: Geometry)
    requires Drawable(g)
    ensures AllDrawable(Leaves(g))
    ensures GeometryCmds(g) == CollectionCmds(Leaves(g))
    decreases g, 1
  {
    match g
    case GeometryCollection(gs) =>
      CollectionDrawsLeafByLeaf(gs);
    case _ =>
      CollectionCmdsSingleton(g);
  }

  lemma {:induction false} CollectionDrawsLeafByLeaf(gs: seq<Geometry>)
    requires AllDrawable(gs)
    ensures AllDrawable(CollectionLeaves(gs))
    ensures CollectionCmds(gs) == CollectionCmds(CollectionLeaves(gs))
    decreases gs, 0
  {
    if gs != [] {
      DrawsLeafByLeaf(gs[0]);
      CollectionDrawsLeafByLeaf(gs[1..]);
      CollectionCmdsAppend(Leaves(gs[0]), CollectionLeaves(gs[1..]));
    }
  }

  /** Two collections that flatten to the same leaves draw the same thing. */
  lemma NestingIsInvisible(gs: seq<Geometry>, hs: seq<Geometry>)
    requires AllDrawable(gs) && AllDrawable(hs)
    requires CollectionLeaves(gs) == CollectionLeaves(hs)
    ensures CollectionCmds(gs) == CollectionCmds(hs)
  {
    CollectionDrawsLeafByLeaf(gs);
    CollectionDrawsLeafByLeaf(hs);
  }

  /** Nothing of the `Other` kind is drawn. */
  lemma OtherDrawsNothing()
    ensures GeometryCmds(Other) == []
  {
  }

  // ---------------------------------------------------------------------------
  // Multi-geometries draw like collections of their members.

  function AsPoints(ps: seq<Position>): (gs: seq<Geometry>)
    ensures |gs| == |ps|
    ensures forall i :: 0 <= i < |ps| ==> gs[i] == Point(ps[i])
  {
    if ps == [] then [] else [Point(ps[0])] + AsPoints(ps[1..])
  }

  function AsLineStrings(lines: seq<seq<Position>>): (gs: seq<Geometry>)
    ensures |gs| == |lines|
    ensures forall i :: 0 <= i < |lines| ==> gs[i] == LineString(lines[i])
  {
    if lines == [] then [] else [LineString(lines[0])] + AsLineStrings(lines[1..])
  }

  function AsPolygons(polygons: seq<seq<seq<Position>>>): (gs: seq<Geometry>)
    ensures |gs| == |polygons|
    ensures forall i :: 0 <= i < |polygons| ==> gs[i] == Polygon(polygons[i])
  {
    if polygons == [] then [] else [Polygon(polygons[0])] + AsPolygons(polygons[1..])
  }

  /** A multi-point draws what the collection of its points would draw. */
  lemma {:induction false} MultiPointIsPoints(ps: seq<Position>)
    requires AllHaveXY(ps)
    ensures AllDrawable(AsPoints(ps))
    ensures GeometryCmds(MultiPoint(ps)) == GeometryCmds(GeometryCollection(AsPoints(ps)))
  {
    if ps != [] {
      MultiPointIsPoints(ps[1..]);
      var gs := AsPoints(ps);
      assert gs[1..] == AsPoints(ps[1..]);
      assert CollectionCmds(gs) == GeometryCmds(Point(ps[0])) + CollectionCmds(AsPoints(ps[1..]));
    }
  }

  /** A multi-line string draws what the collection of its line strings would draw. */
  lemma {:induction false} MultiLineStringIsLineStrings(lines: seq<seq<Position>>)
    requires forall i :: 0 <= i < |lines| ==> AllHaveXY(lines[i])
    ensures AllDrawable(AsLineStrings(lines))
    ensures GeometryCmds(MultiLineString(lines)) == GeometryCmds(GeometryCollection(AsLineStrings(lines)))
  {
    if lines != [] {
      MultiLineStringIsLineStrings(lines[1..]);
      var gs := AsLineStrings(lines);
      assert gs[1..] == AsLineStrings(lines[1..]);
      assert CollectionCmds(gs) == GeometryCmds(LineString(lines[0])) + CollectionCmds(AsLineStrings(lines[1..]));
    }
  }

  /** A multi-polygon draws what the collection of its polygons would draw. */
  lemma {:induction false} MultiPolygonIsPolygons(polygons: seq<seq<seq<Position>>>)
    requires forall i :: 0 <= i < |polygons| ==> DrawablePolygon(polygons[i])
    ensures AllDrawable(AsPolygons(polygons))
    ensures GeometryCmds(MultiPolygon(polygons)) == GeometryCmds(GeometryCollection(AsPolygons(polygons)))
  {
    if polygons != [] {
      MultiPolygonIsPolygons(polygons[1..]);
      var gs := AsPolygons(polygons);
      assert gs[1..] == AsPolygons(polygons[1..]);
      assert CollectionCmds(gs) == GeometryCmds(Polygon(polygons[0])) + CollectionCmds(AsPolygons(polygons[1..]));
    }
  }

  // ---------------------------------------------------------------------------
  // Each kind of geometry on its own.

  /** A polygon is one filled shape through the transformed positions of its first ring. */
  lemma PolygonDrawsFirstRing(rings: seq<seq<Position>>)
    requires DrawablePolygon(rings)
    ensures |GeometryCmds(Polygon(rings))| == 1
    ensures GeometryCmds(Polygon(rings))[0].FilledPolygon?
    ensures GeometryCmds(Polygon(rings))[0].vertices == Vertices(rings[0])
  {
  }

  /** The holes of a polygon do not change what is drawn. */
  lemma HolesIgnored(outer: seq<Position>, holes: seq<seq<Position>>)
    requires AllHaveXY(outer)
    ensures GeometryCmds(Polygon([outer] + holes)) == GeometryCmds(Polygon([outer]))
  {
    assert ([outer] + holes)[0] == outer;
  }

  /** The i-th shape of a multi-polygon is what its i-th polygon alone draws. */
  lemma MultiPolygonMembers(polygons: seq<seq<seq<Position>>>, i: nat)
    requires forall k :: 0 <= k < |polygons| ==> DrawablePolygon(polygons[k])
    requires i < |polygons|
    ensures |GeometryCmds(MultiPolygon(polygons))| == |polygons|
    ensures [GeometryCmds(MultiPolygon(polygons))[i]] == GeometryCmds(Polygon(polygons[i]))
  {
  }

  /** A multi-point draws one dot of radius 5 per position, in order. */
  lemma MultiPointCircles(ps: seq<Position>)
    requires AllHaveXY(ps)
    ensures |GeometryCmds(MultiPoint(ps))| == |ps|
    ensures forall i :: 0 <= i < |ps| ==>
      GeometryCmds(MultiPoint(ps))[i] == Circle(ToPixel(ps[i]), 5, YellowFill)
  {
  }

  /** A line string is one open path through all its transformed positions, in order. */
  lemma LineStringPath(line: seq<Position>)
    requires AllHaveXY(line)
    ensures |GeometryCmds(LineString(line))| == 1
    ensures GeometryCmds(LineString(line))[0].Path?
    ensures |GeometryCmds(LineString(line))[0].vertices| == |line|
    ensures forall i :: 0 <= i < |line| ==> GeometryCmds(LineString(line))[0].vertices[i] == ToPixel(line[i])
  {
  }

  // ---------------------------------------------------------------------------
  // Features.

  /** The geometries of the features that have one, in feature order. */
  function PresentGeometries(fs: seq<Feature>): (gs: seq<Geometry>)
    ensures |gs| <= |fs|
    ensures (forall i :: 0 <= i < |fs| ==> DrawableFeature(fs[i])) ==> AllDrawable(gs)
  {
    if fs == [] then []
    else (match fs[0].geometry case None => [] case Some(g) => [g]) + PresentGeometries(fs[1..])
  }

  /** A feature collection draws what a geometry collection of its present geometries
      draws: features are drawn in order and those without a geometry add nothing. */
  lemma {:induction false} FeatureCollectionIsGeometryCollection(fs: seq<Feature>)
    requires forall i :: 0 <= i < |fs| ==> DrawableFeature(fs[i])
    ensures Cmds(FeatureCollection(fs)) == GeometryCmds(GeometryCollection(PresentGeometries(fs)))
  {
    if fs != [] {
      FeatureCollectionIsGeometryCollection(fs[1..]);
      match fs[0].geometry
      case None =>
        assert PresentGeometries(fs) == PresentGeometries(fs[1..]);
      case Some(g) =>
        CollectionCmdsSingleton(g);
        CollectionCmdsAppend([g], PresentGeometries(fs[1..]));
    }
  }

  /** Joining two feature collections joins their drawings. */
  lemma FeatureCollectionsConcatenate(a: seq<Feature>, b: seq<Feature>)
    requires forall i :: 0 <= i < |a| ==> DrawableFeature(a[i])
    requires forall i :: 0 <= i < |b| ==> DrawableFeature(b[i])
    ensures DrawableDocument(FeatureCollection(a + b))
    ensures Cmds(FeatureCollection(a + b)) == Cmds(FeatureCollection(a)) + Cmds(FeatureCollection(b))
  {
    FeaturesCmdsAppend(a, b);
  }

  /** A feature with a geometry draws exactly that geometry, one without draws nothing,
      and a single feature draws like a collection holding only it. */
  lemma SingleFeatureDraws(f: Feature)
    requires DrawableFeature(f)
    ensures f.geometry.None? ==> Cmds(SingleFeature(f)) == []
    ensures f.geometry.Some? ==> Cmds(SingleFeature(f)) == Cmds(BareGeometry(f.geometry.value))
    ensures Cmds(SingleFeature(f)) == Cmds(FeatureCollection([f]))
  {
    assert [f][1..] == [];
    assert FeaturesCmds([f]) == FeatureCmds(f) + [];
  }

  /** An empty feature collection draws nothing. */
  lemma EmptyCollectionDrawsNothing()
    ensures Cmds(FeatureCollection([])) == []
  {
  }

  // ---------------------------------------------------------------------------
  // Styles.

  /** Polygons are translucent green fills, points yellow dots of radius 5, lines blue strokes. */
  predicate WellStyled(c: DrawCmd) {
    match c
    case FilledPolygon(_, s) => s == TranslucentGreenFill
    case Circle(_, r, s) => r == PointRadius && s == YellowFill
    case Path(_, s) => s == BlueStroke
  }

  predicate AllWellStyled(cs: seq<DrawCmd>) {
    forall i :: 0 <= i < |cs| ==> WellStyled(cs[i])
  }

  /** Every shape a geometry paints carries the style of its kind. */
  lemma {:induction false} DrawsWellStyled(g: Geometry)
    requires Drawable(g)
    ensures AllWellStyled(GeometryCmds(g))
    decreases g, 1
  {
    match g
    case GeometryCollection(gs) =>
      CollectionDrawsWellStyled(gs);
    case _ =>
  }

  lemma {:induction false} CollectionDrawsWellStyled(gs: seq<Geometry>)
    requires AllDrawable(gs)
    ensures AllWellStyled(CollectionCmds(gs))
    decreases gs, 0
  {
    if gs != [] {
      DrawsWellStyled(gs[0]);
      CollectionDrawsWellStyled(gs[1..]);
      var a, b := GeometryCmds(gs[0]), CollectionCmds(gs[1..]);
      forall i | 0 <= i < |a + b| ensures WellStyled((a + b)[i]) {
        if i >= |a| { assert (a + b)[i] == b[i - |a|]; }
      }
    }
  }
}
