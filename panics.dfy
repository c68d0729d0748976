/** The walk on any tree, well formed or not: where the plotter would index a position with
    fewer than two components, or a polygon without rings, it panics and stops. This shows
    that the `Drawable` preconditions are exactly the absence of that panic, and what the
    canvas holds when it happens. */
module Panics {
  import opened Geo
  import opened Commands
  import opened Properties

  /** What the walk has painted when it stops, and whether it stopped by panicking. */
  datatype Run = Run(painted: seq<DrawCmd>, panicked: bool)

  /** Runs `first`, then, unless it panicked, `rest`. */
  function Then(first: Run, rest: Run): Run {
    if first.panicked then first else Run(first.painted + rest.painted, rest.panicked)
  }

  /** Each draw call reads every position it needs before it paints, so a panic inside one
      paints nothing. */
  function RunPoint(p: Position): (r: Run)
    ensures r.panicked <==> !HasXY(p)
    ensures |r.painted| == if r.panicked then 0 else 1
  {
    if HasXY(p) then Run([PointCmd(p)], false) else Run([], true)
  }

  function RunLine(line: seq<Position>): (r: Run)
    ensures r.panicked <==> !AllHaveXY(line)
    ensures |r.painted| == if r.panicked then 0 else 1
  {
    if AllHaveXY(line) then Run([LineCmd(line)], false) else Run([], true)
  }

  function RunPolygon(rings: seq<seq<Position>>): (r: Run)
    ensures r.panicked <==> !DrawablePolygon(rings)
    ensures |r.painted| == if r.panicked then 0 else 1
  {
    if DrawablePolygon(rings) then Run([PolygonCmd(rings)], false) else Run([], true)
  }

  /** The loops over the members of a multi-geometry panic exactly when some member does;
      they paint at most one shape per member, and one for each member when none panics. */
  function RunPoints(ps: seq<Position>): (r: Run)
    ensures r.panicked <==> !AllHaveXY(ps)
    ensures |r.painted| <= |ps|
    ensures !r.panicked ==> |r.painted| == |ps|
  {
    if ps == [] then Run([], false)
    else
      assert forall i :: 0 < i < |ps| ==> ps[i] == ps[1..][i - 1];
      Then(RunPoint(ps[0]), RunPoints(ps[1..]))
  }

  function RunLines(lines: seq<seq<Position>>): (r: Run)
    ensures r.panicked <==> !(forall i :: 0 <= i < |lines| ==> AllHaveXY(lines[i]))
    ensures |r.painted| <= |lines|
    ensures !r.panicked ==> |r.painted| == |lines|
  {
    if lines == [] then Run([], false)
    else
      assert forall i :: 0 < i < |lines| ==> lines[i] == lines[1..][i - 1];
      Then(RunLine(lines[0]), RunLines(lines[1..]))
  }

  function RunPolygons(polygons: seq<seq<seq<Position>>>): (r: Run)
    ensures r.panicked <==> !(forall i :: 0 <= i < |polygons| ==> DrawablePolygon(polygons[i]))
    ensures |r.painted| <= |polygons|
    ensures !r.panicked ==> |r.painted| == |polygons|
  {
    if polygons == [] then Run([], false)
    else
      assert forall i :: 0 < i < |polygons| ==> polygons[i] == polygons[1..][i - 1];
      Then(RunPolygon(polygons[0]), RunPolygons(polygons[1..]))
  }

  /** A geometry of a kind the plotter does not handle neither paints nor panics; when the
      walk of any geometry panics is stated by `RunGeometryExact`. */
  function RunGeometry(g: Geometry): (r: Run)
    ensures g.Other? ==> r == Run([], false)
    decreases g, 1
  {
    match g
    case Point(p) => RunPoint(p)
    case MultiPoint(ps) => RunPoints(ps)
    case LineString(line) => RunLine(line)
    case MultiLineString(lines) => RunLines(lines)
    case Polygon(rings) => RunPolygon(rings)
    case MultiPolygon(polygons) => RunPolygons(polygons)
    case GeometryCollection(gs) => RunCollection(gs)
    case Other => Run([], false)
  }

  /** An empty collection neither paints nor panics, and a collection whose first child
      panics stops there. */
  function RunCollection(gs: seq<Geometry>): (r: Run)
    ensures gs == [] ==> r == Run([], false)
    ensures gs != [] && RunGeometry(gs[0]).panicked ==> r == RunGeometry(gs[0])
    decreases gs, 0
  {
    if gs == [] then Run([], false) else Then(RunGeometry(gs[0]), RunCollection(gs[1..]))
  }

  /** A feature without a geometry neither paints nor panics. */
  function RunFeature(f: Feature): (r: Run)
    ensures f.geometry.None? ==> r == Run([], false)
  {
    match f.geometry
    case None => Run([], false)
    case Some(g) => RunGeometry(g)
  }

  /** Features without a geometry are skipped: if no feature has one, nothing is painted
      and nothing panics. */
  function RunFeatures(fs: seq<Feature>): (r: Run)
    ensures (forall i :: 0 <= i < |fs| ==> fs[i].geometry.None?) ==> r == Run([], false)
  {
    if fs == [] then Run([], false)
    else
      assert forall i :: 0 < i < |fs| ==> fs[i] == fs[1..][i - 1];
      Then(RunFeature(fs[0]), RunFeatures(fs[1..]))
  }

  /** A single feature without a geometry neither paints nor panics; when processing any
      document panics is stated by `RunDocumentExact`. */
  function RunDocument(gj: GeoJson): (r: Run)
    ensures gj.SingleFeature? && gj.feature.geometry.None? ==> r == Run([], false)
  {
    match gj
    case FeatureCollection(fs) => RunFeatures(fs)
    case SingleFeature(f) => RunFeature(f)
    case BareGeometry(g) => RunGeometry(g)
  }

  // ---------------------------------------------------------------------------
  // The preconditions are exactly the absence of a panic, and without a panic the walk
  // paints what the specification says.

  lemma {:induction false} RunPointsExact(ps: seq<Position>)
    ensures RunPoints(ps).panicked <==> !AllHaveXY(ps)
    ensures AllHaveXY(ps) ==> RunPoints(ps).painted == PointCmds(ps)
  {
    if ps != [] {
      RunPointsExact(ps[1..]);
      assert AllHaveXY(ps) <==> HasXY(ps[0]) && AllHaveXY(ps[1..]) by {
        assert forall i :: 0 < i < |ps| ==> ps[i] == ps[1..][i - 1];
      }
    }
  }

  lemma {:induction false} RunLinesExact(lines: seq<seq<Position>>)
    ensures RunLines(lines).panicked <==> !(forall i :: 0 <= i < |lines| ==> AllHaveXY(lines[i]))
    ensures (forall i :: 0 <= i < |lines| ==> AllHaveXY(lines[i])) ==> RunLines(lines).painted == LineCmds(lines)
  {
    if lines != [] {
      RunLinesExact(lines[1..]);
      assert forall i :: 0 < i < |lines| ==> lines[i] == lines[1..][i - 1];
    }
  }

  lemma {:induction false} RunPolygonsExact(polygons: seq<seq<seq<Position>>>)
    ensures RunPolygons(polygons).panicked <==> !(forall i :: 0 <= i < |polygons| ==> DrawablePolygon(polygons[i]))
    ensures (forall i :: 0 <= i < |polygons| ==> DrawablePolygon(polygons[i])) ==>
      RunPolygons(polygons).painted == PolygonCmds(polygons)
  {
    if polygons != [] {
      RunPolygonsExact(polygons[1..]);
      assert forall i :: 0 < i < |polygons| ==> polygons[i] == polygons[1..][i - 1];
    }
  }

  /** A geometry panics exactly when it is not `Drawable`, and otherwise paints `GeometryCmds`. */
  lemma {:induction false} RunGeometryExact(g: Geometry)
    ensures RunGeometry(g).panicked <==> !Drawable(g)
    ensures Drawable(g) ==> RunGeometry(g).painted == GeometryCmds(g)
    decreases g, 1
  {
    match g
    case Point(p) =>
    case MultiPoint(ps) => RunPointsExact(ps);
    case LineString(line) =>
    case MultiLineString(lines) => RunLinesExact(lines);
    case Polygon(rings) =>
    case MultiPolygon(polygons) => RunPolygonsExact(polygons);
    case GeometryCollection(gs) => RunCollectionExact(gs);
    case Other =>
  }

  lemma {:induction false} RunCollectionExact(gs: seq<Geometry>)
    ensures RunCollection(gs).panicked <==> !(forall i :: 0 <= i < |gs| ==> Drawable(gs[i]))
    ensures (forall i :: 0 <= i < |gs| ==> Drawable(gs[i])) ==> RunCollection(gs).painted == CollectionCmds(gs)
    decreases gs, 0
  {
    if gs != [] {
      RunGeometryExact(gs[0]);
      RunCollectionExact(gs[1..]);
      assert forall i :: 0 < i < |gs| ==> gs[i] == gs[1..][i - 1];
    }
  }

  lemma {:induction false} RunFeaturesExact(fs: seq<Feature>)
    ensures RunFeatures(fs).panicked <==> !(forall i :: 0 <= i < |fs| ==> DrawableFeature(fs[i]))
    ensures (forall i :: 0 <= i < |fs| ==> DrawableFeature(fs[i])) ==> RunFeatures(fs).painted == FeaturesCmds(fs)
  {
    if fs != [] {
      if fs[0].geometry.Some? {
        RunGeometryExact(fs[0].geometry.value);
      }
      RunFeaturesExact(fs[1..]);
      assert forall i :: 0 < i < |fs| ==> fs[i] == fs[1..][i - 1];
    }
  }

  /** A document panics exactly when it is not `DrawableDocument`, and otherwise paints `Cmds`. */
  lemma RunDocumentExact(gj: GeoJson)
    ensures RunDocument(gj).panicked <==> !DrawableDocument(gj)
    ensures DrawableDocument(gj) ==> RunDocument(gj).painted == Cmds(gj)
  {
    match gj
    case FeatureCollection(fs) => RunFeaturesExact(fs);
    case SingleFeature(f) =>
      if f.geometry.Some? {
        RunGeometryExact(f.geometry.value);
      }
    case BareGeometry(g) => RunGeometryExact(g);
  }

  // ---------------------------------------------------------------------------
  // What a panic leaves on the canvas.

  lemma ThenAssociative(x: Run, y: Run, z: Run)
    ensures Then(Then(x, y), z) == Then(x, Then(y, z))
  {
  }

  lemma {:induction false} RunCollectionAppend(a: seq<Geometry>, b: seq<Geometry>)
    ensures RunCollection(a + b) == Then(RunCollection(a), RunCollection(b))
    decreases |a|
  {
    if a == [] {
      assert a + b == b;
    } else {
      assert (a + b)[0] == a[0];
      assert (a + b)[1..] == a[1..] + b;
      RunCollectionAppend(a[1..], b);
      ThenAssociative(RunGeometry(a[0]), RunCollection(a[1..]), RunCollection(b));
    }
  }

  /** When `bad` is the first child of a collection that panics, the canvas holds everything
      its earlier siblings painted, then what `bad` painted before it panicked, and nothing
      from the later siblings. */
  lemma FirstPanicKeepsPrefix(before: seq<Geometry>, bad: Geometry, after: seq<Geometry>)
    requires forall i :: 0 <= i < |before| ==> Drawable(before[i])
    requires !Drawable(bad)
    ensures RunCollection(before + [bad] + after).panicked
    ensures RunCollection(before + [bad] + after).painted == CollectionCmds(before) + RunGeometry(bad).painted
  {
    assert before + [bad] + after == before + ([bad] + after);
    RunCollectionAppend(before, [bad] + after);
    RunCollectionExact(before);
    RunGeometryExact(bad);
    assert ([bad] + after)[0] == bad;
  }

  /** A position with a single component makes the walk panic. */
  lemma OneComponentPanics(x: real)
    ensures RunGeometry(Point([x])).panicked
    ensures RunGeometry(MultiPoint([[0.0, 0.0], [x]])).panicked
    ensures RunGeometry(MultiPoint([[0.0, 0.0], [x]])).painted == [PointCmd([0.0, 0.0])]
  {
    var ps: seq<Position> := [[0.0, 0.0], [x]];
    assert ps[0] == [0.0, 0.0] && ps[1..] == [[x]];
    assert [[x]][1..] == [];
    assert RunPoints([[x]]) == Run([], true);
  }

  /** A polygon without rings makes the walk panic, before anything is painted for it. */
  lemma RinglessPolygonPanics()
    ensures RunGeometry(Polygon([])) == Run([], true)
  {
  }
}
