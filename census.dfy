/** How many shapes of each kind the walk paints, against a count computed from the
    document alone. */
module Census {
  import opened Geo
  import opened Commands
  import opened Properties

  datatype Tally = Tally(polygons: nat, circles: nat, paths: nat)

  function Plus(t: Tally, u: Tally): Tally {
    Tally(t.polygons + u.polygons, t.circles + u.circles, t.paths + u.paths)
  }

  function KindOf(c: DrawCmd): Tally {
    match c
    case FilledPolygon(_, _) => Tally(1, 0, 0)
    case Circle(_, _, _) => Tally(0, 1, 0)
    case Path(_, _) => Tally(0, 0, 1)
  }

  /** The number of shapes of each kind in a series of draw calls. */
  function TallyOf(cs: seq<DrawCmd>): Tally {
    if cs == [] then Tally(0, 0, 0) else Plus(KindOf(cs[0]), TallyOf(cs[1..]))
  }

  /** Every shape is counted under exactly one kind. */
  lemma {:induction false} TallyCountsEveryShape(cs: seq<DrawCmd>)
    ensures TallyOf(cs).polygons + TallyOf(cs).circles + TallyOf(cs).paths == |cs|
  {
    if cs != [] {
      TallyCountsEveryShape(cs[1..]);
    }
  }

  /** The number of shapes of each kind a geometry is expected to paint. */
  function ExpectedTally(g: Geometry): Tally
    decreases g, 1
  {
    match g
    case Point(_) => Tally(0, 1, 0)
    case MultiPoint(ps) => Tally(0, |ps|, 0)
    case LineString(_) => Tally(0, 0, 1)
    case MultiLineString(lines) => Tally(0, 0, |lines|)
    case Polygon(_) => Tally(1, 0, 0)
    case MultiPolygon(polygons) => Tally(|polygons|, 0, 0)
    case GeometryCollection(gs) => ExpectedCollectionTally(gs)
    case Other => Tally(0, 0, 0)
  }

  function ExpectedCollectionTally(gs: seq<Geometry>): Tally
    decreases gs, 0
  {
    if gs == [] then Tally(0, 0, 0) else Plus(ExpectedTally(gs[0]), ExpectedCollectionTally(gs[1..]))
  }

  lemma {:induction false} TallyOfAppend(a: seq<DrawCmd>, b: seq<DrawCmd>)
    ensures TallyOf(a + b) == Plus(TallyOf(a), TallyOf(b))
    decreases |a|
  {
    if a == [] {
      assert a + b == b;
    } else {
      assert (a + b)[1..] == a[1..] + b;
      TallyOfAppend(a[1..], b);
    }
  }

  /** A series of filled polygons counts only polygons. */
  lemma {:induction false} TallyOfPolygons(cs: seq<DrawCmd>)
    requires forall i :: 0 <= i < |cs| ==> cs[i].FilledPolygon?
    ensures TallyOf(cs) == Tally(|cs|, 0, 0)
  {
    if cs != [] {
      assert forall i :: 0 <= i < |cs[1..]| ==> cs[1..][i] == cs[i + 1];
      TallyOfPolygons(cs[1..]);
    }
  }

  /** A series of circles counts only circles. */
  lemma {:induction false} TallyOfCircles(cs: seq<DrawCmd>)
    requires forall i :: 0 <= i < |cs| ==> cs[i].Circle?
    ensures TallyOf(cs) == Tally(0, |cs|, 0)
  {
    if cs != [] {
      assert forall i :: 0 <= i < |cs[1..]| ==> cs[1..][i] == cs[i + 1];
      TallyOfCircles(cs[1..]);
    }
  }

  /** A series of paths counts only paths. */
  lemma {:induction false} TallyOfPaths(cs: seq<DrawCmd>)
    requires forall i :: 0 <= i < |cs| ==> cs[i].Path?
    ensures TallyOf(cs) == Tally(0, 0, |cs|)
  {
    if cs != [] {
      assert forall i :: 0 <= i < |cs[1..]| ==> cs[1..][i] == cs[i + 1];
      TallyOfPaths(cs[1..]);
    }
  }

  /** Every geometry paints exactly the expected number of shapes of each kind: one per
      point, line string and polygon, one per member of a multi-geometry, the sum over the
      children of a collection, none for `Other`. */
  lemma {:induction false} DrawCounts(g: Geometry)
    requires Drawable(g)
    ensures TallyOf(GeometryCmds(g)) == ExpectedTally(g)
    decreases g, 1
  {
    match g
    case Point(p) =>
    case MultiPoint(ps) =>
      TallyOfCircles(PointCmds(ps));
    case LineString(line) =>
    case MultiLineString(lines) =>
      TallyOfPaths(LineCmds(lines));
    case Polygon(rings) =>
    case MultiPolygon(polygons) =>
      TallyOfPolygons(PolygonCmds(polygons));
    case GeometryCollection(gs) =>
      CollectionDrawCounts(gs);
    case Other =>
  }

  lemma {:induction false} CollectionDrawCounts(gs: seq<Geometry>)
    requires forall i :: 0 <= i < |gs| ==> Drawable(gs[i])
    ensures TallyOf(CollectionCmds(gs)) == ExpectedCollectionTally(gs)
    decreases gs, 0
  {
    if gs != [] {
      DrawCounts(gs[0]);
      CollectionDrawCounts(gs[1..]);
      TallyOfAppend(GeometryCmds(gs[0]), CollectionCmds(gs[1..]));
    }
  }

  /** The total number of draw calls of a geometry. */
  lemma DrawCallCount(g: Geometry)
    requires Drawable(g)
    ensures |GeometryCmds(g)| == ExpectedTally(g).polygons + ExpectedTally(g).circles + ExpectedTally(g).paths
  {
    DrawCounts(g);
    TallyCountsEveryShape(GeometryCmds(g));
  }
}
