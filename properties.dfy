/** Drawing one sequence of positions, lines, polygons, geometries or features after another
    paints the concatenation of their drawings, and the single-iteration steps the loops of
    the plotter use. */
module Properties {
  import opened Geo
  import opened Pixels
  import opened Commands

  // ---------------------------------------------------------------------------
  // Drawing one thing after another concatenates what each draws.

  lemma {:induction false} PointCmdsAppend(a: seq<Position>, b: seq<Position>)
    requires AllHaveXY(a) && AllHaveXY(b)
    ensures AllHaveXY(a + b)
    ensures PointCmds(a + b) == PointCmds(a) + PointCmds(b)
  {
    var l, r := PointCmds(a + b), PointCmds(a) + PointCmds(b);
    forall i | 0 <= i < |l| ensures l[i] == r[i] {
      if i < |a| { assert (a + b)[i] == a[i]; } else { assert (a + b)[i] == b[i - |a|]; }
    }
  }

  lemma {:induction false} LineCmdsAppend(a: seq<seq<Position>>, b: seq<seq<Position>>)
    requires forall i :: 0 <= i < |a| ==> AllHaveXY(a[i])
    requires forall i :: 0 <= i < |b| ==> AllHaveXY(b[i])
    ensures forall i :: 0 <= i < |a + b| ==> AllHaveXY((a + b)[i])
    ensures LineCmds(a + b) == LineCmds(a) + LineCmds(b)
  {
    assert forall i :: 0 <= i < |a + b| ==> (a + b)[i] == if i < |a| then a[i] else b[i - |a|];
    var l, r := LineCmds(a + b), LineCmds(a) + LineCmds(b);
    forall i | 0 <= i < |l| ensures l[i] == r[i] {
      if i < |a| { assert (a + b)[i] == a[i]; } else { assert (a + b)[i] == b[i - |a|]; }
    }
  }

  lemma {:induction false} PolygonCmdsAppend(a: seq<seq<seq<Position>>>, b: seq<seq<seq<Position>>>)
    requires forall i :: 0 <= i < |a| ==> DrawablePolygon(a[i])
    requires forall i :: 0 <= i < |b| ==> DrawablePolygon(b[i])
    ensures forall i :: 0 <= i < |a + b| ==> DrawablePolygon((a + b)[i])
    ensures PolygonCmds(a + b) == PolygonCmds(a) + PolygonCmds(b)
  {
    assert forall i :: 0 <= i < |a + b| ==> (a + b)[i] == if i < |a| then a[i] else b[i - |a|];
    var l, r := PolygonCmds(a + b), PolygonCmds(a) + PolygonCmds(b);
    forall i | 0 <= i < |l| ensures l[i] == r[i] {
      if i < |a| { assert (a + b)[i] == a[i]; } else { assert (a + b)[i] == b[i - |a|]; }
    }
  }

  lemma {:induction false} CollectionCmdsAppend(a: seq<Geometry>, b: seq<Geometry>)
    requires forall i :: 0 <= i < |a| ==> Drawable(a[i])
    requires forall i :: 0 <= i < |b| ==> Drawable(b[i])
    ensures forall i :: 0 <= i < |a + b| ==> Drawable((a + b)[i])
    ensures CollectionCmds(a + b) == CollectionCmds(a) + CollectionCmds(b)
    decreases |a|
  {
    assert forall i :: 0 <= i < |a + b| ==> (a + b)[i] == if i < |a| then a[i] else b[i - |a|];
    if a == [] {
      assert a + b == b;
    } else {
      assert (a + b)[1..] == a[1..] + b;
      CollectionCmdsAppend(a[1..], b);
    }
  }

  lemma {:induction false} FeaturesCmdsAppend(a: seq<Feature>, b: seq<Feature>)
    requires forall i :: 0 <= i < |a| ==> DrawableFeature(a[i])
    requires forall i :: 0 <= i < |b| ==> DrawableFeature(b[i])
    ensures forall i :: 0 <= i < |a + b| ==> DrawableFeature((a + b)[i])
    ensures FeaturesCmds(a + b) == FeaturesCmds(a) + FeaturesCmds(b)
    decreases |a|
  {
    FeaturesDrawableAppend(a, b);
    if a == [] {
      assert a + b == b;
    } else {
      var ab := a + b;
      assert ab[0] == a[0] && ab[1..] == a[1..] + b;
      FeaturesCmdsAppend(a[1..], b);
      calc {
        FeaturesCmds(ab);
        FeatureCmds(a[0]) + FeaturesCmds(a[1..] + b);
        FeatureCmds(a[0]) + (FeaturesCmds(a[1..]) + FeaturesCmds(b));
      }
    }
  }

  lemma FeaturesDrawableAppend(a: seq<Feature>, b: seq<Feature>)
    requires forall i :: 0 <= i < |a| ==> DrawableFeature(a[i])
    requires forall i :: 0 <= i < |b| ==> DrawableFeature(b[i])
    ensures forall i :: 0 <= i < |a + b| ==> DrawableFeature((a + b)[i])
  {
    assert forall i :: 0 <= i < |a + b| ==> (a + b)[i] == if i < |a| then a[i] else b[i - |a|];
  }

  /** A collection of one geometry draws exactly that geometry. */
  lemma CollectionCmdsSingleton(g: Geometry)
    requires Drawable(g)
    ensures CollectionCmds([g]) == GeometryCmds(g)
  {
    assert [g][1..] == [];
  }

  // ---------------------------------------------------------------------------
  // One more iteration of the source's loops: the prefix drawn so far grows by one item.

  lemma PointCmdsStep(ps: seq<Position>, i: nat)
    requires AllHaveXY(ps) && i < |ps|
    ensures PointCmds(ps[..i + 1]) == PointCmds(ps[..i]) + [PointCmd(ps[i])]
  {
    PointCmdsAppend(ps[..i], [ps[i]]);
    assert ps[..i] + [ps[i]] == ps[..i + 1];
  }

  lemma LineCmdsStep(lines: seq<seq<Position>>, i: nat)
    requires forall k :: 0 <= k < |lines| ==> AllHaveXY(lines[k])
    requires i < |lines|
    ensures LineCmds(lines[..i + 1]) == LineCmds(lines[..i]) + [LineCmd(lines[i])]
  {
    LineCmdsAppend(lines[..i], [lines[i]]);
    assert lines[..i] + [lines[i]] == lines[..i + 1];
  }

  lemma PolygonCmdsStep(polygons: seq<seq<seq<Position>>>, i: nat)
    requires forall k :: 0 <= k < |polygons| ==> DrawablePolygon(polygons[k])
    requires i < |polygons|
    ensures PolygonCmds(polygons[..i + 1]) == PolygonCmds(polygons[..i]) + [PolygonCmd(polygons[i])]
  {
    PolygonCmdsAppend(polygons[..i], [polygons[i]]);
    assert polygons[..i] + [polygons[i]] == polygons[..i + 1];
  }

  lemma CollectionCmdsStep(gs: seq<Geometry>, i: nat)
    requires forall k :: 0 <= k < |gs| ==> Drawable(gs[k])
    requires i < |gs|
    ensures CollectionCmds(gs[..i + 1]) == CollectionCmds(gs[..i]) + GeometryCmds(gs[i])
  {
    CollectionCmdsAppend(gs[..i], [gs[i]]);
    CollectionCmdsSingleton(gs[i]);
    assert gs[..i] + [gs[i]] == gs[..i + 1];
  }

  lemma FeaturesCmdsStep(fs: seq<Feature>, i: nat)
    requires forall k :: 0 <= k < |fs| ==> DrawableFeature(fs[k])
    requires i < |fs|
    ensures FeaturesCmds(fs[..i + 1]) == FeaturesCmds(fs[..i]) + FeatureCmds(fs[i])
  {
    FeaturesCmdsAppend(fs[..i], [fs[i]]);
    assert [fs[i]][1..] == [];
    assert fs[..i] + [fs[i]] == fs[..i + 1];
  }
}
