# GeoJSON plotter, modelled in Dafny

The plotter reads one GeoJSON document and paints it onto a single 1024 x 768 drawing area.
It walks the tree depth first: a FeatureCollection in feature order, a Feature's geometry if it
has one, and each GeometryCollection child in full before the next sibling. Each geometry
becomes draw calls:
- a filled polygon through the first ring of each polygon (the holes are ignored);
- a dot of radius 5 for each point;
- an open path through each line string.

Each position `(x, y, ...)` is mapped to the pixel `(trunc(x*100 + 512), trunc(y*100 + 384))`,
truncated toward zero. Components after the second are ignored. A position with fewer than
two components, or a polygon without any ring, makes the indexing panic.

The model has seven modules:

- `Geo` (geo.dfy): the tree (`GeoJson`, `Feature`, `Geometry` and `Position`). `Geometry` has
  one arm per kind of section 3.1 of RFC 7946 plus `Other`, the catch-all arm of the match.
  The predicates `Drawable`, `DrawablePolygon`, `DrawableFeature` and `DrawableDocument`
  say that walking a tree indexes nothing out of bounds.
- `Pixels` (pixels.dfy): the transform (`Trunc`, `ToPixel`, `Vertices`) and its properties.
- `Commands` (commands.dfy): the draw calls as a pure specification.
  - `PolygonCmd`, `PointCmd` and `LineCmd` give what one draw routine paints.
  - `PointCmds`, `LineCmds` and `PolygonCmds` give what the loop of a multi-geometry paints.
  - `GeometryCmds`, `CollectionCmds`, `FeatureCmds`, `FeaturesCmds` and `Cmds` give what the
    walk paints.
- `Plot` (canvas.dfy): the imperative plotter. Class `Canvas` has one field, `shapes`, the
  draw calls painted so far; the draw and walk methods append to it.
  - Every method ensures `shapes == old(shapes) + <the specification of what it paints>`.
  - Each `for` loop of the source keeps the invariant "`shapes` holds what the items before
    `i` paint".
  - The four loops of the match are written as methods of their own: `DrawPolygons`,
    `MatchGeometries`, `DrawPoints` and `DrawLineStrings`. So is the features loop of
    `process_geojson`, as `DrawFeatures`.
- `Properties` (properties.dfy): drawing one sequence after another concatenates their draw
  calls, plus the single-iteration steps the loops use.
- `Traversal` (traversal.dfy): the walk compared with reference definitions.
  - The walk draws `Leaves(g)`, the depth-first list of non-collection geometries, one leaf
    after another.
  - Each multi-geometry draws what a collection of its members draws.
  - A FeatureCollection draws what a GeometryCollection of its features' geometries draws.
  - Polygons, points and lines have the shape, length and style stated per kind.
- `Census` (census.dfy): the number of draw calls of each kind, against a count read off the
  tree alone.
- `Panics` (panics.dfy): the walk on any tree, well formed or not (`RunGeometry`,
  `RunDocument`). It stops at the first out-of-bounds index.
  - It panics exactly when the `Drawable` precondition fails.
  - Otherwise it paints `GeometryCmds` (resp. `Cmds`).
  - After a panic, the canvas holds everything painted before it.

Truncation toward zero is what the `as i32` casts of the source do; the model follows the
casts, not a rounding to the nearest integer.

## Model

| member | source | states |
|---|---|---|
| Pixels.Trunc | src/main.rs:72-73 | the result is the value with its fractional part dropped, toward zero (not a floor) |
| Pixels.ToPixel | src/main.rs:89-90 | a position becomes the pixel whose x is x*100+512 and whose y is y*100+384, each truncated toward zero; it needs two components |
| Pixels.Vertices | src/main.rs:68-76 | mapping a ring or line gives one pixel per position, in order, each the transform of that position |
| Pixels.TowardZeroUnique | src/main.rs:72-73 | at most one integer is the truncation toward zero of a value, so the contract of `Trunc` fixes its result |
| Pixels.TruncMonotone | src/main.rs:72-73 | truncation never swaps the order of two values |
| Pixels.TruncOfInteger | src/main.rs:89-90 | a whole number is mapped to itself |
| Pixels.OriginIsCentre | src/main.rs:89-90 | the position (0, 0) is drawn at pixel (512, 384) |
| Pixels.SamplePosition | src/main.rs:89-90 | the position (1.5, -1.5) is drawn at pixel (662, 234) |
| Pixels.TruncationIsTowardZero | src/main.rs:108-109 | a position whose scaled value is -0.5 lands on pixel 0, where a floor gives -1 |
| Pixels.ExtraComponentsIgnored | src/main.rs:72-73 | two positions with the same first two components are drawn at the same pixel, whatever follows |
| Pixels.HundredthsAreExact | src/main.rs:108-109 | in the exact real arithmetic of the model, a position on the grid of hundredths (a/100, b/100) lands on (a+512, b+384); the program's double arithmetic does not keep this (see "## Left out") |
| Pixels.ToPixelMonotone | src/main.rs:72-73 | a position left of (below) another is never drawn right of (above) it |
| Commands.PolygonCmd | src/main.rs:67-82 | a polygon paints a translucent green filled shape whose vertices are the transforms of the first ring, in order, as many as the ring has positions; it needs one ring |
| Commands.LineCmd | src/main.rs:103-113 | a line string paints a blue open path through the transforms of all its positions, in order, of the same length |
| Commands.PointCmds | src/main.rs:46-51 | a multi-point paints one yellow circle of radius 5 per position, the i-th centred on the transform of the i-th |
| Commands.LineCmds | src/main.rs:56-61 | a multi-line string paints one path per line, the i-th being what line i alone paints |
| Commands.PolygonCmds | src/main.rs:30-35 | a multi-polygon with k polygons paints k filled shapes, the i-th being what polygon i alone paints |
| Commands.PointCmd | src/main.rs:86-100 | a point paints one yellow circle of radius 5 centred on the transform of the position; it needs two components |
| Commands.GeometryCmds | src/main.rs:24-64 | what one geometry paints: one shape for a point, a line string or a polygon, one shape per member of a multi-geometry, nothing for another kind |
| Commands.CollectionCmds | src/main.rs:36-41 | an empty sequence of siblings paints nothing; what a non-empty one paints is stated by `Properties.CollectionCmdsAppend` and `Traversal.CollectionDrawsLeafByLeaf` |
| Commands.FeatureCmds | src/main.rs:9-11 | a feature without a geometry paints nothing |
| Commands.FeaturesCmds | src/main.rs:7-13 | an empty feature list paints nothing; what a non-empty one paints is stated by `Properties.FeaturesCmdsAppend` and `Traversal.FeatureCollectionIsGeometryCollection` |
| Commands.Cmds | src/main.rs:5-21 | a single feature without a geometry paints nothing; `Plot.Canvas.ProcessGeoJson` and the `Traversal` lemmas state what every document paints |
| Plot.Canvas.constructor | src/main.rs:120 | a new drawing area holds no shapes |
| Plot.Canvas.DrawPolygon | src/main.rs:67-83 | appends exactly the polygon's one filled shape and nothing else |
| Plot.Canvas.DrawPoint | src/main.rs:86-100 | appends exactly one circle of radius 5 at the transformed position |
| Plot.Canvas.DrawLineString | src/main.rs:103-114 | appends exactly the line's one path |
| Plot.Canvas.MatchGeometry | src/main.rs:24-64 | appends exactly what the geometry paints per the pure specification; `Other` appends nothing |
| Plot.Canvas.DrawPolygons | src/main.rs:30-35 | the multi-polygon loop appends each polygon's shape in order |
| Plot.Canvas.MatchGeometries | src/main.rs:36-41 | the collection loop appends each child's drawing in full, in order |
| Plot.Canvas.DrawPoints | src/main.rs:46-51 | the multi-point loop appends one circle per position in order |
| Plot.Canvas.DrawLineStrings | src/main.rs:56-61 | the multi-line loop appends one path per line in order |
| Plot.Canvas.ProcessGeoJson | src/main.rs:5-21 | appends exactly what the document paints: the features of a collection, a single feature's geometry if it has one, or a bare geometry |
| Plot.Canvas.DrawFeatures | src/main.rs:8-12 | the features loop appends each feature's drawing in order, and nothing for a feature without a geometry |
| Plot.Render | src/main.rs:120-122 | a fresh canvas ends holding exactly the document's draw calls |
| Properties.CollectionCmdsAppend | src/main.rs:36-41 | drawing two runs of sibling geometries one after the other paints the concatenation of their drawings |
| Properties.FeaturesCmdsAppend | src/main.rs:7-13 | drawing two runs of features one after the other paints the concatenation of their drawings |
| Properties.PointCmdsAppend | src/main.rs:48-50 | the multi-point loop over two runs of positions paints the concatenation |
| Properties.LineCmdsAppend | src/main.rs:58-60 | the multi-line loop over two runs of lines paints the concatenation |
| Properties.PolygonCmdsAppend | src/main.rs:32-34 | the multi-polygon loop over two runs of polygons paints the concatenation |
| Traversal.DrawsLeafByLeaf | src/main.rs:36-41 | a geometry paints what its depth-first list of non-collection leaves paints, leaf after leaf, so nested collections are expanded before the next sibling |
| Traversal.CollectionDrawsLeafByLeaf | src/main.rs:38-40 | the same for a sequence of sibling geometries |
| Traversal.NestingIsInvisible | src/main.rs:36-41 | two collections with the same leaves in the same order paint the same, however they are nested |
| Traversal.OtherDrawsNothing | src/main.rs:62 | a geometry of another kind paints nothing |
| Traversal.MultiPointIsPoints | src/main.rs:46-51 | a multi-point paints what the collection of its points paints |
| Traversal.MultiLineStringIsLineStrings | src/main.rs:56-61 | a multi-line string paints what the collection of its line strings paints |
| Traversal.MultiPolygonIsPolygons | src/main.rs:30-35 | a multi-polygon paints what the collection of its polygons paints |
| Traversal.PolygonDrawsFirstRing | src/main.rs:26-29 | a polygon paints exactly one filled shape, built from the first ring |
| Traversal.HolesIgnored | src/main.rs:68 | adding hole rings after the outer ring changes nothing that is painted |
| Traversal.MultiPolygonMembers | src/main.rs:30-35 | the i-th draw call of a multi-polygon is the one draw call of polygon i alone |
| Traversal.MultiPointCircles | src/main.rs:86-99 | a multi-point with N positions paints N circles of radius 5, in input order |
| Traversal.LineStringPath | src/main.rs:52-55 | a line string paints one path with as many vertices as it has positions, in order |
| Traversal.FeatureCollectionIsGeometryCollection | src/main.rs:7-13 | a feature collection paints the concatenation, in feature order, of its features' geometries; features without geometry add nothing |
| Traversal.FeatureCollectionsConcatenate | src/main.rs:8-12 | the drawing of joined feature lists is the concatenation of their drawings |
| Traversal.SingleFeatureDraws | src/main.rs:14-19 | a feature with a geometry paints exactly the bare geometry, one without paints nothing, and a single feature paints like a one-feature collection |
| Traversal.EmptyCollectionDrawsNothing | src/main.rs:7-13 | an empty feature collection paints nothing |
| Traversal.DrawsWellStyled | src/main.rs:77-81 | every polygon painted is translucent green, every circle yellow with radius 5, every path blue |
| Traversal.CollectionDrawsWellStyled | src/main.rs:36-41 | the same for a sequence of sibling geometries |
| Census.DrawCounts | src/main.rs:24-63 | a geometry paints exactly the expected number of shapes of each kind: 1 per point, line or polygon, k for a multi-geometry of k members, the sum over a collection's children, 0 for another kind |
| Census.CollectionDrawCounts | src/main.rs:38-40 | the counts of a sequence of siblings add up |
| Census.DrawCallCount | src/main.rs:24-63 | the total number of draw calls of a geometry is the sum of its expected counts |
| Census.TallyOfAppend | src/main.rs:38-40 | counting the shapes of two runs of draw calls adds up |
| Panics.RunPoint | src/main.rs:86-90 | drawing a point panics exactly when the position has fewer than two components, and then paints nothing; otherwise it paints one shape |
| Panics.RunLine | src/main.rs:103-109 | drawing a line string panics exactly when one of its positions is short, and then paints nothing; otherwise it paints one shape |
| Panics.RunPolygon | src/main.rs:67-73 | drawing a polygon panics exactly when it has no ring or its first ring has a short position, and then paints nothing; otherwise it paints one shape |
| Panics.RunPoints | src/main.rs:46-51 | the multi-point loop panics exactly when some position is short; it paints at most one circle per position, and one for each when it does not panic |
| Panics.RunLines | src/main.rs:56-61 | the multi-line loop panics exactly when some line has a short position; it paints at most one path per line, and one for each when it does not panic |
| Panics.RunPolygons | src/main.rs:30-35 | the multi-polygon loop panics exactly when some polygon cannot be drawn; it paints at most one shape per polygon, and one for each when it does not panic |
| Panics.RunGeometry | src/main.rs:24-64 | a geometry of another kind neither paints nor panics; `Panics.RunGeometryExact` states when any geometry panics and what it paints |
| Panics.RunCollection | src/main.rs:36-41 | an empty sequence of siblings neither paints nor panics, and when the first child panics the walk stops with exactly what that child painted |
| Panics.RunFeature | src/main.rs:9-11 | a feature without a geometry neither paints nor panics |
| Panics.RunFeatures | src/main.rs:7-13 | when no feature has a geometry, the loop paints nothing and does not panic |
| Panics.RunDocument | src/main.rs:14-18 | a single feature without a geometry neither paints nor panics; `Panics.RunDocumentExact` states when any document panics |
| Panics.RunGeometryExact | src/main.rs:24-64 | walking any geometry panics if and only if it is not drawable, and otherwise paints exactly what the specification says |
| Panics.RunCollectionExact | src/main.rs:38-40 | the same for a sequence of sibling geometries |
| Panics.RunPointsExact | src/main.rs:89-90 | a multi-point panics if and only if some position has fewer than two components |
| Panics.RunLinesExact | src/main.rs:108-109 | a multi-line string panics if and only if some position of some line has fewer than two components |
| Panics.RunPolygonsExact | src/main.rs:68-73 | a multi-polygon panics if and only if some polygon has no ring or a short position in its first ring |
| Panics.RunFeaturesExact | src/main.rs:8-12 | a feature list panics if and only if some present geometry is not drawable |
| Panics.RunDocumentExact | src/main.rs:5-21 | processing a document panics if and only if it is not drawable, and otherwise paints exactly its draw calls |
| Panics.RunCollectionAppend | src/main.rs:38-40 | walking two runs of siblings is walking the first, then, unless it panicked, the second |
| Panics.FirstPanicKeepsPrefix | src/main.rs:38-40 | when `bad` is the first malformed child of a collection, the walk panics, and the canvas holds the earlier siblings' drawings, then what `bad` painted, and nothing from the later siblings |
| Panics.OneComponentPanics | src/main.rs:89-90 | a point with one component panics; in a multi-point the earlier points stay painted |
| Panics.RinglessPolygonPanics | src/main.rs:68 | a polygon with no rings panics before painting anything |

## Left out

- Reading `data/data2.geojson` and parsing its text (src/main.rs:117-118) are I/O plus a parser library that is not part of this model. The model starts from an already-built tree, and a failure to read or parse is not modelled.
- Feature properties, ids, bounding boxes and foreign members are never read by the plotter and are not in the tree.
- The SVG backend, creating the drawing area, the white background fill, and the chart, mesh and caption overlay (src/main.rs:120-121, 124-129) are calls into a plotting library. So are writing `plot.svg` and the fixed 1024 x 768 size. The canvas is modelled as the ordered list of draw calls; pixels, clipping and the output file are not modelled.
- Colours, opacity and stroke widths (src/main.rs:77-81, 93-97, 113) are library constants. Each draw call carries a three-valued style tag instead.
- Pixels.HundredthsAreExact: holds of the real-number transform only. In IEEE-754 doubles a/100 is not exact. For example, -4.98 * 100.0 + 512.0 evaluates to 13.999999999999943, which `as i32` truncates to 13, not 14. The same happens for x = -5.11, which lands on 0, not 1. So some positions on the hundredths grid are drawn one pixel off.
- Pixels.ToPixel: works over exact reals with truncation toward zero. The IEEE-754 rounding of `x * 100.0 + 512.0` and the saturating conversion of `as i32` are not modelled: out-of-range values clamp to the i32 bounds, and NaN becomes 0.
- The `unwrap()` on each backend draw call (src/main.rs:82, 99, 113) aborts only on a backend failure. Backend failures are external and are not modelled; only the indexing panics are, as the `Drawable` preconditions and in the `Panics` module.
- The `println!` line for each matched geometry kind (src/main.rs:27-62) is informational output and is not modelled.
- Whether a panic still flushes what was painted to `plot.svg` depends on the plotting library's behaviour during unwinding. `Panics` models only what the canvas holds at the panic.
