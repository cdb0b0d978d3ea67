/** The static "flow line" field of the meridian map: points, cubic Bézier
    path data, the line generator, the three depth layers and the node set.

    `Math.random` is a stream of draws `draw: nat -> real`: the k-th call the
    code makes reads `draw(k)`. Path data is a sequence of SVG path commands
    (moveto, section 8.3.2 of SVG 1.1; cubic Bézier curveto, section 8.3.6)
    rather than their printed text. */
module MeridianPaths {
  import Decimal

  datatype Point = Point(x: real, y: real)

  datatype PathCommand =
    | MoveTo(to: Point)
    | CurveTo(c1: Point, c2: Point, to: Point)

  datatype Line = Line(id: string, strokeColor: string, points: seq<Point>)

  datatype Layer = Layer(
    name: string,
    lines: seq<Line>,
    opacity: real,
    strokeWidth: real,
    colors: seq<string>,
    blur: string)

  /** A line of the flattened field, tagged with the name of its layer. */
  datatype FlatLine = FlatLine(line: Line, layer: string)

  const RandomnessFactor: real := 10.0
  const SvgWidth: real := 1000.0
  const SvgHeight: real := 600.0
  const CustomColors: seq<string> :=
    ["#C0C0C0", "#656668", "#727273", "#727273", "#D0D0D0", "#BFBFBF"]

  predicate IsDraw(r: real) { 0.0 <= r < 1.0 }

  ghost predicate AllDraws(draw: nat -> real) { forall k: nat :: IsDraw(draw(k)) }

  // ---------------------------------------------------------------------------
  // Random perturbation and random points

  /** `getRandomOffset(max)` with the draw `r` it reads. */
  function RandomOffset(max: real, r: real): (d: real)
    ensures max >= 0.0 && IsDraw(r) ==> -max <= d && (max > 0.0 ==> d < max)
  {
    (r - 0.5) * 2.0 * max
  }

  /** `getRandomPoint(maxX, maxY)` with its two draws, x first. */
  function RandomPoint(maxX: real, maxY: real, rx: real, ry: real): (p: Point)
    ensures maxX > 0.0 && IsDraw(rx) ==> 0.0 <= p.x < maxX
    ensures maxY > 0.0 && IsDraw(ry) ==> 0.0 <= p.y < maxY
  {
    assert maxX > 0.0 && IsDraw(rx) ==> rx * maxX < 1.0 * maxX;
    assert maxY > 0.0 && IsDraw(ry) ==> ry * maxY < 1.0 * maxY;
    Point(rx * maxX, ry * maxY)
  }

  /** The point built from the k-th pair of draws. */
  function DrawnPoint(maxX: real, maxY: real, draw: nat -> real, k: nat): Point
  {
    RandomPoint(maxX, maxY, draw(2 * k), draw(2 * k + 1))
  }

  predicate InCanvas(p: Point, maxX: real, maxY: real)
  {
    0.0 <= p.x < maxX && 0.0 <= p.y < maxY
  }

  // ---------------------------------------------------------------------------
  // Bézier path data (getBezierPathData)

  /** The point one third of the way from `a` to `b`, per coordinate. */
  function Third(a: real, b: real): real { a + (b - a) / 3.0 }

  function TwoThirds(a: real, b: real): real { a + ((b - a) * 2.0) / 3.0 }

  /** The curveto for the segment `p0`..`p1`, reading four draws from `base`
      in the order cp1x, cp1y, cp2x, cp2y. */
  function Segment(p0: Point, p1: Point, draw: nat -> real, base: nat): PathCommand
  {
    CurveTo(
      Point(Third(p0.x, p1.x) + RandomOffset(RandomnessFactor, draw(base)),
            Third(p0.y, p1.y) + RandomOffset(RandomnessFactor, draw(base + 1))),
      Point(TwoThirds(p0.x, p1.x) + RandomOffset(RandomnessFactor, draw(base + 2)),
            TwoThirds(p0.y, p1.y) + RandomOffset(RandomnessFactor, draw(base + 3))),
      p1)
  }

  /** The first `n` curvetos of the path through `points`. */
  function Curves(points: seq<Point>, draw: nat -> real, n: nat): (cs: seq<PathCommand>)
    requires n < |points|
    ensures |cs| == n
  {
    if n == 0 then [] else Curves(points, draw, n - 1) + [Segment(points[n - 1], points[n], draw, 4 * (n - 1))]
  }

  /** The path data of `points`: empty below two points, otherwise one moveto
      and one curveto per consecutive pair. */
  function BezierPath(points: seq<Point>, draw: nat -> real): (path: seq<PathCommand>)
    ensures |points| < 2 <==> path == []
    ensures |points| >= 2 ==> |path| == |points|
  {
    if |points| < 2 then [] else [MoveTo(points[0])] + Curves(points, draw, |points| - 1)
  }

  function EndPoint(c: PathCommand): Point { c.to }

  /** The points a path passes through: the target of every command. */
  function Vertices(path: seq<PathCommand>): (vs: seq<Point>)
    ensures |vs| == |path|
    ensures forall i :: 0 <= i < |path| ==> vs[i] == EndPoint(path[i])
  {
    if path == [] then [] else [EndPoint(path[0])] + Vertices(path[1..])
  }

  lemma {:induction false} CurvesAt(points: seq<Point>, draw: nat -> real, n: nat, k: nat)
    requires n < |points| && k < n
    ensures Curves(points, draw, n)[k] == Segment(points[k], points[k + 1], draw, 4 * k)
  {
    if k < n - 1 {
      CurvesAt(points, draw, n - 1, k);
    }
  }

  /** `getBezierPathData`: starts with the moveto and appends one curveto per
      segment in a loop. */
  method BezierPathData(points: seq<Point>, draw: nat -> real) returns (path: seq<PathCommand>)
    ensures path == BezierPath(points, draw)
  {
    if |points| < 2 {
      return [];
    }
    path := [MoveTo(points[0])];
    for i := 0 to |points| - 1
      invariant path == [MoveTo(points[0])] + Curves(points, draw, i)
    {
      path := path + [Segment(points[i], points[i + 1], draw, 4 * i)];
    }
  }

  /** Fewer than two points give no path at all; from two points on, the
      path has one moveto to the first point and one curveto for each of the
      |points| - 1 segments, the k-th of which ends at point k + 1. */
  lemma {:induction false} BezierPathShape(points: seq<Point>, draw: nat -> real)
    ensures |points| < 2 <==> BezierPath(points, draw) == []
    ensures |points| >= 2 ==>
      |BezierPath(points, draw)| == |points| &&
      BezierPath(points, draw)[0] == MoveTo(points[0]) &&
      forall k :: 1 <= k < |points| ==> BezierPath(points, draw)[k].CurveTo? && BezierPath(points, draw)[k].to == points[k]
  {
    if |points| >= 2 {
      var path := BezierPath(points, draw);
      forall k | 1 <= k < |points|
        ensures path[k].CurveTo? && path[k].to == points[k]
      {
        CurvesAt(points, draw, |points| - 1, k - 1);
      }
    }
  }

  /** Round trip: the path passes through exactly the given points, in order. */
  lemma BezierPathVertices(points: seq<Point>, draw: nat -> real)
    requires |points| >= 2
    ensures Vertices(BezierPath(points, draw)) == points
  {
    BezierPathShape(points, draw);
  }

  /** Each control point lies at the 1/3 (first) or 2/3 (second) point of its
      segment, moved by at least -10 and less than +10 in each coordinate. */
  lemma ControlPointsNearThirds(points: seq<Point>, draw: nat -> real, k: nat)
    requires AllDraws(draw)
    requires k + 1 < |points|
    ensures BezierPath(points, draw)[k + 1].CurveTo?
    ensures var c := BezierPath(points, draw)[k + 1];
      var p0, p1 := points[k], points[k + 1];
      Third(p0.x, p1.x) - 10.0 <= c.c1.x < Third(p0.x, p1.x) + 10.0 &&
      Third(p0.y, p1.y) - 10.0 <= c.c1.y < Third(p0.y, p1.y) + 10.0 &&
      TwoThirds(p0.x, p1.x) - 10.0 <= c.c2.x < TwoThirds(p0.x, p1.x) + 10.0 &&
      TwoThirds(p0.y, p1.y) - 10.0 <= c.c2.y < TwoThirds(p0.y, p1.y) + 10.0
  {
    CurvesAt(points, draw, |points| - 1, k);
    assert IsDraw(draw(4 * k)) && IsDraw(draw(4 * k + 1));
    assert IsDraw(draw(4 * k + 2)) && IsDraw(draw(4 * k + 3));
  }

  // ---------------------------------------------------------------------------
  // Line generator (generateMeridianPaths)

  function PathId(i: nat): string { "path-" + Decimal.NatToString(i) }

  /** The `count` points built from the point draws `base`, `base + 1`, ... */
  function DrawnPoints(maxX: real, maxY: real, draw: nat -> real, base: nat, count: nat): (ps: seq<Point>)
    ensures |ps| == count
  {
    seq(count, j requires 0 <= j => DrawnPoint(maxX, maxY, draw, base + j))
  }

  /** Number of the first point draw of line `i`. */
  function LineStart(first: nat, i: nat, numSegments: nat): nat { first + i * (numSegments + 1) }

  /** Line `i` of a generator call whose first point reads point draw `first`. */
  function MeridianLine(i: nat, numSegments: nat, maxX: real, maxY: real, draw: nat -> real, first: nat): Line
  {
    Line(PathId(i), CustomColors[i % |CustomColors|],
         DrawnPoints(maxX, maxY, draw, LineStart(first, i, numSegments), numSegments + 1))
  }

  function MeridianLines(numPaths: nat, numSegments: nat, maxX: real, maxY: real, draw: nat -> real, first: nat): seq<Line>
  {
    seq(numPaths, i requires 0 <= i => MeridianLine(i, numSegments, maxX, maxY, draw, first))
  }

  /** `generateMeridianPaths`: an outer loop over lines, an inner loop that
      draws the points of one line, both pushing onto arrays. Draws are read
      in order, two per point, starting at point draw `first`. */
  method GenerateMeridianPaths(numPaths: nat, numSegmentsPerPath: nat, maxX: real, maxY: real,
                               draw: nat -> real, first: nat)
    returns (generatedLines: seq<Line>)
    ensures generatedLines == MeridianLines(numPaths, numSegmentsPerPath, maxX, maxY, draw, first)
  {
    generatedLines := [];
    var next := first;  // number of the next point draw
    for i := 0 to numPaths
      invariant next == LineStart(first, i, numSegmentsPerPath)
      invariant |generatedLines| == i
      invariant forall t :: 0 <= t < i ==> generatedLines[t] == MeridianLine(t, numSegmentsPerPath, maxX, maxY, draw, first)
    {
      var base := next;
      var points := [DrawnPoint(maxX, maxY, draw, next)];
      next := next + 1;
      for j := 0 to numSegmentsPerPath
        invariant next == base + j + 1
        invariant |points| == j + 1
        invariant forall t :: 0 <= t <= j ==> points[t] == DrawnPoint(maxX, maxY, draw, base + t)
      {
        points := points + [DrawnPoint(maxX, maxY, draw, next)];
        next := next + 1;
      }
      assert points == DrawnPoints(maxX, maxY, draw, base, numSegmentsPerPath + 1);
      assert (i + 1) * (numSegmentsPerPath + 1) == i * (numSegmentsPerPath + 1) + numSegmentsPerPath + 1;
      generatedLines := generatedLines + [Line(PathId(i), CustomColors[i % |CustomColors|], points)];
    }
  }

  /** The generator yields `numPaths` lines; line i is `path-i`, has
      `numSegments + 1` points, takes colour i mod 6, and no two lines share an id. */
  lemma MeridianLinesShape(numPaths: nat, numSegments: nat, maxX: real, maxY: real, draw: nat -> real, first: nat)
    ensures var lines := MeridianLines(numPaths, numSegments, maxX, maxY, draw, first);
      |lines| == numPaths &&
      (forall i :: 0 <= i < numPaths ==>
        lines[i].id == PathId(i) &&
        lines[i].strokeColor == CustomColors[i % 6] &&
        |lines[i].points| == numSegments + 1) &&
      (forall i, j :: 0 <= i < j < numPaths ==> lines[i].id != lines[j].id)
  {
    var lines := MeridianLines(numPaths, numSegments, maxX, maxY, draw, first);
    forall i, j | 0 <= i < j < numPaths
      ensures lines[i].id != lines[j].id
    {
      Decimal.NatToStringInjective(i, j);
      assert lines[i].id[5..] == Decimal.NatToString(i);
      assert lines[j].id[5..] == Decimal.NatToString(j);
    }
  }

  /** With draws in [0, 1) and a positive canvas, every generated point lies
      inside the canvas. */
  lemma MeridianLinesInCanvas(numPaths: nat, numSegments: nat, maxX: real, maxY: real, draw: nat -> real, first: nat)
    requires AllDraws(draw) && maxX > 0.0 && maxY > 0.0
    ensures var lines := MeridianLines(numPaths, numSegments, maxX, maxY, draw, first);
      forall i, j :: 0 <= i < numPaths && 0 <= j <= numSegments ==> InCanvas(lines[i].points[j], maxX, maxY)
  {
    var lines := MeridianLines(numPaths, numSegments, maxX, maxY, draw, first);
    forall i, j | 0 <= i < numPaths && 0 <= j <= numSegments
      ensures InCanvas(lines[i].points[j], maxX, maxY)
    {
      var k := LineStart(first, i, numSegments) + j;
      assert lines[i].points[j] == DrawnPoint(maxX, maxY, draw, k);
      assert IsDraw(draw(2 * k)) && IsDraw(draw(2 * k + 1));
    }
  }

  // ---------------------------------------------------------------------------
  // The three depth layers (createLayeredPaths)

  const BackColors: seq<string> := ["#E8E8E8", "#EEEEEE", "#F0F0F0", "#E5E5E5", "#EDEDED", "#EAEAEA"]
  const MiddleColors: seq<string> := ["#D0D0D0", "#BABABA", "#C2C2C2", "#BCBCBC", "#CCCCCC", "#C8C8C8"]
  const FrontColors: seq<string> := ["#A0A0A0", "#888888", "#959595", "#8A8A8A", "#999999", "#909090"]

  /** Point draws consumed by one generator call. */
  function PointsDrawn(numPaths: nat, numSegments: nat): nat { numPaths * (numSegments + 1) }

  /** `createLayeredPaths`: back (15 lines), middle (20) and front (18), each
      line of 6 segments on the 1000 x 600 canvas, generated in that order
      from one draw stream; opacity and stroke width grow from back to front. */
  method CreateLayeredPaths(draw: nat -> real) returns (layers: seq<Layer>)
    ensures |layers| == 3
    ensures layers[0].name == "back" && layers[1].name == "middle" && layers[2].name == "front"
    ensures layers[0].lines == MeridianLines(15, 6, SvgWidth, SvgHeight, draw, 0)
    ensures layers[1].lines == MeridianLines(20, 6, SvgWidth, SvgHeight, draw, PointsDrawn(15, 6))
    ensures layers[2].lines == MeridianLines(18, 6, SvgWidth, SvgHeight, draw, PointsDrawn(15, 6) + PointsDrawn(20, 6))
    ensures |layers[0].lines| == 15 && |layers[1].lines| == 20 && |layers[2].lines| == 18
    ensures layers[0].opacity == 0.08 && layers[1].opacity == 0.18 && layers[2].opacity == 0.35
    ensures layers[0].strokeWidth == 0.4 && layers[1].strokeWidth == 0.5 && layers[2].strokeWidth == 0.7
    ensures forall i, j :: 0 <= i < j < 3 ==> layers[i].opacity < layers[j].opacity && layers[i].strokeWidth < layers[j].strokeWidth
    ensures layers[0].colors == BackColors && layers[1].colors == MiddleColors && layers[2].colors == FrontColors
    ensures layers[0].blur == "url(#depth-blur-back)" && layers[1].blur == "url(#depth-blur-middle)" && layers[2].blur == "none"
  {
    var back := GenerateMeridianPaths(15, 6, SvgWidth, SvgHeight, draw, 0);
    var middle := GenerateMeridianPaths(20, 6, SvgWidth, SvgHeight, draw, PointsDrawn(15, 6));
    var front := GenerateMeridianPaths(18, 6, SvgWidth, SvgHeight, draw, PointsDrawn(15, 6) + PointsDrawn(20, 6));
    layers := [];
    layers := layers + [Layer("back", back, 0.08, 0.4, BackColors, "url(#depth-blur-back)")];
    layers := layers + [Layer("middle", middle, 0.18, 0.5, MiddleColors, "url(#depth-blur-middle)")];
    layers := layers + [Layer("front", front, 0.35, 0.7, FrontColors, "none")];
  }

  /** Stroke colour of the `index`-th static line of a layer when drawn: the
      layer palette, cycled by index (the line's own colour is not used). */
  function StaticStroke(layer: Layer, index: nat): (c: string)
    requires |layer.colors| > 0
    ensures c in layer.colors
  {
    layer.colors[index % |layer.colors|]
  }

  // ---------------------------------------------------------------------------
  // Flattened field (allLinesFlat) and the node set (uniqueNodes)

  function TotalLines(layers: seq<Layer>): nat
  {
    if layers == [] then 0 else |layers[0].lines| + TotalLines(layers[1..])
  }

  /** The lines of one layer, each tagged with the layer's name. */
  function Tagged(lines: seq<Line>, name: string): (flat: seq<FlatLine>)
    ensures |flat| == |lines|
    ensures forall f :: f in flat <==> f.layer == name && f.line in lines
  {
    if lines == [] then [] else [FlatLine(lines[0], name)] + Tagged(lines[1..], name)
  }

  /** Every line of every layer, back to front, tagged with its layer name. */
  function AllLinesFlat(layers: seq<Layer>): (flat: seq<FlatLine>)
    ensures |flat| == TotalLines(layers)
    ensures forall f :: f in flat <==> exists l :: l in layers && f.layer == l.name && f.line in l.lines
  {
    if layers == [] then [] else Tagged(layers[0].lines, layers[0].name) + AllLinesFlat(layers[1..])
  }

  /** The field built by `CreateLayeredPaths` has 15 + 20 + 18 = 53 lines. */
  lemma LayeredFieldSize(layers: seq<Layer>)
    requires |layers| == 3
    requires |layers[0].lines| == 15 && |layers[1].lines| == 20 && |layers[2].lines| == 18
    ensures |AllLinesFlat(layers)| == 53
  {
    assert TotalLines(layers[2..]) == 18 + TotalLines(layers[3..]);
    assert TotalLines(layers[1..]) == 20 + TotalLines(layers[1..][1..]);
    assert layers[1..][1..] == layers[2..] && layers[3..] == [];
  }

  /** Every point of every line, layer by layer and line by line. */
  function LinePoints(lines: seq<Line>): (nodes: seq<Point>)
    ensures forall p :: p in nodes <==> exists l :: l in lines && p in l.points
  {
    if lines == [] then [] else lines[0].points + LinePoints(lines[1..])
  }

  function AllNodes(layers: seq<Layer>): (nodes: seq<Point>)
    ensures forall p :: p in nodes <==> exists l :: l in layers && p in LinePoints(l.lines)
  {
    if layers == [] then [] else LinePoints(layers[0].lines) + AllNodes(layers[1..])
  }

  predicate NoDuplicates(s: seq<Point>)
  {
    forall i, j :: 0 <= i < j < |s| ==> s[i] != s[j]
  }

  /** Keyed insertion into a JavaScript `Map`, read back with `values()`: the
      first occurrence of each key fixes its position. `seen` holds the keys
      inserted before `nodes`. */
  function DedupFrom(nodes: seq<Point>, seen: set<Point>): (r: seq<Point>)
    ensures NoDuplicates(r)
    ensures forall p :: p in r <==> p in nodes && p !in seen
    decreases |nodes|
  {
    if nodes == [] then []
    else if nodes[0] in seen then DedupFrom(nodes[1..], seen)
    else [nodes[0]] + DedupFrom(nodes[1..], seen + {nodes[0]})
  }

  /** `uniqueNodes`: each coordinate pair of the field once. */
  function UniqueNodes(layers: seq<Layer>): (r: seq<Point>)
    ensures NoDuplicates(r)
    ensures forall p :: p in r <==> p in AllNodes(layers)
  {
    DedupFrom(AllNodes(layers), {})
  }

  /** Every point of every line of the field appears among the unique nodes. */
  lemma UniqueNodesCover(layers: seq<Layer>, l: Layer, line: Line, p: Point)
    requires l in layers && line in l.lines && p in line.points
    ensures p in UniqueNodes(layers)
  {
    assert p in LinePoints(l.lines);
  }
}
