/** `RadarChart::generate` (src/charts/radar.rs): one spoke per entry of the
    first row around the centre (400, 300) of the plot group, five
    concentric grid polygons, and per row a translucent closed polygon
    whose distance from the centre along each spoke is value / max * 200,
    with a marker and value label at each corner. Angles are in
    half-turns (`PiRadians`), the first spoke pointing straight up. */
module Radar {
  import opened Wrappers
  import opened Models
  import opened Drawing
  import opened Svg
  import opened ChartCommon
  import Line

  const Radius: real := 200.0

  /** The centre, offset by `r` along the spoke at `angle` half-turns. */
  function Spoke(r: real, angle: real): Point {
    Polar(400.0, 300.0, r, PiRadians(angle), 0.0)
  }

  /** The direction of spoke `j` of `n`: -1/2 + j * 2/n half-turns. */
  function AxisAngle(j: nat, n: nat): real
    requires n > 0
  {
    -0.5 + j as real * (2.0 / n as real)
  }

  /** The spokes split the full turn evenly: the first points up, each is
      2/n half-turns past the previous, and spoke n would be the first
      again, a full turn later. */
  lemma EvenSpokes(j: nat, n: nat)
    requires n > 0
    ensures AxisAngle(0, n) == -0.5
    ensures AxisAngle(j + 1, n) - AxisAngle(j, n) == 2.0 / n as real
    ensures AxisAngle(n, n) == AxisAngle(0, n) + 2.0
  {
    assert n as real * (2.0 / n as real) == 2.0;
  }

  /** A closed path through the points, in order. */
  function Polygon(points: seq<Point>): (d: seq<PathCmd>)
    ensures |d| == |points| + 1 && d[|points|] == Close
    ensures d[..|points|] == Line.Polyline(points)
  {
    Line.Polyline(points) + [Close]
  }

  /** Grid polygon `i` (1 to 5): through every spoke at i / 5 of the radius,
      stroked grey and unfilled. */
  function Ring(i: nat, n: nat): (r: Primitive)
    requires n > 0
    ensures r.Path? && |r.d| == n + 1 && r.fill == NoPaint && r.stroke == GridGray
    ensures r.d[0] == MoveTo(Spoke(Radius * (i as real / 5.0), AxisAngle(0, n)))
    ensures forall j :: 0 < j < n ==> r.d[j] == LineTo(Spoke(Radius * (i as real / 5.0), AxisAngle(j, n)))
    ensures r.d[n] == Close
  {
    var points := seq(n, j requires 0 <= j < n => Spoke(Radius * (i as real / 5.0), AxisAngle(j, n)));
    Path(Polygon(points), NoPaint, GridGray, 1.0)
  }

  /** The five grid polygons, innermost first. */
  function Rings(n: nat): (r: seq<Primitive>)
    requires n > 0
    ensures |r| == 5 && forall i :: 0 <= i < 5 ==> r[i] == Ring(i + 1, n)
    ensures Count(r, PathKind) == 5 && Count(r, CircleKind) == 0 && Count(r, RectKind) == 0
  {
    var r := [Ring(1, n), Ring(2, n), Ring(3, n), Ring(4, n), Ring(5, n)];
    CountUniform(r, PathKind);
    CountNone(r, CircleKind);
    CountNone(r, RectKind);
    r
  }

  /** Grid polygon `i` has its corner on spoke `j` 40 * i units from the
      centre, so the rings are 40 apart and the outermost passes through
      the end of every spoke. */
  lemma RingVertices(n: nat, i: nat, j: nat)
    requires n > 0 && 1 <= i <= 5 && j < n
    ensures Rings(n)[i - 1].d[j].p == Spoke(40.0 * i as real, AxisAngle(j, n))
    ensures i == 5 ==> Rings(n)[i - 1].d[j].p == AxisPair(j, n)[0].to
  {
    var ring := Rings(n)[i - 1];
    assert ring == Ring(i, n);
    assert Radius * (i as real / 5.0) == 40.0 * i as real;
    if j == 0 {
      assert ring.d[j] == MoveTo(Spoke(Radius * (i as real / 5.0), AxisAngle(0, n)));
    } else {
      assert ring.d[j] == LineTo(Spoke(Radius * (i as real / 5.0), AxisAngle(j, n)));
    }
  }

  /** Spoke `j` from the centre to the outer ring, then its number `j + 1`
      20 units beyond the end. */
  function AxisPair(j: nat, n: nat): (r: seq<Primitive>)
    requires n > 0
    ensures |r| == 2 && NoMarks(r)
  {
    [Segment(At(400.0, 300.0), Spoke(Radius, AxisAngle(j, n)), GridGray),
     Text(Spoke(Radius + 20.0, AxisAngle(j, n)), Int(j + 1), Middle, Unset)]
  }

  /** All spokes and their numbers, in order. */
  function Spokes(n: nat): (r: seq<Primitive>)
    requires n > 0
    ensures |r| == 2 * n
    ensures forall j :: 0 <= j < n ==> r[2 * j] == AxisPair(j, n)[0] && r[2 * j + 1] == AxisPair(j, n)[1]
    ensures NoMarks(r)
  {
    var sections := seq(n, j requires 0 <= j < n => AxisPair(j, n));
    FlattenPairs(sections);
    FlatNoMarks(sections);
    Flatten(sections)
  }

  /** How far from the centre a value is drawn: value / max of the radius. */
  function Reach(v: real, maxValue: real): real
    requires maxValue != 0.0
  {
    Radius * (v / maxValue)
  }

  /** The maximum reaches the outer ring, zero stays at the centre, and
      under a positive maximum a value in [0, max] stays within the grid. */
  lemma ReachBounds(v: real, maxValue: real)
    requires maxValue > 0.0
    ensures Reach(maxValue, maxValue) == Radius && Reach(0.0, maxValue) == 0.0
    ensures 0.0 <= v <= maxValue ==> 0.0 <= Reach(v, maxValue) <= Radius
  {
    if 0.0 <= v <= maxValue {
      assert v / maxValue <= 1.0;
    }
  }

  /** The corners of one row's polygon: value `i` along spoke `i`. */
  function RowPoints(row: seq<real>, n: nat, maxValue: real): (r: seq<Point>)
    requires n > 0 && maxValue != 0.0
    ensures |r| == |row|
    ensures forall i :: 0 <= i < |row| ==> r[i] == Spoke(Reach(row[i], maxValue), AxisAngle(i, n))
  {
    seq(|row|, i requires 0 <= i < |row| => Spoke(Reach(row[i], maxValue), AxisAngle(i, n)))
  }

  /** One row: its polygon stroked and filled in the series colour at
      opacity 0.2, then a marker and value label at each corner. */
  function RowSection(row: seq<real>, idx: nat, n: nat, maxValue: real, colors: Option<seq<string>>): (r: seq<Primitive>)
    requires n > 0 && maxValue != 0.0
    ensures |r| >= 1
    ensures r[0] == Path(Polygon(RowPoints(row, n, maxValue)), Color(SeriesColor(colors, idx)), Color(SeriesColor(colors, idx)), 0.2)
    ensures r[1..] == Markers(RowPoints(row, n, maxValue), row, Color(SeriesColor(colors, idx)))
    ensures RowShaped(r, row, true)
  {
    var color := Color(SeriesColor(colors, idx));
    var points := RowPoints(row, n, maxValue);
    var r := [Path(Polygon(points), color, color, 0.2)] + Markers(points, row, color);
    assert r[1..] == Markers(points, row, color);
    PathThenMarkers(r[0], points, row, color);
    r
  }

  /** The sections of `rows`, numbered from 0. */
  function Sections(rows: seq<seq<real>>, n: nat, maxValue: real, colors: Option<seq<string>>): (r: seq<seq<Primitive>>)
    requires n > 0 && maxValue != 0.0
    ensures |r| == |rows|
    ensures forall s :: 0 <= s < |rows| ==> r[s] == RowSection(rows[s], s, n, maxValue, colors)
  {
    seq(|rows|, s requires 0 <= s < |rows| => RowSection(rows[s], s, n, maxValue, colors))
  }

  /** The polygons and markers of all rows, row by row. */
  function Marks(rows: seq<seq<real>>, n: nat, maxValue: real, colors: Option<seq<string>>): (r: seq<Primitive>)
    requires n > 0 && maxValue != 0.0
    ensures Count(r, CircleKind) == LengthSum(rows) && Count(r, PathKind) == |rows| && Count(r, RectKind) == 0
  {
    var sections := Sections(rows, n, maxValue, colors);
    SectionsMarks(sections, rows, true);
    Flatten(sections)
  }

  /** The header with its axes, the grid polygons, then the spokes with
      their numbers. */
  function Decor(req: GraphRequest, n: nat): (r: seq<Primitive>)
    requires n > 0
    ensures Count(r, PathKind) == 5 && Count(r, CircleKind) == 0 && Count(r, RectKind) == 0
  {
    var header, rings, spokes := Header(req.title, req.xLabel, req.yLabel), Rings(n), Spokes(n);
    NoMarksCount(header);
    NoMarksCount(spokes);
    ThreeParts(header, rings, spokes, PathKind);
    ThreeParts(header, rings, spokes, CircleKind);
    ThreeParts(header, rings, spokes, RectKind);
    header + rings + spokes
  }

  /** The drawing of value rows under a scale with `|rows[0]|` spokes. */
  function Render(rows: seq<seq<real>>, maxValue: real, req: GraphRequest): (c: Canvas)
    requires |rows| >= 1 && |rows[0]| > 0 && maxValue != 0.0
    ensures c == Page(c.items)
    ensures Count(c.items, CircleKind) == LengthSum(rows)
    ensures Count(c.items, PathKind) == 5 + |rows|
    ensures Count(c.items, RectKind) == Swatches(req.series)
  {
    var decor, marks, legend := Decor(req, |rows[0]|), Marks(rows, |rows[0]|, maxValue, req.colors), SeriesLegend(req.series, 520.0, 50.0);
    Layered(decor, marks, legend)
  }

  /** A request the radar chart can draw: a nonzero scale and a first row
      with at least one entry, so that the spokes are spaced. */
  predicate Drawable(req: GraphRequest) {
    Scalable(req) && |PlotRows(req)[0]| > 0
  }

  /** `RadarChart::generate`: five grid polygons and one polygon per plotted
      row, a marker per value, and a legend swatch per named series only
      when the request has series. */
  function Generate(req: GraphRequest): (c: Canvas)
    requires Drawable(req)
    ensures Count(c.items, CircleKind) == LengthSum(PlotRows(req))
    ensures Count(c.items, PathKind) == 5 + |PlotRows(req)|
    ensures Count(c.items, RectKind) == Swatches(req.series)
  {
    Render(PlotRows(req), PlotMax(req).value, req)
  }

  /** How far from the centre radar.rs:96 draws `v` as written, the scale
      being the maximum over `request.series` alone: with only flat data
      that maximum is negative infinity, v / max is zero and every corner
      sits on the centre. */
  function AsWrittenReach(req: GraphRequest, v: real): (d: real)
    requires AsWrittenMax(req).Some? ==> AsWrittenMax(req).value != 0.0
    ensures req.series == [] ==> d == 0.0
    ensures AsWrittenMax(req).Some? ==> d == Reach(v, AsWrittenMax(req).value)
  {
    match AsWrittenMax(req)
    case None => 0.0
    case Some(m) => Reach(v, m)
  }

  /** The flat data [1, 2] as written: both corners on the centre, the
      polygon a point. With the scale taken over the plotted rows, 1 lies
      halfway out and 2 on the outer ring. */
  lemma FlatDataFinding()
    ensures var req := GraphRequest(GraphType.Radar, [], [1.0, 2.0], None, None, None, None);
      AsWrittenReach(req, 1.0) == 0.0 && AsWrittenReach(req, 2.0) == 0.0
      && PlotMax(req) == Some(2.0) && Reach(1.0, 2.0) == 100.0 && Reach(2.0, 2.0) == Radius
  {
    var req := GraphRequest(GraphType.Radar, [], [1.0, 2.0], None, None, None, None);
    assert PlotRows(req) == [[1.0, 2.0]];
    assert PlotRows(req)[0][1] == 2.0;
    assert PlotMax(req) == Some(2.0);
  }
}
