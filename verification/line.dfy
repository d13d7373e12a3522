/** `LineChart::generate` (src/charts/line.rs): each value row becomes a
    polyline with a marker and a value label per point, over the shared
    frame and ticks. The point mapping here is shared with the area and
    scatter charts, whose sources repeat it. */
module Line {
  import opened Wrappers
  import opened Numeric
  import opened Models
  import opened Drawing
  import opened Svg
  import opened ChartCommon

  /** Horizontal distance between neighbouring points of an `n`-point row.
      A single-point row divides by zero in the source. */
  function SegmentWidth(n: nat): real
    requires n != 1
  {
    640.0 / (n as real - 1.0)
  }

  /** x of point i: the first point sits on the y axis and the last at the
      right edge of the plot. */
  function PointX(i: nat, n: nat): (x: real)
    requires n != 1
    ensures i == 0 ==> x == 0.0
    ensures n >= 2 && i == n - 1 ==> x == 640.0
    ensures n >= 2 ==> 0.0 <= x
  {
    i as real * SegmentWidth(n)
  }

  /** Points further along a row lie further right, up to the edge at 640. */
  lemma PointXMonotone(i: nat, j: nat, n: nat)
    requires i < j < n
    ensures PointX(i, n) < PointX(j, n) <= 640.0
  {
    var w := SegmentWidth(n);
    assert w > 0.0;
    MulStrictlyMonotone(i as real, j as real, w);
    assert (n as real - 1.0) * w == 640.0;
    if j < n - 1 {
      MulStrictlyMonotone(j as real, (n - 1) as real, w);
    }
  }

  /** y of a value: 450 - value / max * 400. Zero sits on the x axis, the
      maximum at the top tick, and a larger value is drawn higher. */
  function PlotY(v: real, maxValue: real): (y: real)
    requires maxValue != 0.0
    ensures v == 0.0 ==> y == 450.0
    ensures v == maxValue ==> y == 50.0
  {
    SelfQuotient(maxValue);
    450.0 - (v / maxValue * (450.0 - 50.0))
  }

  /** Under a positive maximum the map reverses order: larger values are
      drawn higher, and values in [0, max] stay within the plot's height. */
  lemma PlotYOrder(u: real, v: real, maxValue: real)
    requires 0.0 < maxValue && u < v
    ensures PlotY(v, maxValue) < PlotY(u, maxValue)
    ensures 0.0 <= u && v <= maxValue ==> 50.0 <= PlotY(v, maxValue) && PlotY(u, maxValue) <= 450.0
  {
    QuotientOrder(u, v, maxValue);
    if 0.0 <= u && v <= maxValue {
      QuotientOrder(v, maxValue, maxValue);
      SelfQuotient(maxValue);
    }
  }

  /** The points of one row, placed as line.rs places them; `n` is the
      length of the first row, which sets the spacing for every row. */
  function RowPoints(row: seq<real>, n: nat, maxValue: real): (r: seq<Point>)
    requires n != 1 && maxValue != 0.0
    ensures |r| == |row|
    ensures forall i :: 0 <= i < |row| ==> r[i] == At(PointX(i, n), PlotY(row[i], maxValue))
  {
    seq(|row|, i requires 0 <= i < |row| => At(PointX(i, n), PlotY(row[i], maxValue)))
  }

  /** The path through a list of points: a move to the first, then a line
      to each later one. */
  function Polyline(points: seq<Point>): (r: seq<PathCmd>)
    ensures |r| == |points|
    ensures |points| > 0 ==> r[0] == MoveTo(points[0])
    ensures forall i :: 0 < i < |points| ==> r[i] == LineTo(points[i])
  {
    seq(|points|, i requires 0 <= i < |points| => if i == 0 then MoveTo(points[0]) else LineTo(points[i]))
  }

  /** One row: its unfilled polyline in the series colour, then its markers. */
  function RowSection(row: seq<real>, idx: nat, n: nat, maxValue: real, colors: Option<seq<string>>): (r: seq<Primitive>)
    requires n != 1 && maxValue != 0.0
    ensures |r| >= 1
    ensures r[0] == Path(Polyline(RowPoints(row, n, maxValue)), NoPaint, Color(SeriesColor(colors, idx)), 1.0)
    ensures r[1..] == Markers(RowPoints(row, n, maxValue), row, Color(SeriesColor(colors, idx)))
  {
    var color := Color(SeriesColor(colors, idx));
    var points := RowPoints(row, n, maxValue);
    var r := [Path(Polyline(points), NoPaint, color, 1.0)] + Markers(points, row, color);
    assert r[1..] == Markers(points, row, color);
    r
  }

  /** The sections of rows `rows`, numbered from 0. */
  function Sections(rows: seq<seq<real>>, n: nat, maxValue: real, colors: Option<seq<string>>): (r: seq<seq<Primitive>>)
    requires n != 1 && maxValue != 0.0
    ensures |r| == |rows|
    ensures forall s :: 0 <= s < |rows| ==> r[s] == RowSection(rows[s], s, n, maxValue, colors)
  {
    seq(|rows|, s requires 0 <= s < |rows| => RowSection(rows[s], s, n, maxValue, colors))
  }

  /** Each row's section holds its path and one circle per value. */
  lemma SectionsShape(rows: seq<seq<real>>, n: nat, maxValue: real, colors: Option<seq<string>>)
    requires n != 1 && maxValue != 0.0
    ensures forall s :: 0 <= s < |rows| ==> RowShaped(Sections(rows, n, maxValue, colors)[s], rows[s], true)
  {
    forall s | 0 <= s < |rows|
      ensures RowShaped(Sections(rows, n, maxValue, colors)[s], rows[s], true)
    {
      var r := RowSection(rows[s], s, n, maxValue, colors);
      assert r == [r[0]] + r[1..];
      PathThenMarkers(r[0], RowPoints(rows[s], n, maxValue), rows[s], Color(SeriesColor(colors, s)));
    }
  }

  /** A request the line chart can draw: a nonzero scale and a first row
      whose spacing is defined. */
  predicate Drawable(req: GraphRequest) {
    Scalable(req) && |PlotRows(req)[0]| != 1
  }

  /** The marks of all rows: paths and markers, row by row. */
  function Marks(rows: seq<seq<real>>, n: nat, maxValue: real, colors: Option<seq<string>>): (r: seq<Primitive>)
    requires n != 1 && maxValue != 0.0
    ensures Count(r, CircleKind) == LengthSum(rows) && Count(r, PathKind) == |rows| && Count(r, RectKind) == 0
  {
    var sections := Sections(rows, n, maxValue, colors);
    SectionsShape(rows, n, maxValue, colors);
    SectionsMarks(sections, rows, true);
    Flatten(sections)
  }

  /** What precedes the marks: the header with both axes, the six value
      ticks and the opaque x ticks. */
  function Decor(req: GraphRequest, maxValue: real, n: nat): (r: seq<Primitive>)
    ensures Count(r, CircleKind) == 0 && Count(r, PathKind) == 0 && Count(r, RectKind) == 0
  {
    var header, ticks := Header(req.title, req.xLabel, req.yLabel), YAxisTicks(maxValue);
    NoMarksConcat(header, ticks);
    FrameCounts(header + ticks, "generate_x_axis_ticks_for_line", n);
    header + ticks + [Helper("generate_x_axis_ticks_for_line", n)]
  }

  /** The drawing of value rows under a scale: decoration, one section per
      row, then the legend when the request has series. */
  function Render(rows: seq<seq<real>>, maxValue: real, req: GraphRequest): (c: Canvas)
    requires |rows| >= 1 && |rows[0]| != 1 && maxValue != 0.0
    ensures c == Page(c.items)
    ensures Count(c.items, CircleKind) == LengthSum(rows)
    ensures Count(c.items, PathKind) == |rows|
    ensures Count(c.items, RectKind) == Swatches(req.series)
  {
    var decor, marks, legend := Decor(req, maxValue, |rows[0]|), Marks(rows, |rows[0]|, maxValue, req.colors), SeriesLegend(req.series, 520.0, 50.0);
    Layered(decor, marks, legend)
  }

  /** `LineChart::generate`: the plotted rows under their own maximum. One
      circle per value, one path per row, and a legend swatch per named
      series only when the request has series. */
  function Generate(req: GraphRequest): (c: Canvas)
    requires Drawable(req)
    ensures Count(c.items, CircleKind) == LengthSum(PlotRows(req))
    ensures Count(c.items, PathKind) == |PlotRows(req)|
    ensures Count(c.items, RectKind) == Swatches(req.series)
  {
    Render(PlotRows(req), PlotMax(req).value, req)
  }

  /** Under the plotted scale, some value of the request reaches the top
      tick at y = 50 and none goes above it when the maximum is positive. */
  lemma TopValueOnTopTick(req: GraphRequest)
    requires Drawable(req)
    ensures exists s, i :: 0 <= s < |PlotRows(req)| && 0 <= i < |PlotRows(req)[s]| && PlotY(PlotRows(req)[s][i], PlotMax(req).value) == 50.0
    ensures PlotMax(req).value > 0.0 ==> forall s, i :: 0 <= s < |PlotRows(req)| && 0 <= i < |PlotRows(req)[s]| ==> 50.0 <= PlotY(PlotRows(req)[s][i], PlotMax(req).value)
  {
    var rows, m := PlotRows(req), PlotMax(req).value;
    var s, i :| 0 <= s < |rows| && 0 <= i < |rows[s]| && rows[s][i] == m;
    assert PlotY(rows[s][i], m) == 50.0;
    if m > 0.0 {
      forall t, j | 0 <= t < |rows| && 0 <= j < |rows[t]|
        ensures 50.0 <= PlotY(rows[t][j], m)
      {
        if rows[t][j] < m { PlotYOrder(rows[t][j], m, m); }
      }
    }
  }

  /** The height line.rs gives a value as written, when the scale is the
      maximum over `request.series` alone: with only flat data that
      maximum is negative infinity, the quotient is zero and the point
      lands on the x axis. */
  function AsWrittenY(req: GraphRequest, v: real): (y: real)
    requires AsWrittenMax(req).Some? ==> AsWrittenMax(req).value != 0.0
    ensures req.series == [] ==> y == 450.0
    ensures AsWrittenMax(req).Some? ==> y == PlotY(v, AsWrittenMax(req).value)
  {
    match AsWrittenMax(req)
    case None => 450.0
    case Some(m) => PlotY(v, m)
  }

  /** The flat data [1, 2] as written: both points on the x axis. With the
      scale taken over the plotted rows, 2 reaches the top tick and 1 sits
      halfway. */
  lemma FlatDataFinding()
    ensures var req := GraphRequest(GraphType.Line, [], [1.0, 2.0], None, None, None, None);
      AsWrittenY(req, 1.0) == 450.0 && AsWrittenY(req, 2.0) == 450.0
      && PlotMax(req) == Some(2.0) && PlotY(2.0, 2.0) == 50.0 && PlotY(1.0, 2.0) == 250.0
  {
    var req := GraphRequest(GraphType.Line, [], [1.0, 2.0], None, None, None, None);
    assert PlotRows(req) == [[1.0, 2.0]];
    assert PlotRows(req)[0][1] == 2.0;
    assert PlotMax(req) == Some(2.0);
  }
}
