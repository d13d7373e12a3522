/** `AreaChart::generate` (src/charts/area.rs): each row becomes a closed,
    translucent region between its polyline and the x axis, with markers;
    the axes are drawn last, over everything else. */
module Area {
  import opened Wrappers
  import opened Models
  import opened Drawing
  import opened Svg
  import opened ChartCommon
  import Line

  /** The region under one row: from the origin of the x axis up through
      every point, back down to the axis below the last point, closed.
      Each row is spaced by its own length. */
  function Outline(row: seq<real>, maxValue: real): (d: seq<PathCmd>)
    requires |row| >= 2 && maxValue != 0.0
    ensures |d| == |row| + 3
    ensures d[0] == MoveTo(At(0.0, 450.0))
    ensures forall i :: 0 <= i < |row| ==> d[i + 1] == LineTo(At(Line.PointX(i, |row|), Line.PlotY(row[i], maxValue)))
    ensures d[|row| + 1] == LineTo(At(640.0, 450.0))
    ensures d[|row| + 2] == Close
  {
    var n := |row|;
    var last := Line.PointX(n - 1, n);
    [MoveTo(At(0.0, 450.0))]
    + seq(n, i requires 0 <= i < n => LineTo(At(Line.PointX(i, n), Line.PlotY(row[i], maxValue))))
    + [LineTo(At(last, 450.0)), Close]
  }

  /** The outline starts and ends on the x axis, spanning the plot's width. */
  lemma OutlineOnBaseline(row: seq<real>, maxValue: real)
    requires |row| >= 2 && maxValue != 0.0
    ensures Outline(row, maxValue)[0].p.y == 450.0 && Outline(row, maxValue)[|row| + 1].p.y == 450.0
    ensures Outline(row, maxValue)[0].p.x == 0.0 && Outline(row, maxValue)[|row| + 1].p.x == 640.0
  {
  }

  /** One row: the filled region in the series colour at opacity 0.2, then
      its markers. */
  function RowSection(row: seq<real>, idx: nat, maxValue: real, colors: Option<seq<string>>): (r: seq<Primitive>)
    requires |row| >= 2 && maxValue != 0.0
    ensures |r| >= 1
    ensures r[0] == Path(Outline(row, maxValue), Color(SeriesColor(colors, idx)), Color(SeriesColor(colors, idx)), 0.2)
    ensures r[1..] == Markers(Line.RowPoints(row, |row|, maxValue), row, Color(SeriesColor(colors, idx)))
  {
    var color := Color(SeriesColor(colors, idx));
    var points := Line.RowPoints(row, |row|, maxValue);
    var r := [Path(Outline(row, maxValue), color, color, 0.2)] + Markers(points, row, color);
    assert r[1..] == Markers(points, row, color);
    r
  }

  /** Every row has at least two values: area.rs divides by `len - 1` and
      subtracts one from the length of every row. */
  predicate Spaced(rows: seq<seq<real>>) {
    forall s :: 0 <= s < |rows| ==> |rows[s]| >= 2
  }

  /** A request the area chart can draw: a nonzero scale and spaced rows. */
  predicate Drawable(req: GraphRequest) {
    Scalable(req) && Spaced(PlotRows(req))
  }

  /** The sections of `rows`, numbered from 0. */
  function Sections(rows: seq<seq<real>>, maxValue: real, colors: Option<seq<string>>): (r: seq<seq<Primitive>>)
    requires maxValue != 0.0 && Spaced(rows)
    ensures |r| == |rows|
    ensures forall s :: 0 <= s < |rows| ==> r[s] == RowSection(rows[s], s, maxValue, colors)
  {
    seq(|rows|, s requires 0 <= s < |rows| => RowSection(rows[s], s, maxValue, colors))
  }

  /** Each row's section holds its region and one circle per value. */
  lemma SectionsShape(rows: seq<seq<real>>, maxValue: real, colors: Option<seq<string>>)
    requires maxValue != 0.0 && Spaced(rows)
    ensures forall s :: 0 <= s < |rows| ==> RowShaped(Sections(rows, maxValue, colors)[s], rows[s], true)
  {
    forall s | 0 <= s < |rows|
      ensures RowShaped(Sections(rows, maxValue, colors)[s], rows[s], true)
    {
      var r := RowSection(rows[s], s, maxValue, colors);
      assert r == [r[0]] + r[1..];
      PathThenMarkers(r[0], Line.RowPoints(rows[s], |rows[s]|, maxValue), rows[s], Color(SeriesColor(colors, s)));
    }
  }

  /** The marks of all rows: regions and markers, row by row. */
  function Marks(rows: seq<seq<real>>, maxValue: real, colors: Option<seq<string>>): (r: seq<Primitive>)
    requires maxValue != 0.0 && Spaced(rows)
    ensures Count(r, CircleKind) == LengthSum(rows) && Count(r, PathKind) == |rows| && Count(r, RectKind) == 0
  {
    var sections := Sections(rows, maxValue, colors);
    SectionsShape(rows, maxValue, colors);
    SectionsMarks(sections, rows, true);
    Flatten(sections)
  }

  /** What precedes the marks: labels, value ticks and the opaque x ticks. */
  function Decor(req: GraphRequest, maxValue: real, n: nat): (r: seq<Primitive>)
    ensures Count(r, CircleKind) == 0 && Count(r, PathKind) == 0 && Count(r, RectKind) == 0
  {
    var labels, ticks := Labels(req.title, req.xLabel, req.yLabel), YAxisTicks(maxValue);
    NoMarksConcat(labels, ticks);
    FrameCounts(labels + ticks, "generate_x_axis_ticks_for_line", n);
    labels + ticks + [Helper("generate_x_axis_ticks_for_line", n)]
  }

  /** What follows the marks: the legend when the request has series, then
      both axes. */
  function Trailer(req: GraphRequest): (r: seq<Primitive>)
    ensures Count(r, CircleKind) == 0 && Count(r, PathKind) == 0
    ensures Count(r, RectKind) == Swatches(req.series)
  {
    var legend := SeriesLegend(req.series, 520.0, 50.0);
    NoMarksCount(Axes());
    CountConcat(legend, Axes(), CircleKind);
    CountConcat(legend, Axes(), PathKind);
    CountConcat(legend, Axes(), RectKind);
    legend + Axes()
  }

  /** Labels, value ticks, the opaque x ticks, the regions, the legend when
      the request has series, and both axes last. */
  function Render(rows: seq<seq<real>>, maxValue: real, req: GraphRequest): (c: Canvas)
    requires |rows| >= 1 && maxValue != 0.0 && Spaced(rows)
    ensures c == Page(c.items)
    ensures Count(c.items, CircleKind) == LengthSum(rows)
    ensures Count(c.items, PathKind) == |rows|
    ensures Count(c.items, RectKind) == Swatches(req.series)
  {
    var decor, marks, trailer := Decor(req, maxValue, |rows[0]|), Marks(rows, maxValue, req.colors), Trailer(req);
    Layered(decor, marks, trailer)
  }

  /** The axes are drawn after everything else, over the regions. */
  lemma AxesOnTop(rows: seq<seq<real>>, maxValue: real, req: GraphRequest)
    requires |rows| >= 1 && maxValue != 0.0 && Spaced(rows)
    ensures AxesLast(Render(rows, maxValue, req).items)
  {
    AppendAxes(SeriesLegend(req.series, 520.0, 50.0));
    AxesStayLast(Decor(req, maxValue, |rows[0]|) + Marks(rows, maxValue, req.colors), Trailer(req));
  }

  /** `AreaChart::generate`: one region and one marker per value for each
      plotted row, axes on top. */
  function Generate(req: GraphRequest): (c: Canvas)
    requires Drawable(req)
    ensures AxesLast(c.items)
    ensures Count(c.items, CircleKind) == LengthSum(PlotRows(req))
    ensures Count(c.items, PathKind) == |PlotRows(req)|
    ensures Count(c.items, RectKind) == Swatches(req.series)
  {
    AxesOnTop(PlotRows(req), PlotMax(req).value, req);
    Render(PlotRows(req), PlotMax(req).value, req)
  }

  /** The region area.rs:48-82 draws as written, where the scale is the
      maximum over `request.series` alone. With at least one value in the
      series it is the region under that scale; with only flat data the
      scale is negative infinity, every point lands on the x axis and the
      region has no area. */
  function AsWrittenOutline(req: GraphRequest, row: seq<real>): (d: seq<PathCmd>)
    requires |row| >= 2 && (AsWrittenMax(req).Some? ==> AsWrittenMax(req).value != 0.0)
    ensures |d| == |row| + 3 && d[|row| + 2] == Close
    ensures forall i :: 0 <= i < |row| + 2 ==> (d[i].MoveTo? || d[i].LineTo?) && d[i].p.At?
    ensures req.series == [] ==> forall i :: 0 <= i < |row| + 2 ==> d[i].p.y == 450.0
    ensures AsWrittenMax(req).Some? ==> d == Outline(row, AsWrittenMax(req).value)
  {
    var n := |row|;
    var last := Line.PointX(n - 1, n);
    [MoveTo(At(0.0, 450.0))]
    + seq(n, i requires 0 <= i < n => LineTo(At(Line.PointX(i, n), Line.AsWrittenY(req, row[i]))))
    + [LineTo(At(last, 450.0)), Close]
  }

  /** The flat data [1, 2] as written: the region collapses onto the x axis.
      With the scale taken over the plotted rows, it rises to 250 over the
      first point and to the top tick over the second. */
  lemma FlatDataFinding()
    ensures var req := GraphRequest(GraphType.Area, [], [1.0, 2.0], None, None, None, None);
      && (forall i :: 0 <= i < 4 ==> AsWrittenOutline(req, [1.0, 2.0])[i].p.y == 450.0)
      && PlotMax(req) == Some(2.0)
      && Outline([1.0, 2.0], 2.0)[1].p.y == 250.0 && Outline([1.0, 2.0], 2.0)[2].p.y == 50.0
  {
    var req := GraphRequest(GraphType.Area, [], [1.0, 2.0], None, None, None, None);
    assert PlotRows(req) == [[1.0, 2.0]];
    assert PlotRows(req)[0][1] == 2.0;
    assert PlotMax(req) == Some(2.0);
  }
}
