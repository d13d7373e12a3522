/** `ScatterChart::generate` (src/charts/scatter.rs): the points of the
    line chart without the lines joining them, under a rounded-up scale.
    The rounding (`svg::nice_max`) is not part of this model; it is the
    parameter `niceMax`. */
module Scatter {
  import opened Wrappers
  import opened Models
  import opened Drawing
  import opened Svg
  import opened ChartCommon
  import Line

  /** One row: a marker and a value label per value, in the series colour. */
  function RowSection(row: seq<real>, idx: nat, n: nat, maxValue: real, colors: Option<seq<string>>): (r: seq<Primitive>)
    requires n != 1 && maxValue != 0.0
    ensures RowShaped(r, row, false)
  {
    var points := Line.RowPoints(row, n, maxValue);
    MarkersCounts(points, row, Color(SeriesColor(colors, idx)));
    Markers(points, row, Color(SeriesColor(colors, idx)))
  }

  /** A scatter row is the line chart's row under the same scale without its
      polyline: the same markers at the same places, in the same colour. */
  lemma LineWithoutPaths(row: seq<real>, idx: nat, n: nat, maxValue: real, colors: Option<seq<string>>)
    requires n != 1 && maxValue != 0.0
    ensures RowSection(row, idx, n, maxValue, colors) == Line.RowSection(row, idx, n, maxValue, colors)[1..]
    ensures Line.RowSection(row, idx, n, maxValue, colors)[0].Path?
  {
  }

  /** The markers of all rows, row by row. */
  function Marks(rows: seq<seq<real>>, n: nat, maxValue: real, colors: Option<seq<string>>): (r: seq<Primitive>)
    requires n != 1 && maxValue != 0.0
    ensures Count(r, CircleKind) == LengthSum(rows) && Count(r, PathKind) == 0 && Count(r, RectKind) == 0
  {
    var sections := seq(|rows|, s requires 0 <= s < |rows| => RowSection(rows[s], s, n, maxValue, colors));
    SectionsMarks(sections, rows, false);
    Flatten(sections)
  }

  /** The drawing of value rows under a scale: decoration, markers, then the
      legend at (660, 50) when the request has series. */
  function Render(rows: seq<seq<real>>, maxValue: real, req: GraphRequest): (c: Canvas)
    requires |rows| >= 1 && |rows[0]| != 1 && maxValue != 0.0
    ensures c == Page(c.items)
    ensures Count(c.items, CircleKind) == LengthSum(rows)
    ensures Count(c.items, PathKind) == 0
    ensures Count(c.items, RectKind) == Swatches(req.series)
  {
    var decor, marks, legend := Line.Decor(req, maxValue, |rows[0]|), Marks(rows, |rows[0]|, maxValue, req.colors), SeriesLegend(req.series, 660.0, 50.0);
    Layered(decor, marks, legend)
  }

  /** A request the scatter chart can draw under the rounding `niceMax`:
      something to plot, a nonzero rounded scale and a first row whose
      spacing is defined. */
  predicate Drawable(req: GraphRequest, niceMax: real -> real) {
    PlotMax(req).Some? && niceMax(PlotMax(req).value) != 0.0 && |PlotRows(req)[0]| != 1
  }

  /** `ScatterChart::generate`: one marker per plotted value, no path, and a
      legend swatch per named series only when the request has series. */
  function Generate(req: GraphRequest, niceMax: real -> real): (c: Canvas)
    requires Drawable(req, niceMax)
    ensures Count(c.items, CircleKind) == LengthSum(PlotRows(req))
    ensures Count(c.items, PathKind) == 0
    ensures Count(c.items, RectKind) == Swatches(req.series)
  {
    Render(PlotRows(req), niceMax(PlotMax(req).value), req)
  }

  /** The flat data [1, 2] as written: scatter.rs:25-26 rounds the maximum
      over `request.series` alone, which without series is negative
      infinity and so outside every rounding `niceMax` of this model. The
      scale over the plotted rows is 2, which `niceMax` then rounds. */
  lemma FlatDataFinding()
    ensures var req := GraphRequest(GraphType.Scatter, [], [1.0, 2.0], None, None, None, None);
      AsWrittenMax(req).None? && PlotMax(req) == Some(2.0)
      && forall niceMax: real -> real :: Drawable(req, niceMax) <==> niceMax(2.0) != 0.0
  {
    var req := GraphRequest(GraphType.Scatter, [], [1.0, 2.0], None, None, None, None);
    assert PlotRows(req) == [[1.0, 2.0]];
    assert PlotRows(req)[0][1] == 2.0;
    assert PlotMax(req) == Some(2.0);
  }
}
