/** `MultiLineChart::generate` (src/charts/multi_line.rs): every non-empty
    series becomes a path through its points, x by point index and y by
    value, both scaled to the data's own range, with a marker per point, a
    square grid, tick labels and a legend of coloured strokes. */
module MultiLine {
  import opened Wrappers
  import opened Numeric
  import opened Models
  import opened Drawing
  import opened Margins
  import opened ChartCommon
  import Line

  /** Whether each point gets a marker, and whether the path curves
      (quadratic pieces) instead of running straight between points. */
  datatype Settings = Settings(showPoints: bool, smooth: bool)

  const Default: Settings := Settings(true, false)

  /** The largest point index of any series, and 0 without points: the
      `max_x` fold, which starts at 0. */
  function MaxX(series: seq<Series>): (x: nat)
    ensures forall s :: 0 <= s < |series| ==> |series[s].data| <= x + 1
    ensures Longest(series) >= 1 ==> x + 1 == Longest(series)
  {
    if Longest(series) == 0 then 0 else Longest(series) - 1
  }

  /** Some series has a point. */
  lemma SomePoint(series: seq<Series>)
    requires Longest(series) >= 1
    ensures MinOfRows(ValueRows(series)).Some? && MaxOfRows(ValueRows(series)).Some?
  {
    var rows := ValueRows(series);
    var s :| 0 <= s < |series| && |series[s].data| == Longest(series);
    RowWithinSum(rows, s);
  }

  /** Whether anything is drawn: some series, two point indices at least,
      and values that are not all equal. */
  predicate Draws(series: seq<Series>) {
    series != [] && Longest(series) >= 2
    && MinOfRows(ValueRows(series)).Some? && MaxOfRows(ValueRows(series)).Some?
    && MinOfRows(ValueRows(series)).value < MaxOfRows(ValueRows(series)).value
  }

  /** The scales of a drawn chart: the largest index and the value range. */
  datatype Scale = Scale(maxX: nat, minY: real, maxY: real)

  predicate Valid(sc: Scale) {
    sc.maxX > 0 && sc.minY < sc.maxY
  }

  /** The scale of drawable series. */
  function ScaleOf(series: seq<Series>): (sc: Scale)
    requires Draws(series)
    ensures Valid(sc)
    ensures sc.maxX == MaxX(series)
    ensures forall s, i :: 0 <= s < |series| && 0 <= i < |series[s].data| ==> sc.minY <= series[s].data[i].value <= sc.maxY
    ensures exists s, i :: 0 <= s < |series| && 0 <= i < |series[s].data| && series[s].data[i].value == sc.minY
    ensures exists s, i :: 0 <= s < |series| && 0 <= i < |series[s].data| && series[s].data[i].value == sc.maxY
  {
    var rows := ValueRows(series);
    var lo, hi := MinOfRows(rows).value, MaxOfRows(rows).value;
    assert forall s, i :: 0 <= s < |series| && 0 <= i < |series[s].data| ==> rows[s][i] == series[s].data[i].value;
    Scale(MaxX(series), lo, hi)
  }

  /** x of point index `i`: 60 + i / max_x * 680. */
  function X(i: real, sc: Scale): real
    requires Valid(sc)
  {
    Left + i / sc.maxX as real * (Right - Left)
  }

  /** y of value `v`: 540 - (v - min_y) / (max_y - min_y) * 480. */
  function Y(v: real, sc: Scale): real
    requires Valid(sc)
  {
    Bottom - (v - sc.minY) / (sc.maxY - sc.minY) * (Bottom - Top)
  }

  /** Index 0 sits on the y axis and the largest index on the right edge;
      later indices lie further right. */
  lemma XSpan(i: nat, j: nat, sc: Scale)
    requires Valid(sc) && i < j <= sc.maxX
    ensures X(0.0, sc) == Left && X(sc.maxX as real, sc) == Right
    ensures Left <= X(i as real, sc) < X(j as real, sc) <= Right
  {
    var m := sc.maxX as real;
    SelfQuotient(m);
    Between(i as real, j as real, m);
  }

  /** The smallest value sits on the x axis and the largest on the top
      edge; larger values lie higher, and every value in the range lies in
      the plot. */
  lemma YSpan(u: real, v: real, sc: Scale)
    requires Valid(sc) && sc.minY <= u < v <= sc.maxY
    ensures Y(sc.minY, sc) == Bottom && Y(sc.maxY, sc) == Top
    ensures Top <= Y(v, sc) < Y(u, sc) <= Bottom
  {
    var d := sc.maxY - sc.minY;
    SelfQuotient(d);
    Between(u - sc.minY, v - sc.minY, d);
  }

  /** For 0 <= a < b <= m: 0 <= a / m < b / m <= 1. */
  lemma Between(a: real, b: real, m: real)
    requires 0.0 <= a < b <= m
    ensures 0.0 <= a / m < b / m <= 1.0
  {
    assert a / m * m == a && b / m * m == b;
  }

  /** The points of series `p`. */
  function Points(p: Series, sc: Scale): (r: seq<Point>)
    requires Valid(sc)
    ensures |r| == |p.data|
    ensures forall i :: 0 <= i < |r| ==> r[i] == At(X(i as real, sc), Y(p.data[i].value, sc))
  {
    seq(|p.data|, i requires 0 <= i < |p.data| => At(X(i as real, sc), Y(p.data[i].value, sc)))
  }

  /** A point whose index is at most max_x and whose value lies in the
      value range is drawn inside the plot area [60, 740] x [60, 540]. */
  lemma PointInside(p: Series, sc: Scale, i: nat)
    requires Valid(sc) && i < |p.data| && i <= sc.maxX && sc.minY <= p.data[i].value <= sc.maxY
    ensures Left <= Points(p, sc)[i].x <= Right && Top <= Points(p, sc)[i].y <= Bottom
  {
    var v := p.data[i].value;
    if i < sc.maxX { XSpan(i, sc.maxX, sc); } else { XSpan(0, sc.maxX, sc); }
    if v < sc.maxY { YSpan(v, sc.maxY, sc); } else { YSpan(sc.minY, sc.maxY, sc); }
  }

  /** Every point of every series of a drawn chart lies inside the plot area. */
  lemma PointsInsidePlot(series: seq<Series>, s: nat, i: nat)
    requires Draws(series) && s < |series| && i < |series[s].data|
    ensures Left <= Points(series[s], ScaleOf(series))[i].x <= Right
    ensures Top <= Points(series[s], ScaleOf(series))[i].y <= Bottom
  {
    PointInside(series[s], ScaleOf(series), i);
  }

  /** The path commands through points at `xs` / `ys`: a move to the first,
      then to each later point either a straight line or, smoothed, a
      quadratic piece whose control point sits at the new point's height
      halfway across from the previous point. */
  function Trace(xs: seq<real>, ys: seq<real>, smooth: bool): (d: seq<PathCmd>)
    requires |xs| == |ys|
    ensures |d| == |xs|
    ensures |xs| > 0 ==> d[0] == MoveTo(At(xs[0], ys[0]))
    ensures forall i :: 0 < i < |xs| ==>
      d[i] == (if smooth then QuadTo(At((xs[i - 1] + xs[i]) / 2.0, ys[i]), At(xs[i], ys[i])) else LineTo(At(xs[i], ys[i])))
  {
    seq(|xs|, i requires 0 <= i < |xs| =>
      if i == 0 then MoveTo(At(xs[0], ys[0]))
      else if smooth then QuadTo(At((xs[i - 1] + xs[i]) / 2.0, ys[i]), At(xs[i], ys[i]))
      else LineTo(At(xs[i], ys[i])))
  }

  /** Unsmoothed, the path is the plain polyline through the points. */
  lemma StraightTrace(xs: seq<real>, ys: seq<real>)
    requires |xs| == |ys|
    ensures Trace(xs, ys, false) == Line.Polyline(seq(|xs|, i requires 0 <= i < |xs| => At(xs[i], ys[i])))
  {
  }

  /** Smoothed, each piece ends on its point and bends through a control
      point that lies between the previous point and this one. */
  lemma SmoothControl(xs: seq<real>, ys: seq<real>, i: nat)
    requires |xs| == |ys| && 0 < i < |xs| && xs[i - 1] < xs[i]
    ensures Trace(xs, ys, true)[i].QuadTo? && Trace(xs, ys, true)[i].p == At(xs[i], ys[i])
    ensures xs[i - 1] < Trace(xs, ys, true)[i].ctrl.x < xs[i]
    ensures Trace(xs, ys, true)[i].ctrl.y == ys[i]
  {
  }

  /** The colour of series `idx`: its own, else the palette's entry cycled. */
  function Hue(p: Series, idx: nat, colors: Option<seq<string>>): (c: string)
    requires colors != Some([])
    ensures p.color.Some? ==> c == p.color.value
    ensures p.color.None? ==> c == CycledColor(colors, Palette8(), idx)
  {
    if p.color.Some? then p.color.value else CycledColor(colors, Palette8(), idx)
  }

  /** The section of series `idx`: nothing for an empty series, else its
      unfilled path in its colour, then a radius-4 marker in that colour at
      every point when markers are on. */
  function Section(p: Series, idx: nat, sc: Scale, st: Settings, colors: Option<seq<string>>): (r: seq<Primitive>)
    requires Valid(sc) && colors != Some([])
    ensures p.data == [] ==> r == []
    ensures |r| == (if p.data == [] then 0 else 1 + (if st.showPoints then |p.data| else 0))
    ensures p.data != [] ==> r[0].Path? && r[0].stroke == Color(Hue(p, idx, colors)) && r[0].fill == NoPaint
    ensures p.data != [] ==> |r[0].d| == |p.data| && r[0].d[0] == MoveTo(Points(p, sc)[0])
    ensures forall i :: 0 < i < |r| ==> r[i] == Circle(Points(p, sc)[i - 1], 4.0, Color(Hue(p, idx, colors)))
    ensures Count(r, PathKind) == (if p.data == [] then 0 else 1)
    ensures Count(r, CircleKind) == (if st.showPoints then |p.data| else 0)
    ensures Count(r, RectKind) == 0 && Count(r, SegmentKind) == 0
  {
    if p.data == [] then []
    else
      var hue, points := Color(Hue(p, idx, colors)), Points(p, sc);
      var xs := seq(|points|, i requires 0 <= i < |points| => points[i].x);
      var ys := seq(|points|, i requires 0 <= i < |points| => points[i].y);
      var markers := if st.showPoints then seq(|points|, i requires 0 <= i < |points| => Circle(points[i], 4.0, hue)) else [];
      CountUniform(markers, CircleKind);
      CountNone(markers, PathKind);
      CountNone(markers, RectKind);
      CountNone(markers, SegmentKind);
      var head := [Path(Trace(xs, ys, st.smooth), NoPaint, hue, 1.0)];
      CountConcat(head, markers, PathKind);
      CountConcat(head, markers, CircleKind);
      CountConcat(head, markers, RectKind);
      CountConcat(head, markers, SegmentKind);
      head + markers
  }

  /** Counting the sections of all series. */
  lemma {:induction false} SectionsCount(series: seq<Series>, from: nat, sc: Scale, st: Settings, colors: Option<seq<string>>)
    requires Valid(sc) && colors != Some([])
    ensures Count(Sections(series, from, sc, st, colors), PathKind) == NonEmpty(series)
    ensures Count(Sections(series, from, sc, st, colors), CircleKind) == (if st.showPoints then PointCount(series) else 0)
    ensures Count(Sections(series, from, sc, st, colors), RectKind) == 0
    ensures Count(Sections(series, from, sc, st, colors), SegmentKind) == 0
    decreases |series|
  {
    if |series| > 0 {
      SectionsCount(series[1..], from + 1, sc, st, colors);
      var head := Section(series[0], from, sc, st, colors);
      var rest := Sections(series[1..], from + 1, sc, st, colors);
      CountConcat(head, rest, PathKind);
      CountConcat(head, rest, CircleKind);
      CountConcat(head, rest, RectKind);
      CountConcat(head, rest, SegmentKind);
    }
  }

  /** The sections of `series`, the first numbered `from`. */
  function Sections(series: seq<Series>, from: nat, sc: Scale, st: Settings, colors: Option<seq<string>>): seq<Primitive>
    requires Valid(sc) && colors != Some([])
    decreases |series|
  {
    if |series| == 0 then []
    else Section(series[0], from, sc, st, colors) + Sections(series[1..], from + 1, sc, st, colors)
  }

  /** The number of series with at least one point. */
  function NonEmpty(series: seq<Series>): nat {
    if |series| == 0 then 0 else (if series[0].data == [] then 0 else 1) + NonEmpty(series[1..])
  }

  /** Vertical grid line `i` of 6, from the y axis (i = 0) to the right edge. */
  function Upright(i: nat): (r: Primitive)
    ensures r == Segment(At(Left + 136.0 * i as real, Top), At(Left + 136.0 * i as real, Bottom), Unset)
  {
    var x := Left + (Right - Left) * i as real / 5.0;
    Segment(At(x, Top), At(x, Bottom), Unset)
  }

  /** The grid: for each of the six levels a horizontal line, then a vertical
      one, so that the plot is split into 5 x 5 cells. */
  function Grid(): (r: seq<Primitive>)
    ensures |r| == 12 && forall i :: 0 <= i < 6 ==> r[2 * i] == GridLine(i) && r[2 * i + 1] == Upright(i)
    ensures NoMarks(r) && Count(r, SegmentKind) == 12
  {
    var r := seq(12, k requires 0 <= k < 12 => if k % 2 == 0 then GridLine(k / 2) else Upright(k / 2));
    CountUniform(r, SegmentKind);
    r
  }

  /** Index label `i` of six: a fifth of max_x per step, no decimals. */
  function IndexLabel(i: nat, sc: Scale): Primitive {
    Text(At(Left + 136.0 * i as real, 560.0), Num(sc.maxX as real * i as real / 5.0, 0), Middle, Unset)
  }

  /** The six index labels under the x axis, 0 to max_x. */
  function IndexLabels(sc: Scale): (r: seq<Primitive>)
    ensures |r| == 6 && forall i :: 0 <= i < 6 ==> r[i] == IndexLabel(i, sc)
    ensures NoMarks(r) && Count(r, SegmentKind) == 0
  {
    var r := seq(6, i requires 0 <= i < 6 => IndexLabel(i, sc));
    assert forall i :: 0 <= i < |r| ==> r[i].Text?;
    TextsOnly(r);
    r
  }

  /** Value label `i` of six: a fifth of the value range per step up from min_y, one decimal. */
  function ValueLabel(i: nat, sc: Scale): Primitive {
    Text(At(50.0, LevelY(i)), Num(sc.minY + (sc.maxY - sc.minY) * i as real / 5.0, 1), End, Unset)
  }

  /** The six value labels up the y axis, min_y to max_y. */
  function ValueLabels(sc: Scale): (r: seq<Primitive>)
    ensures |r| == 6 && forall i :: 0 <= i < 6 ==> r[i] == ValueLabel(i, sc)
    ensures NoMarks(r) && Count(r, SegmentKind) == 0
  {
    var r := seq(6, i requires 0 <= i < 6 => ValueLabel(i, sc));
    assert forall i :: 0 <= i < |r| ==> r[i].Text?;
    TextsOnly(r);
    r
  }

  /** The outer labels name the data's own extremes: index 0 and max_x
      along x, min_y and max_y along y. */
  lemma LabelsSpanData(sc: Scale)
    ensures IndexLabels(sc)[0].content == Num(0.0, 0) && IndexLabels(sc)[5].content == Num(sc.maxX as real, 0)
    ensures ValueLabels(sc)[0].content == Num(sc.minY, 1) && ValueLabels(sc)[5].content == Num(sc.maxY, 1)
  {
  }

  /** Legend row `s`: a 20-unit stroke in the series colour, then its name. */
  function LegendRow(p: Series, s: nat, colors: Option<seq<string>>): (r: seq<Primitive>)
    requires colors != Some([])
    ensures r == [Segment(At(650.0, LegendY(s) - 6.0), At(670.0, LegendY(s) - 6.0), Color(Hue(p, s, colors))),
                  Text(At(675.0, LegendY(s)), SeriesName(p, s), Start, Unset)]
    ensures NoMarks(r) && Count(r, SegmentKind) == 1
  {
    var r := [Segment(At(650.0, LegendY(s) - 6.0), At(670.0, LegendY(s) - 6.0), Color(Hue(p, s, colors))),
              Text(At(675.0, LegendY(s)), SeriesName(p, s), Start, Unset)];
    assert r[1..][1..] == [];
    r
  }

  /** The heading, then a row for every series, empty ones included. */
  function Legend(series: seq<Series>, colors: Option<seq<string>>): (r: seq<Primitive>)
    requires colors != Some([])
    ensures |r| == 1 + 2 * |series| && r[0] == LegendHead()
    ensures forall s :: 0 <= s < |series| ==> r[1 + 2 * s] == LegendRow(series[s], s, colors)[0] && r[2 + 2 * s] == LegendRow(series[s], s, colors)[1]
    ensures NoMarks(r) && Count(r, SegmentKind) == |series|
  {
    var rows := seq(|series|, s requires 0 <= s < |series| => LegendRow(series[s], s, colors));
    CountFlatten(rows, SegmentKind);
    CountEachUniform(rows, SegmentKind, 1);
    FlattenPairs(rows);
    FlatNoMarks(rows);
    NoMarksConcat([LegendHead()], Flatten(rows));
    CountConcat([LegendHead()], Flatten(rows), SegmentKind);
    [LegendHead()] + Flatten(rows)
  }

  /** The axes, the index and value labels and the axis titles. */
  function Frame(sc: Scale, req: GraphRequest): (r: seq<Primitive>)
    ensures |r| >= 2 && r[..2] == PlotAxes()
    ensures NoMarks(r) && Count(r, SegmentKind) == 2
  {
    var axes, below, left, titles := PlotAxes(), IndexLabels(sc), ValueLabels(sc), AxisTitles(req.xLabel, req.yLabel);
    NoMarksConcat(axes, below);
    NoMarksConcat(axes + below, left);
    NoMarksConcat(axes + below + left, titles);
    FourParts(axes, below, left, titles, SegmentKind);
    axes + below + left + titles
  }

  /** The title when given, then the grid. */
  function TitledGrid(title: Option<string>): (r: seq<Primitive>)
    ensures r == Title(title) + Grid()
    ensures NoMarks(r) && Count(r, SegmentKind) == 12
  {
    NoMarksConcat(Title(title), Grid());
    CountConcat(Title(title), Grid(), SegmentKind);
    CountNone(Title(title), SegmentKind);
    Title(title) + Grid()
  }

  /** The title and grid, then the series, then the axes, tick labels, axis
      titles and legend. */
  function Render(st: Settings, req: GraphRequest, sc: Scale): (c: Canvas)
    requires Valid(sc) && req.colors != Some([])
    ensures c.width == 800.0 && c.height == 600.0 && c.background == Color("white")
    ensures Count(c.items, PathKind) == NonEmpty(req.series)
    ensures Count(c.items, CircleKind) == (if st.showPoints then PointCount(req.series) else 0)
    ensures Count(c.items, RectKind) == 0
    ensures Count(c.items, SegmentKind) == 14 + |req.series|
  {
    var back, lines, frame, legend := TitledGrid(req.title), Sections(req.series, 0, sc, st, req.colors), Frame(sc, req), Legend(req.series, req.colors);
    NoMarksCount(back);
    NoMarksCount(frame);
    NoMarksCount(legend);
    SectionsCount(req.series, 0, sc, st, req.colors);
    FourParts(back, lines, frame, legend, PathKind);
    FourParts(back, lines, frame, legend, CircleKind);
    FourParts(back, lines, frame, legend, RectKind);
    FourParts(back, lines, frame, legend, SegmentKind);
    Canvas(800.0, 600.0, Color("white"), At(0.0, 0.0), back + lines + frame + legend)
  }

  /** `MultiLineChart::generate`: nothing without series, without two point
      indices or when every value is the same; otherwise a white 800 x 600
      page with one path per non-empty series, a marker per point when
      markers are on, and 14 grid and axis lines plus a legend stroke per
      series. The palette index is taken modulo the number of colours, so
      an empty colour list makes the source panic whenever something is
      drawn. */
  function Generate(st: Settings, req: GraphRequest): (r: Rendering)
    requires Draws(req.series) ==> req.colors != Some([])
    ensures req.series == [] || Longest(req.series) <= 1 ==> r.Blank?
    ensures Longest(req.series) >= 2 ==>
      MinOfRows(ValueRows(req.series)).Some? && MaxOfRows(ValueRows(req.series)).Some? && (r.Blank? <==> MaxOfRows(ValueRows(req.series)).value <= MinOfRows(ValueRows(req.series)).value)
    ensures r.Drawn? ==> r.canvas.width == 800.0 && r.canvas.height == 600.0 && r.canvas.background == Color("white")
    ensures r.Drawn? ==> Count(r.canvas.items, PathKind) == NonEmpty(req.series)
    ensures r.Drawn? ==> Count(r.canvas.items, CircleKind) == (if st.showPoints then PointCount(req.series) else 0)
    ensures r.Drawn? ==> Count(r.canvas.items, RectKind) == 0 && Count(r.canvas.items, SegmentKind) == 14 + |req.series|
  {
    if Longest(req.series) <= 1 then Blank
    else
      SomePoint(req.series);
      if !Draws(req.series) then Blank else Drawn(Render(st, req, ScaleOf(req.series)))
  }
}
