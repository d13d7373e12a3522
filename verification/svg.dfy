/** The shared SVG helpers of src/utils/svg.rs: the plot frame, the legend,
    axis ticks and value labels. Coordinates are those of the plot group,
    which the canvas translates by (80, 50). */
module Svg {
  import opened Wrappers
  import opened Models
  import opened Drawing

  const Black: Paint := Color("black")
  const GridGray: Paint := Color("#CCCCCC")

  /** The x axis along y = 450 from x = 0 to 640 and the y axis along x = 0
      from y = 50 to 450. */
  function Axes(): seq<Primitive> {
    [Segment(At(0.0, 450.0), At(640.0, 450.0), Black), Segment(At(0.0, 50.0), At(0.0, 450.0), Black)]
  }

  /** The drawing ends with both axes, which are then drawn over everything else. */
  predicate AxesLast(items: seq<Primitive>) {
    |items| >= 2 && items[|items| - 2] == Axes()[0] && items[|items| - 1] == Axes()[1]
  }

  /** Appending the axes puts them last. */
  lemma AppendAxes(items: seq<Primitive>)
    ensures AxesLast(items + Axes())
  {
    var r := items + Axes();
    assert r[|r| - 2] == Axes()[0] && r[|r| - 1] == Axes()[1];
  }

  /** Whatever comes before a drawing that ends with the axes, they stay last. */
  lemma AxesStayLast(before: seq<Primitive>, items: seq<Primitive>)
    requires AxesLast(items)
    ensures AxesLast(before + items)
  {
    var r := before + items;
    assert r[|r| - 2] == items[|items| - 2] && r[|r| - 1] == items[|items| - 1];
  }

  /** Title, x-axis label and y-axis label, each only when given. */
  function Labels(title: Option<string>, xLabel: Option<string>, yLabel: Option<string>): (r: seq<Primitive>)
    ensures |r| == (if title.Some? then 1 else 0) + (if xLabel.Some? then 1 else 0) + (if yLabel.Some? then 1 else 0)
    ensures title.Some? ==> r[0] == Text(At(320.0, 30.0), Str(title.value), Middle, Unset)
    ensures forall i :: 0 <= i < |r| ==> KindOf(r[i]) == TextKind || KindOf(r[i]) == RotatedKind
  {
    (if title.Some? then [Text(At(320.0, 30.0), Str(title.value), Middle, Unset)] else [])
    + (if xLabel.Some? then [Text(At(320.0, 520.0), Str(xLabel.value), Middle, Unset)] else [])
    + (if yLabel.Some? then [Rotated(At(-280.0, -50.0), Str(yLabel.value), -90.0, At(0.0, 0.0))] else [])
  }

  /** `create_svg_header`: the optional labels, always followed by both axes. */
  function Header(title: Option<string>, xLabel: Option<string>, yLabel: Option<string>): (r: seq<Primitive>)
    ensures |r| >= 2 && r[|r| - 2..] == Axes()
    ensures r[..|r| - 2] == Labels(title, xLabel, yLabel)
    ensures NoMarks(r)
  {
    Labels(title, xLabel, yLabel) + Axes()
  }

  /** The 800 x 600 white page whose plot group is translated by (80, 50). */
  function Page(items: seq<Primitive>): (c: Canvas)
    ensures c.width == 800.0 && c.height == 600.0 && c.origin == At(80.0, 50.0) && c.items == items
  {
    Canvas(800.0, 600.0, Color("white"), At(80.0, 50.0), items)
  }

  /** The series that carry a name, in order: the rows of a legend. */
  function Named(series: seq<Series>): (r: seq<Series>)
    ensures |r| <= |series|
    ensures forall k :: 0 <= k < |r| ==> r[k].name.Some?
  {
    if |series| == 0 then []
    else if series[0].name.Some? then [series[0]] + Named(series[1..])
    else Named(series[1..])
  }

  /** A legend swatch shows the series colour, black when it has none. */
  function SwatchColor(s: Series): (p: Paint)
    ensures s.color.Some? ==> p == Color(s.color.value)
    ensures s.color.None? ==> p == Color("#000000")
  {
    Color(s.color.UnwrapOr("#000000"))
  }

  function LegendRow(s: Series, x: real, y: real): seq<Primitive>
    requires s.name.Some?
  {
    [Rect(x, y, 20.0, 20.0, SwatchColor(s)), Text(At(x + 25.0, y + 15.0), Str(s.name.value), Start, Unset)]
  }

  /** `create_legend`: for the k-th named series, a 20 x 20 swatch at
      (x, y + 25k) followed by its name at (x + 25, y + 25k + 15); unnamed
      series produce nothing and take no row. */
  function Legend(series: seq<Series>, x: real, y: real): (r: seq<Primitive>)
    ensures |r| == 2 * |Named(series)|
    ensures forall k :: 0 <= k < |Named(series)| ==>
      r[2 * k] == Rect(x, y + 25.0 * k as real, 20.0, 20.0, SwatchColor(Named(series)[k]))
    ensures forall k :: 0 <= k < |Named(series)| ==>
      r[2 * k + 1] == Text(At(x + 25.0, y + 25.0 * k as real + 15.0), Str(Named(series)[k].name.value), Start, Unset)
    decreases |series|
  {
    if |series| == 0 then []
    else if series[0].name.Some? then
      var rest := Legend(series[1..], x, y + 25.0);
      assert forall k :: 1 <= k < |Named(series)| ==> Named(series)[k] == Named(series[1..])[k - 1];
      LegendRow(series[0], x, y) + rest
    else
      Legend(series[1..], x, y)
  }

  /** A legend holds only swatches and names: one rectangle per named series. */
  lemma {:induction false} LegendCounts(series: seq<Series>, x: real, y: real)
    ensures Count(Legend(series, x, y), RectKind) == |Named(series)|
    ensures Count(Legend(series, x, y), CircleKind) == 0
    ensures Count(Legend(series, x, y), PathKind) == 0
    ensures Count(Legend(series, x, y), SegmentKind) == 0
    decreases |series|
  {
    if |series| > 0 {
      if series[0].name.Some? {
        var rest := Legend(series[1..], x, y + 25.0);
        LegendCounts(series[1..], x, y + 25.0);
        var row := LegendRow(series[0], x, y);
        assert Legend(series, x, y) == row + rest;
        assert |Named(series)| == 1 + |Named(series[1..])|;
        assert Count(row, RectKind) == 1 by { assert row[1..][1..] == []; }
        assert Count(row, CircleKind) == 0 by { assert row[1..][1..] == []; }
        assert Count(row, PathKind) == 0 by { assert row[1..][1..] == []; }
        assert Count(row, SegmentKind) == 0 by { assert row[1..][1..] == []; }
        forall k: Kind
          ensures Count(row + rest, k) == Count(row, k) + Count(rest, k)
        {
          CountConcat(row, rest, k);
        }
      } else {
        LegendCounts(series[1..], x, y);
        assert Legend(series, x, y) == Legend(series[1..], x, y);
      }
    }
  }

  /** How many swatches a legend shown only for requests with series holds:
      one per named series. */
  function Swatches(series: seq<Series>): nat {
    if series == [] then 0 else |Named(series)|
  }

  /** The legend a chart adds only when the request has series: one
      swatch per named series, no marker or path. */
  function SeriesLegend(series: seq<Series>, x: real, y: real): (r: seq<Primitive>)
    ensures series == [] ==> r == []
    ensures Count(r, RectKind) == Swatches(series)
    ensures Count(r, CircleKind) == 0 && Count(r, PathKind) == 0
  {
    LegendCounts(series, x, y);
    if series == [] then [] else Legend(series, x, y)
  }

  /** y of tick i on the value axis: 450 - (450 - 50) * i / 5. */
  function TickY(i: int): (y: real)
    ensures y == 450.0 - 80.0 * i as real
  {
    450.0 - ((450.0 - 50.0) * i as real / 5.0)
  }

  /** Label of tick i of the value axis: max_value / 5 * i, running from 0
      at the bottom tick to max_value at the top one. */
  function TickValue(maxValue: real, i: int): (v: real)
    ensures i == 0 ==> v == 0.0
    ensures i == 5 ==> v == maxValue
    ensures 0.0 <= maxValue && 0 <= i ==> 0.0 <= v
  {
    maxValue / 5.0 * i as real
  }

  /** Tick i of the value axis: a mark at y = TickY(i), the label
      TickValue(i) beside it, and a grid line across the plot at the
      same height. */
  function YTick(maxValue: real, i: int): (r: seq<Primitive>)
    ensures |r| == 3
    ensures r[0] == Segment(At(-5.0, TickY(i)), At(0.0, TickY(i)), Black)
    ensures r[1] == Text(At(-10.0, TickY(i) + 4.0), Num(TickValue(maxValue, i), 1), End, Unset)
    ensures r[2] == Segment(At(0.0, TickY(i)), At(640.0, TickY(i)), GridGray)
  {
    var y := TickY(i);
    [ Segment(At(-5.0, y), At(0.0, y), Black),
      Text(At(-10.0, y + 4.0), Num(TickValue(maxValue, i), 1), End, Unset),
      Segment(At(0.0, y), At(640.0, y), GridGray) ]
  }

  /** `generate_y_axis_ticks`: the six ticks i = 0..5 in order. */
  function YAxisTicks(maxValue: real): (r: seq<Primitive>)
    ensures |r| == 18
    ensures NoMarks(r)
    ensures forall i {:trigger YTick(maxValue, i)} :: 0 <= i <= 5 ==>
      r[3 * i] == YTick(maxValue, i)[0] && r[3 * i + 1] == YTick(maxValue, i)[1] && r[3 * i + 2] == YTick(maxValue, i)[2]
  {
    seq(18, k requires 0 <= k < 18 => YTick(maxValue, k / 3)[k % 3])
  }

  /** The bottom tick sits on the x axis labelled 0; the top one at y = 50
      labelled max_value. */
  lemma YAxisTicksEnds(maxValue: real)
    ensures YAxisTicks(maxValue)[1] == Text(At(-10.0, 454.0), Num(0.0, 1), End, Unset)
    ensures YAxisTicks(maxValue)[16] == Text(At(-10.0, 54.0), Num(maxValue, 1), End, Unset)
  {
    var r := YAxisTicks(maxValue);
    var bottom, top := YTick(maxValue, 0), YTick(maxValue, 5);
    assert r[1] == bottom[1] && r[16] == top[1];
    var b, t := bottom[1], top[1];
    assert b.at == At(-10.0, 454.0) && b.content == Num(0.0, 1) && b.anchor == End && b.fill == Unset;
    assert b == Text(b.at, b.content, b.anchor, b.fill);
    assert t.at == At(-10.0, 54.0) && t.content == Num(maxValue, 1) && t.anchor == End && t.fill == Unset;
    assert t == Text(t.at, t.content, t.anchor, t.fill);
  }

  /** x of category i when the plot width 640 is cut into n equal segments. */
  function TickX(i: nat, n: nat): (x: real)
    requires n > 0
    ensures i == 0 ==> x == 0.0
    ensures 0.0 <= x
  {
    i as real * (640.0 / n as real)
  }

  /** Category positions increase strictly and stay left of x = 640. */
  lemma TickXMonotone(n: nat, i: nat, j: nat)
    requires i < j <= n
    ensures TickX(i, n) < TickX(j, n)
    ensures j == n ==> TickX(j, n) == 640.0
  {
    var seg := 640.0 / n as real;
    MulStrictlyMonotone(i as real, j as real, seg);
  }

  lemma MulStrictlyMonotone(a: real, b: real, c: real)
    requires a < b && 0.0 < c
    ensures a * c < b * c
  {
    assert b * c - a * c == (b - a) * c;
  }

  /** The mark and the label i + 1 of category i. */
  function XTick(i: nat, n: nat): (r: seq<Primitive>)
    requires n > 0
    ensures |r| == 2
    ensures r[0] == Segment(At(TickX(i, n), 450.0), At(TickX(i, n), 455.0), Black)
    ensures r[1] == Text(At(TickX(i, n), 470.0), Int(i + 1), Middle, Unset)
  {
    var x := TickX(i, n);
    [Segment(At(x, 450.0), At(x, 455.0), Black), Text(At(x, 470.0), Int(i + 1), Middle, Unset)]
  }

  /** `generate_x_axis_ticks`: for each of n categories, a tick mark and the
      label i + 1 at x = i * (640 / n). */
  function XAxisTicks(n: nat): (r: seq<Primitive>)
    ensures |r| == 2 * n
    ensures NoMarks(r)
    ensures forall i :: 0 <= i < n ==> r[2 * i] == XTick(i, n)[0] && r[2 * i + 1] == XTick(i, n)[1]
  {
    seq(2 * n, k requires 0 <= k < 2 * n => XTick(k / 2, n)[k % 2])
  }

  /** The x ticks start at the y axis and increase strictly, staying left
      of the plot's right edge at 640. */
  lemma XAxisTicksInPlot(n: nat, i: nat, j: nat)
    requires i < j < n
    ensures XAxisTicks(n)[0].from.x == 0.0
    ensures 0.0 <= XAxisTicks(n)[2 * i].from.x < XAxisTicks(n)[2 * j].from.x < 640.0
  {
    var r := XAxisTicks(n);
    assert r[2 * 0] == XTick(0, n)[0];
    assert r[2 * i] == XTick(i, n)[0];
    assert r[2 * j] == XTick(j, n)[0];
    TickXMonotone(n, i, j);
    TickXMonotone(n, j, n);
  }

  /** `generate_value_text`: a value label with one decimal, centred 5 units above the point. */
  function ValueText(p: Point, value: real): (t: Primitive)
    ensures t.Text? && t.at == Above(p, 5.0) && t.content == Num(value, 1)
  {
    Text(Above(p, 5.0), Num(value, 1), Middle, Unset)
  }

  /** A marker (circle of radius 4) followed by its value label, for each point in order. */
  function Markers(points: seq<Point>, values: seq<real>, color: Paint): (r: seq<Primitive>)
    requires |points| == |values|
    ensures |r| == 2 * |points|
    ensures forall i :: 0 <= i < |points| ==>
      r[2 * i] == Circle(points[i], 4.0, color) && r[2 * i + 1] == ValueText(points[i], values[i])
  {
    if |points| == 0 then []
    else
      var rest := Markers(points[1..], values[1..], color);
      assert forall i :: 1 <= i < |points| ==> rest[2 * (i - 1)] == Circle(points[i], 4.0, color);
      [Circle(points[0], 4.0, color), ValueText(points[0], values[0])] + rest
  }

  /** Markers hold one circle and one text per point, and no bar or path. */
  lemma {:induction false} MarkersCounts(points: seq<Point>, values: seq<real>, color: Paint)
    requires |points| == |values|
    ensures Count(Markers(points, values, color), CircleKind) == |points|
    ensures Count(Markers(points, values, color), TextKind) == |points|
    ensures Count(Markers(points, values, color), RectKind) == 0
    ensures Count(Markers(points, values, color), PathKind) == 0
  {
    if |points| > 0 {
      var pair := [Circle(points[0], 4.0, color), ValueText(points[0], values[0])];
      var rest := Markers(points[1..], values[1..], color);
      MarkersCounts(points[1..], values[1..], color);
      assert Markers(points, values, color) == pair + rest;
      assert pair[1..][1..] == [];
      forall k: Kind
        ensures Count(pair + rest, k) == Count(pair, k) + Count(rest, k)
      {
        CountConcat(pair, rest, k);
      }
    }
  }

  /** A frame of decoration followed by one opaque helper's output holds
      no bar, marker or path. */
  lemma FrameCounts(frame: seq<Primitive>, name: string, n: int)
    requires NoMarks(frame)
    ensures Count(frame + [Helper(name, n)], RectKind) == 0
    ensures Count(frame + [Helper(name, n)], CircleKind) == 0
    ensures Count(frame + [Helper(name, n)], PathKind) == 0
  {
    NoMarksConcat(frame, [Helper(name, n)]);
    NoMarksCount(frame + [Helper(name, n)]);
  }

  /** A path followed by markers: one path, a circle per point, no bar. */
  lemma PathThenMarkers(head: Primitive, points: seq<Point>, values: seq<real>, color: Paint)
    requires head.Path? && |points| == |values|
    ensures Count([head] + Markers(points, values, color), PathKind) == 1
    ensures Count([head] + Markers(points, values, color), CircleKind) == |points|
    ensures Count([head] + Markers(points, values, color), RectKind) == 0
  {
    var marks := Markers(points, values, color);
    MarkersCounts(points, values, color);
    CountConcat([head], marks, PathKind);
    CountConcat([head], marks, CircleKind);
    CountConcat([head], marks, RectKind);
  }

  /** A row's section holds a circle per value of the row, no bar, and one
      path exactly when the chart draws one per row. */
  predicate RowShaped(section: seq<Primitive>, row: seq<real>, withPath: bool) {
    Count(section, PathKind) == (if withPath then 1 else 0)
    && Count(section, CircleKind) == |row| && Count(section, RectKind) == 0
  }

  /** Sections shaped after their rows, counted together. */
  lemma {:induction false} RowSectionsCounts(sections: seq<seq<Primitive>>, rows: seq<seq<real>>, withPath: bool)
    requires |sections| == |rows|
    requires forall s :: 0 <= s < |rows| ==> RowShaped(sections[s], rows[s], withPath)
    ensures CountEach(sections, PathKind) == (if withPath then |rows| else 0)
    ensures CountEach(sections, CircleKind) == LengthSum(rows)
    ensures CountEach(sections, RectKind) == 0
  {
    if |rows| > 0 {
      assert forall s :: 1 <= s < |rows| ==> sections[1..][s - 1] == sections[s] && rows[1..][s - 1] == rows[s];
      RowSectionsCounts(sections[1..], rows[1..], withPath);
    }
  }

  /** The marks of plotted rows laid out section by section: a circle per
      value, a path per row when the chart draws one, no rectangle. */
  lemma SectionsMarks(sections: seq<seq<Primitive>>, rows: seq<seq<real>>, withPath: bool)
    requires |sections| == |rows|
    requires forall s :: 0 <= s < |rows| ==> RowShaped(sections[s], rows[s], withPath)
    ensures Count(Flatten(sections), CircleKind) == LengthSum(rows)
    ensures Count(Flatten(sections), PathKind) == (if withPath then |rows| else 0)
    ensures Count(Flatten(sections), RectKind) == 0
  {
    RowSectionsCounts(sections, rows, withPath);
    CountFlatten(sections, CircleKind);
    CountFlatten(sections, PathKind);
    CountFlatten(sections, RectKind);
  }



  /** A page drawn in three layers: decoration first, then the marks, then
      what goes on top (a legend, possibly the axes). The page holds the
      bars, markers and paths of its layers together. */
  function Layered(decor: seq<Primitive>, marks: seq<Primitive>, top: seq<Primitive>): (c: Canvas)
    ensures c == Page(c.items) && c.items == decor + marks + top
    ensures Count(c.items, CircleKind) == Count(decor, CircleKind) + Count(marks, CircleKind) + Count(top, CircleKind)
    ensures Count(c.items, PathKind) == Count(decor, PathKind) + Count(marks, PathKind) + Count(top, PathKind)
    ensures Count(c.items, RectKind) == Count(decor, RectKind) + Count(marks, RectKind) + Count(top, RectKind)
  {
    ThreeParts(decor, marks, top, CircleKind);
    ThreeParts(decor, marks, top, PathKind);
    ThreeParts(decor, marks, top, RectKind);
    Page(decor + marks + top)
  }


}
