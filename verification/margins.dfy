/** The frame shared by the histogram, stacked bar, multi-line and
    candlestick layouts: an untranslated 800 x 600 page whose plot area
    spans x 60..740 and y 60..540, six dashed horizontal grid lines, both
    axes along the plot's left and bottom edges, and the optional title and
    axis titles. */
module Margins {
  import opened Wrappers
  import opened Models
  import opened Drawing

  const Left: real := 60.0
  const Right: real := 740.0
  const Top: real := 60.0
  const Bottom: real := 540.0

  /** The title centred above the plot, when given. */
  function Title(title: Option<string>): (r: seq<Primitive>)
    ensures |r| == (if title.Some? then 1 else 0)
    ensures NoMarks(r)
  {
    if title.Some? then [Text(At(400.0, 30.0), Str(title.value), Middle, Unset)] else []
  }

  /** Horizontal grid line `i` of 6, from the top of the plot (i = 0) to its
      bottom (i = 5), 96 units apart. */
  function GridLine(i: nat): (r: Primitive)
    ensures r == Segment(At(Left, Top + 96.0 * i as real), At(Right, Top + 96.0 * i as real), Unset)
  {
    Segment(At(Left, Top + 480.0 * i as real / 5.0), At(Right, Top + 480.0 * i as real / 5.0), Unset)
  }

  /** The six horizontal grid lines, top to bottom. */
  function GridLines(): (r: seq<Primitive>)
    ensures |r| == 6 && forall i :: 0 <= i < 6 ==> r[i] == GridLine(i)
    ensures NoMarks(r) && Count(r, SegmentKind) == 6
  {
    var r := seq(6, i requires 0 <= i < 6 => GridLine(i));
    CountUniform(r, SegmentKind);
    r
  }

  /** The title when given, then the six grid lines. */
  function Backdrop(title: Option<string>): (r: seq<Primitive>)
    ensures r == Title(title) + GridLines()
    ensures NoMarks(r) && Count(r, SegmentKind) == 6
  {
    var head := Title(title);
    NoMarksConcat(head, GridLines());
    CountNone(head, SegmentKind);
    CountConcat(head, GridLines(), SegmentKind);
    head + GridLines()
  }

  /** The x axis along the bottom of the plot, then the y axis along its left edge. */
  function PlotAxes(): (r: seq<Primitive>)
    ensures |r| == 2 && r[0].Segment? && r[1].Segment?
    ensures r[0].from == At(Left, Bottom) && r[0].to == At(Right, Bottom)
    ensures r[1].from == At(Left, Top) && r[1].to == At(Left, Bottom)
    ensures NoMarks(r) && Count(r, SegmentKind) == 2
  {
    var r := [Segment(At(Left, Bottom), At(Right, Bottom), Unset), Segment(At(Left, Top), At(Left, Bottom), Unset)];
    CountUniform(r, SegmentKind);
    r
  }

  /** The x-axis title below the plot and the y-axis title turned a quarter
      left at (20, 300), each when given. */
  function AxisTitles(xLabel: Option<string>, yLabel: Option<string>): (r: seq<Primitive>)
    ensures |r| == (if xLabel.Some? then 1 else 0) + (if yLabel.Some? then 1 else 0)
    ensures NoMarks(r) && Count(r, SegmentKind) == 0
  {
    var r := (if xLabel.Some? then [Text(At(400.0, 590.0), Str(xLabel.value), Middle, Unset)] else [])
      + (if yLabel.Some? then [Rotated(At(20.0, 300.0), Str(yLabel.value), -90.0, At(20.0, 300.0))] else []);
    CountNone(r, SegmentKind);
    r
  }

  /** y of the baseline of value label `i` of 6, bottom (i = 0) to top. */
  function LevelY(i: nat): real {
    Bottom - 480.0 * i as real / 5.0 + 4.0
  }

  /** The bold heading of the series legend at (650, 60). */
  function LegendHead(): Primitive {
    Text(At(650.0, 60.0), Str("Legend"), Start, Unset)
  }

  /** y of legend row `k`: the rows start 20 below the heading, 18 apart. */
  function LegendY(k: nat): (y: real)
    ensures y == 80.0 + 18.0 * k as real
  {
    80.0 + 18.0 * k as real
  }

  /** How a legend names series `idx`: its own name, else "Series idx+1". */
  function SeriesName(s: Series, idx: nat): (c: Content)
    ensures s.name.Some? ==> c == Str(s.name.value)
    ensures s.name.None? ==> c == Numbered("Series ", idx + 1)
  {
    if s.name.Some? then Str(s.name.value) else Numbered("Series ", idx + 1)
  }

  /** The width of each of `n` equal slots across the plot. */
  function Spacing(n: nat): (w: real)
    requires n > 0
    ensures w > 0.0 && w * n as real == Right - Left
  {
    (Right - Left) / n as real
  }

  /** The centre of slot `i` of `n`: 60 + (i + 1/2) * 680 / n. */
  function SlotCentre(i: nat, n: nat): real
    requires n > 0
  {
    Left + (i as real + 0.5) * Spacing(n)
  }

  /** Slot centres lie inside the plot, one slot width apart. */
  lemma SlotCentres(i: nat, n: nat)
    requires i < n
    ensures Left < SlotCentre(i, n) < Right
    ensures SlotCentre(i + 1, n) == SlotCentre(i, n) + Spacing(n)
  {
    var w := Spacing(n);
    assert (i as real + 0.5) * w < n as real * w;
  }
}
