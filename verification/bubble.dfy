/** `BubbleChart` (src/charts/bubble.rs): points with a third dimension
    drawn as circles on a white 800 x 600 page. Positions are scaled into
    the square margin-80 plot area x 80..720, y 80..520, radii between the
    smallest and largest bubble size; a grid, axes, axis labels and a size
    legend surround them. */
module Bubble {
  import opened Wrappers
  import opened Numeric
  import opened Models
  import opened Drawing
  import opened ChartCommon

  /** The radius range and whether bubble captions are printed. */
  datatype Settings = Settings(minBubble: real, maxBubble: real, showLabels: bool)

  /** Radii 5 to 30, no captions. */
  const Default: Settings := Settings(5.0, 30.0, false)

  /** One bubble: position, size, and the caption and colour of the point it came from. */
  datatype Bubble = Bubble(x: real, y: real, size: real, caption: Option<string>, color: Option<string>)

  /** The size given to a bubble synthesised from value `v`: half its magnitude plus 10. */
  function SizeOf(v: real): (s: real)
    ensures s >= 10.0
  {
    Abs(v) * 0.5 + 10.0
  }

  /** Sizes depend on magnitude only, and a larger magnitude makes a larger bubble. */
  lemma SizeGrows(v: real, w: real)
    requires Abs(v) <= Abs(w)
    ensures SizeOf(v) <= SizeOf(w)
    ensures SizeOf(v) == SizeOf(-v)
  {
  }

  /** The points of a series as bubbles: the index across, the value up. */
  function FromPoints(points: seq<DataPoint>): (r: seq<Bubble>)
    ensures |r| == |points|
    ensures forall i :: 0 <= i < |r| ==>
      r[i] == Bubble(i as real, points[i].value, SizeOf(points[i].value), points[i].caption, points[i].color)
  {
    seq(|points|, i requires 0 <= i < |points| =>
      Bubble(i as real, points[i].value, SizeOf(points[i].value), points[i].caption, points[i].color))
  }

  /** Consecutive groups of three values, read as x, y and size. */
  function Triples(data: seq<real>): (r: seq<Bubble>)
    ensures |r| == |data| / 3
    ensures forall k :: 0 <= k < |r| ==> r[k] == Bubble(data[3 * k], data[3 * k + 1], data[3 * k + 2], None, None)
    decreases |data|
  {
    if |data| < 3 then []
    else
      var rest := Triples(data[3..]);
      assert forall k :: 1 <= k < 1 + |rest| ==> data[3 * k] == data[3..][3 * (k - 1)];
      [Bubble(data[0], data[1], data[2], None, None)] + rest
  }

  /** The x, y and size of each bubble in turn. */
  function Coordinates(bubbles: seq<Bubble>): (r: seq<real>)
    ensures |r| == 3 * |bubbles|
  {
    if |bubbles| == 0 then []
    else [bubbles[0].x, bubbles[0].y, bubbles[0].size] + Coordinates(bubbles[1..])
  }

  /** Reading a whole number of triples loses and invents nothing. */
  lemma {:induction false} TriplesRoundTrip(data: seq<real>)
    requires |data| % 3 == 0
    ensures Coordinates(Triples(data)) == data
    decreases |data|
  {
    if |data| >= 3 {
      TriplesRoundTrip(data[3..]);
      assert Triples(data)[1..] == Triples(data[3..]);
      assert data == data[..3] + data[3..];
    }
  }

  /** `parse_bubble_data`: the first series when there is one, even an
      empty one; else flat data as triples when its length is a multiple
      of three, and otherwise as values along the x axis. */
  function ParseBubbles(req: GraphRequest): (r: seq<Bubble>)
    ensures req.series != [] ==> r == FromPoints(req.series[0].data)
    ensures req.series == [] && |req.data| % 3 == 0 ==> r == Triples(req.data)
    ensures req.series == [] && |req.data| % 3 != 0 ==> r == FromPoints(PlainPoints(req.data))
    ensures r == [] <==> if req.series != [] then req.series[0].data == [] else req.data == []
  {
    if req.series != [] then FromPoints(req.series[0].data)
    else if req.data != [] then
      if |req.data| % 3 == 0 then Triples(req.data) else FromPoints(PlainPoints(req.data))
    else []
  }

  /** Flat data of a length not divisible by three are synthesised exactly
      as a series of unnamed, uncoloured points would be. */
  lemma SynthesisedBubbles(req: GraphRequest, i: nat)
    requires req.series == [] && |req.data| % 3 != 0 && i < |req.data|
    ensures |ParseBubbles(req)| == |req.data|
    ensures ParseBubbles(req)[i] == Bubble(i as real, req.data[i], SizeOf(req.data[i]), None, None)
    ensures ParseBubbles(req)[i].size >= 10.0
  {
  }

  function Xs(bubbles: seq<Bubble>): (r: seq<real>)
    ensures |r| == |bubbles| && forall i :: 0 <= i < |r| ==> r[i] == bubbles[i].x
  {
    seq(|bubbles|, i requires 0 <= i < |bubbles| => bubbles[i].x)
  }

  function Ys(bubbles: seq<Bubble>): (r: seq<real>)
    ensures |r| == |bubbles| && forall i :: 0 <= i < |r| ==> r[i] == bubbles[i].y
  {
    seq(|bubbles|, i requires 0 <= i < |bubbles| => bubbles[i].y)
  }

  function Sizes(bubbles: seq<Bubble>): (r: seq<real>)
    ensures |r| == |bubbles| && forall i :: 0 <= i < |r| ==> r[i] == bubbles[i].size
  {
    seq(|bubbles|, i requires 0 <= i < |bubbles| => bubbles[i].size)
  }

  /** The extent of the bubbles in each dimension. */
  datatype Extent = Extent(minX: real, maxX: real, minY: real, maxY: real, minSize: real, maxSize: real)

  /** The bubble lies within the extent in every dimension. */
  predicate Within(b: Bubble, e: Extent) {
    e.minX <= b.x <= e.maxX && e.minY <= b.y <= e.maxY && e.minSize <= b.size <= e.maxSize
  }

  /** The smallest and largest x, y and size over the bubbles. */
  function ExtentOf(bubbles: seq<Bubble>): (e: Extent)
    requires bubbles != []
    ensures forall i :: 0 <= i < |bubbles| ==> Within(bubbles[i], e)
    ensures exists i :: 0 <= i < |bubbles| && bubbles[i].x == e.minX
    ensures exists i :: 0 <= i < |bubbles| && bubbles[i].x == e.maxX
    ensures exists i :: 0 <= i < |bubbles| && bubbles[i].y == e.minY
    ensures exists i :: 0 <= i < |bubbles| && bubbles[i].y == e.maxY
    ensures exists i :: 0 <= i < |bubbles| && bubbles[i].size == e.minSize
    ensures exists i :: 0 <= i < |bubbles| && bubbles[i].size == e.maxSize
  {
    var xs, ys, sizes := Xs(bubbles), Ys(bubbles), Sizes(bubbles);
    Extent(MinOf(xs).value, MaxOf(xs).value, MinOf(ys).value, MaxOf(ys).value, MinOf(sizes).value, MaxOf(sizes).value)
  }

  /** x of a bubble centre: its share of the x range, the range counted as
      at least 1, across the 640 units of the plot. */
  function CentreX(x: real, e: Extent): real {
    80.0 + ((x - e.minX) / Max(e.maxX - e.minX, 1.0)) * 640.0
  }

  /** y of a bubble centre, up from the plot's bottom edge at 520. */
  function CentreY(y: real, e: Extent): real {
    600.0 - 80.0 - ((y - e.minY) / Max(e.maxY - e.minY, 1.0)) * 440.0
  }

  /** A share of a range counted as at least 1 lies in [0, 1]. */
  lemma ShareOfRange(v: real, lo: real, hi: real)
    requires lo <= v <= hi
    ensures 0.0 <= (v - lo) / Max(hi - lo, 1.0) <= 1.0
    ensures hi - lo >= 1.0 && v == hi ==> (v - lo) / Max(hi - lo, 1.0) == 1.0
  {
    var d := Max(hi - lo, 1.0);
    var q := (v - lo) / d;
    assert q * d == v - lo;
    assert (q - 1.0) * d == v - lo - d;
  }

  /** Every bubble centre lies in the plot area; the lowest x sits on the
      left edge and the lowest y on the bottom edge. */
  lemma CentreInside(b: Bubble, e: Extent)
    requires Within(b, e)
    ensures 80.0 <= CentreX(b.x, e) <= 720.0
    ensures 80.0 <= CentreY(b.y, e) <= 520.0
    ensures b.x == e.minX ==> CentreX(b.x, e) == 80.0
    ensures b.y == e.minY ==> CentreY(b.y, e) == 520.0
  {
    ShareOfRange(b.x, e.minX, e.maxX);
    ShareOfRange(b.y, e.minY, e.maxY);
  }

  /** Where a size falls between the smallest and largest, or the middle
      when all sizes are equal. */
  function SizeShare(size: real, e: Extent): real {
    if e.maxSize > e.minSize then (size - e.minSize) / (e.maxSize - e.minSize) else 0.5
  }

  /** The radius of a bubble of `size`: the smallest bubble radius plus its
      share of the radius range. */
  function Radius(size: real, e: Extent, st: Settings): real {
    st.minBubble + SizeShare(size, e) * (st.maxBubble - st.minBubble)
  }

  /** A value's share of a non-empty range lies in [0, 1], from 0 at the
      range's low end to 1 at its high end. */
  lemma UnitShare(v: real, lo: real, hi: real)
    requires lo <= v <= hi && lo < hi
    ensures 0.0 <= (v - lo) / (hi - lo) <= 1.0
    ensures v == lo ==> (v - lo) / (hi - lo) == 0.0
    ensures v == hi ==> (v - lo) / (hi - lo) == 1.0
  {
    var q := (v - lo) / (hi - lo);
    assert q * (hi - lo) == v - lo;
    assert (q - 1.0) * (hi - lo) == v - hi;
  }

  /** A fraction in [0, 1] of a non-negative width is at most that width. */
  lemma PartOfWidth(q: real, w: real)
    requires 0.0 <= q <= 1.0 && w >= 0.0
    ensures 0.0 <= q * w <= w
  {
    assert w - q * w == (1.0 - q) * w;
  }

  /** Radii stay within the configured range; with distinct sizes the
      smallest bubble gets the smallest radius and the largest the largest,
      and with equal sizes every bubble gets the middle radius. */
  lemma RadiusRange(size: real, e: Extent, st: Settings)
    requires e.minSize <= size <= e.maxSize && st.minBubble <= st.maxBubble
    ensures st.minBubble <= Radius(size, e, st) <= st.maxBubble
    ensures e.minSize < e.maxSize && size == e.minSize ==> Radius(size, e, st) == st.minBubble
    ensures e.minSize < e.maxSize && size == e.maxSize ==> Radius(size, e, st) == st.maxBubble
    ensures e.minSize == e.maxSize ==> Radius(size, e, st) == (st.minBubble + st.maxBubble) / 2.0
  {
    if e.maxSize > e.minSize {
      var q, w := SizeShare(size, e), st.maxBubble - st.minBubble;
      assert q == (size - e.minSize) / (e.maxSize - e.minSize);
      UnitShare(size, e.minSize, e.maxSize);
      PartOfWidth(q, w);
      assert Radius(size, e, st) == st.minBubble + q * w;
      assert size == e.minSize ==> q * w == 0.0;
      assert size == e.maxSize ==> q * w == w;
    }
  }

  /** With the default settings radii run from 5 to 30, and equal sizes give 17.5. */
  lemma DefaultRadii(size: real, e: Extent)
    requires e.minSize <= size <= e.maxSize
    ensures 5.0 <= Radius(size, e, Default) <= 30.0
    ensures e.minSize == e.maxSize ==> Radius(size, e, Default) == 17.5
  {
    RadiusRange(size, e, Default);
  }

  /** A bigger bubble never gets a smaller radius. */
  lemma RadiusMonotone(a: real, b: real, e: Extent, st: Settings)
    requires a <= b && st.minBubble <= st.maxBubble
    ensures Radius(a, e, st) <= Radius(b, e, st)
  {
    if e.maxSize > e.minSize {
      var d := e.maxSize - e.minSize;
      assert (a - e.minSize) / d <= (b - e.minSize) / d;
    }
  }

  /** Every bubble, scaled against the extent of all of them, is centred in
      the plot area with a radius in the configured range. */
  lemma BubblesPlaced(bubbles: seq<Bubble>, i: nat, st: Settings)
    requires i < |bubbles| && st.minBubble <= st.maxBubble
    ensures 80.0 <= CentreX(bubbles[i].x, ExtentOf(bubbles)) <= 720.0
    ensures 80.0 <= CentreY(bubbles[i].y, ExtentOf(bubbles)) <= 520.0
    ensures st.minBubble <= Radius(bubbles[i].size, ExtentOf(bubbles), st) <= st.maxBubble
  {
    var e := ExtentOf(bubbles);
    assert Within(bubbles[i], e);
    CentreInside(bubbles[i], e);
    RadiusRange(bubbles[i].size, e, st);
  }

  /** The fallback palette: the first six colours of the shared palette. */
  function Palette6(): (r: seq<string>)
    ensures |r| == 6 && r == Palette8()[..6]
  {
    ["#3498db", "#e74c3c", "#2ecc71", "#f39c12", "#9b59b6", "#1abc9c"]
  }

  /** Bubble `i`'s fill: its own colour, else the palette colour for its
      index. The palette entry is looked up even when unused, so an empty
      colour list is an error whichever colour wins. */
  function Fill(b: Bubble, i: nat, colors: Option<seq<string>>): (c: string)
    requires colors != Some([])
    ensures b.color.Some? ==> c == b.color.value
    ensures b.color.None? && colors.Some? ==> c == colors.value[i % |colors.value|]
    ensures b.color.None? && colors.None? ==> c == Palette6()[i % 6]
  {
    var cycled := CycledColor(colors, Palette6(), i);
    if b.color.Some? then b.color.value else cycled
  }

  /** Bubble `i`: a circle at its centre, then its caption there when captions are shown and it has one. */
  function Mark(b: Bubble, i: nat, e: Extent, st: Settings, colors: Option<seq<string>>): (r: seq<Primitive>)
    requires colors != Some([])
    ensures |r| >= 1 && r[0] == Circle(At(CentreX(b.x, e), CentreY(b.y, e)), Radius(b.size, e, st), Color(Fill(b, i, colors)))
    ensures |r| == (if st.showLabels && b.caption.Some? then 2 else 1)
    ensures Count(r, CircleKind) == 1 && Count(r, RectKind) == 0
    ensures Count(r, SegmentKind) == 0 && Count(r, PathKind) == 0
  {
    var at := At(CentreX(b.x, e), CentreY(b.y, e));
    var r := [Circle(at, Radius(b.size, e, st), Color(Fill(b, i, colors)))]
      + (if st.showLabels && b.caption.Some? then [Text(at, Str(b.caption.value), Middle, Unset)] else []);
    assert r[1..] == (if st.showLabels && b.caption.Some? then [Text(at, Str(b.caption.value), Middle, Unset)] else []);
    assert |r| == 2 ==> r[1..][1..] == [];
    r
  }

  /** The marks of all bubbles, in order. */
  function Marks(bubbles: seq<Bubble>, e: Extent, st: Settings, colors: Option<seq<string>>): (r: seq<Primitive>)
    requires colors != Some([])
    ensures Count(r, CircleKind) == |bubbles| && Count(r, RectKind) == 0
    ensures Count(r, SegmentKind) == 0 && Count(r, PathKind) == 0
  {
    var sections := seq(|bubbles|, i requires 0 <= i < |bubbles| => Mark(bubbles[i], i, e, st, colors));
    CountFlatten(sections, CircleKind);
    CountEachUniform(sections, CircleKind, 1);
    CountFlatten(sections, RectKind);
    CountEachUniform(sections, RectKind, 0);
    CountFlatten(sections, SegmentKind);
    CountEachUniform(sections, SegmentKind, 0);
    CountFlatten(sections, PathKind);
    CountEachUniform(sections, PathKind, 0);
    Flatten(sections)
  }

  /** Grid step `i` of 6: a horizontal line 88 units lower per step, then a
      vertical line 128 units further right per step. */
  function GridPair(i: nat): (r: seq<Primitive>)
    ensures |r| == 2 && NoMarks(r) && Count(r, SegmentKind) == 2
    ensures r[0] == Segment(At(80.0, 80.0 + 88.0 * i as real), At(720.0, 80.0 + 88.0 * i as real), Unset)
    ensures r[1] == Segment(At(80.0 + 128.0 * i as real, 80.0), At(80.0 + 128.0 * i as real, 520.0), Unset)
  {
    var y, x := 80.0 + 440.0 * i as real / 5.0, 80.0 + 640.0 * i as real / 5.0;
    var r := [Segment(At(80.0, y), At(720.0, y), Unset), Segment(At(x, 80.0), At(x, 520.0), Unset)];
    CountUniform(r, SegmentKind);
    r
  }

  /** The title when given, then the grid: the plot's edges and four lines
      between each pair of opposite edges. */
  function Backdrop(title: Option<string>): (r: seq<Primitive>)
    ensures NoMarks(r) && Count(r, SegmentKind) == 12
  {
    var head := if title.Some? then [Text(At(400.0, 30.0), Str(title.value), Middle, Unset)] else [];
    var rows := seq(6, i requires 0 <= i < 6 => GridPair(i));
    CountFlatten(rows, SegmentKind);
    CountEachUniform(rows, SegmentKind, 2);
    FlatNoMarks(rows);
    CountNone(head, SegmentKind);
    CountConcat(head, Flatten(rows), SegmentKind);
    NoMarksConcat(head, Flatten(rows));
    head + Flatten(rows)
  }

  /** Label `i` of 6 below the x axis, reading the x extent in fifths. */
  function XLabel(i: nat, e: Extent): Primitive {
    Text(At(80.0 + 640.0 * i as real / 5.0, 540.0), Num(e.minX + (e.maxX - e.minX) * i as real / 5.0, 1), Middle, Unset)
  }

  /** Label `i` of 6 left of the y axis, reading the y extent in fifths. */
  function YLabel(i: nat, e: Extent): Primitive {
    Text(At(70.0, 520.0 - 440.0 * i as real / 5.0 + 4.0), Num(e.minY + (e.maxY - e.minY) * i as real / 5.0, 1), End, Unset)
  }

  /** The end labels of each axis read the extent's ends. */
  lemma AxisLabelsSpan(e: Extent)
    ensures XLabel(0, e).content == Num(e.minX, 1) && XLabel(5, e).content == Num(e.maxX, 1)
    ensures YLabel(0, e).content == Num(e.minY, 1) && YLabel(5, e).content == Num(e.maxY, 1)
  {
  }

  /** The axes, their labels and the axis titles. */
  function Frame(e: Extent, req: GraphRequest): (r: seq<Primitive>)
    ensures |r| >= 2 && r[0] == Segment(At(80.0, 520.0), At(720.0, 520.0), Unset)
    ensures r[1] == Segment(At(80.0, 80.0), At(80.0, 520.0), Unset)
    ensures NoMarks(r) && Count(r, SegmentKind) == 2
  {
    var axes := [Segment(At(80.0, 520.0), At(720.0, 520.0), Unset), Segment(At(80.0, 80.0), At(80.0, 520.0), Unset)];
    var labels := seq(6, i requires 0 <= i < 6 => XLabel(i, e)) + seq(6, i requires 0 <= i < 6 => YLabel(i, e));
    var titles := (if req.xLabel.Some? then [Text(At(400.0, 590.0), Str(req.xLabel.value), Middle, Unset)] else [])
      + (if req.yLabel.Some? then [Rotated(At(20.0, 300.0), Str(req.yLabel.value), -90.0, At(20.0, 300.0))] else []);
    CountUniform(axes, SegmentKind);
    CountNone(labels, SegmentKind);
    CountNone(titles, SegmentKind);
    ThreeParts(axes, labels, titles, SegmentKind);
    NoMarksConcat(axes, labels);
    NoMarksConcat(axes + labels, titles);
    axes + labels + titles
  }

  /** The size legend: its heading at (650, 100), then grey circles of the
      smallest and largest radius, each labelled with the size it stands for. */
  function SizeLegend(e: Extent, st: Settings): (r: seq<Primitive>)
    ensures |r| == 5
    ensures r[1] == Circle(At(670.0, 120.0), st.minBubble, Color("gray"))
    ensures r[2] == Text(At(695.0, 125.0), Num(e.minSize, 1), Start, Unset)
    ensures r[3] == Circle(At(670.0, 160.0), st.maxBubble, Color("gray"))
    ensures r[4] == Text(At(710.0, 165.0), Num(e.maxSize, 1), Start, Unset)
    ensures Count(r, CircleKind) == 2 && Count(r, RectKind) == 0
    ensures Count(r, SegmentKind) == 0 && Count(r, PathKind) == 0
  {
    var head := [Text(At(650.0, 100.0), Str("Bubble Size"), Start, Unset)];
    var small := [Circle(At(670.0, 120.0), st.minBubble, Color("gray")), Text(At(695.0, 125.0), Num(e.minSize, 1), Start, Unset)];
    var large := [Circle(At(670.0, 160.0), st.maxBubble, Color("gray")), Text(At(710.0, 165.0), Num(e.maxSize, 1), Start, Unset)];
    assert small[1..][1..] == [] && large[1..][1..] == [];
    ThreeParts(head, small, large, CircleKind);
    ThreeParts(head, small, large, RectKind);
    ThreeParts(head, small, large, SegmentKind);
    ThreeParts(head, small, large, PathKind);
    head + small + large
  }

  /** What is drawn over the bubbles: the frame, then the size legend. */
  function Overlay(e: Extent, st: Settings, req: GraphRequest): (r: seq<Primitive>)
    ensures Count(r, CircleKind) == 2 && Count(r, SegmentKind) == 2
    ensures Count(r, RectKind) == 0 && Count(r, PathKind) == 0
  {
    var frame, legend := Frame(e, req), SizeLegend(e, st);
    NoMarksCount(frame);
    CountConcat(frame, legend, CircleKind);
    CountConcat(frame, legend, SegmentKind);
    CountConcat(frame, legend, RectKind);
    CountConcat(frame, legend, PathKind);
    frame + legend
  }

  /** The drawing of `bubbles` within extent `e`: backdrop, bubbles, frame, legend. */
  function Render(bubbles: seq<Bubble>, e: Extent, st: Settings, req: GraphRequest): (c: Canvas)
    requires req.colors != Some([])
    ensures c.width == 800.0 && c.height == 600.0 && c.background == Color("white") && c.origin == At(0.0, 0.0)
    ensures Count(c.items, CircleKind) == |bubbles| + 2
    ensures Count(c.items, SegmentKind) == 14
    ensures Count(c.items, RectKind) == 0 && Count(c.items, PathKind) == 0
  {
    var back, marks, over := Backdrop(req.title), Marks(bubbles, e, st, req.colors), Overlay(e, st, req);
    NoMarksCount(back);
    ThreeParts(back, marks, over, CircleKind);
    ThreeParts(back, marks, over, SegmentKind);
    ThreeParts(back, marks, over, RectKind);
    ThreeParts(back, marks, over, PathKind);
    Canvas(800.0, 600.0, Color("white"), At(0.0, 0.0), back + marks + over)
  }

  /** `BubbleChart::generate`: nothing without bubbles; otherwise a circle
      per bubble plus the two legend circles. */
  function Generate(st: Settings, req: GraphRequest): (r: Rendering)
    requires ParseBubbles(req) != [] ==> req.colors != Some([])
    ensures r.Blank? <==> ParseBubbles(req) == []
    ensures r.Drawn? ==> Count(r.canvas.items, CircleKind) == |ParseBubbles(req)| + 2
    ensures r.Drawn? ==> Count(r.canvas.items, SegmentKind) == 14
  {
    var bubbles := ParseBubbles(req);
    if bubbles == [] then Blank else Drawn(Render(bubbles, ExtentOf(bubbles), st, req))
  }
}
