/** `BarChart::generate` (src/charts/bar.rs): flat data becomes one unnamed
    blue series; each value becomes a bar rising from the x axis, the bars
    of one index grouped side by side within their segment, with the value
    printed above each bar and whole-number value ticks. */
module Bar {
  import opened Wrappers
  import opened Numeric
  import opened Models
  import opened Drawing
  import opened Utils
  import opened Svg
  import opened ChartCommon

  /** The series a bar chart draws: the request's series, or for flat data
      one series without a name whose points carry the bare values and
      whose colour is the first default colour. */
  function Normalize(req: GraphRequest): (r: seq<Series>)
    ensures |r| >= 1
    ensures req.series != [] ==> r == req.series
    ensures req.series == [] ==> r == [Series(None, PlainPoints(req.data), Some("#0000FF"))]
  {
    if req.series == [] then [Series(None, PlainPoints(req.data), Some(DefaultColors()[0]))] else req.series
  }

  /** Flat data and its normalised series hold the same values. */
  lemma NormalizeKeepsValues(req: GraphRequest)
    requires req.series == []
    ensures Values(Normalize(req)[0]) == req.data
    ensures PointCount(Normalize(req)) == |req.data|
  {
    var s := Normalize(req);
    assert Values(s[0]) == req.data;
    assert PointCount(s) == |s[0].data| + PointCount(s[1..]);
  }

  /** The width of the segment of each index: the first series' length
      splits 700 units. */
  function SegmentWidth(n: nat): (w: real)
    requires n > 0
    ensures w > 0.0 && n as real * w == 700.0
  {
    700.0 / n as real
  }

  /** The room the bars of one index share: 80% of the segment for a single
      series, 60% for several. */
  function GroupWidth(sw: real, k: nat): (bw: real)
    ensures k > 1 ==> bw == sw * 0.6
    ensures k <= 1 ==> bw == sw * 0.8
  {
    if k > 1 then sw * 0.6 else sw * 0.8
  }

  /** The shift of series `idx` of `k` within its group as bar.rs writes it:
      (idx - (k - 1) / 2) * group / (k + 0.5), and none for a single series. */
  function AsWrittenOffset(idx: nat, k: nat, bw: real): real {
    if k > 1 then (idx as real - (k as real - 1.0) / 2.0) * (bw / (k as real + 0.5)) else 0.0
  }

  /** As written, neighbouring bars of a group always overlap: the shift
      between them, group / (k + 0.5), is less than the width of a bar,
      group / k. */
  lemma AsWrittenBarsOverlap(idx: nat, k: nat, bw: real)
    requires k > 1 && bw > 0.0
    ensures AsWrittenOffset(idx + 1, k, bw) - AsWrittenOffset(idx, k, bw) == bw / (k as real + 0.5)
    ensures bw / (k as real + 0.5) < bw / k as real
  {
    var step := bw / (k as real + 0.5);
    assert AsWrittenOffset(idx + 1, k, bw) - AsWrittenOffset(idx, k, bw) == step by {
      var c := (k as real - 1.0) / 2.0;
      assert (idx as real + 1.0 - c) * step == (idx as real - c) * step + step;
    }
    assert step * (k as real + 0.5) == bw;
    assert (bw / k as real) * k as real == bw;
  }

  /** As written, the shifts are symmetric: series `idx` and `k - 1 - idx`
      move by opposite amounts, so the shifts of a group sum to zero. */
  lemma AsWrittenOffsetsSymmetric(idx: nat, k: nat, bw: real)
    requires idx < k
    ensures AsWrittenOffset(idx, k, bw) + AsWrittenOffset(k - 1 - idx, k, bw) == 0.0
  {
    if k > 1 {
      var step, c := bw / (k as real + 0.5), (k as real - 1.0) / 2.0;
      assert (idx as real - c) * step + ((k - 1 - idx) as real - c) * step == (idx as real + (k - 1 - idx) as real - 2.0 * c) * step;
    }
  }

  /** Two series of one value each, 1 and 1: the bars, 210 wide, start at
      56 and 224 and overlap over 42 units. */
  lemma TwoSeriesOverlap()
    ensures var sw := SegmentWidth(1); var bw := GroupWidth(sw, 2);
      bw / 2.0 == 210.0
      && (sw - bw) / 2.0 + AsWrittenOffset(0, 2, bw) == 56.0
      && (sw - bw) / 2.0 + AsWrittenOffset(1, 2, bw) == 224.0
  {
  }

  /** The shift of series `idx` within its group: the bars of one index sit
      side by side, each `group / k` wide, filling the group from its left
      edge. For a single series this is no shift, as in bar.rs. */
  function Offset(idx: nat, k: nat, bw: real): (o: real)
    requires k > 0
    ensures idx == 0 ==> o == 0.0 && o == AsWrittenOffset(idx, 1, bw)
  {
    idx as real * (bw / k as real)
  }

  /** Left edge of the bar of series `idx` at index `i`. */
  function BarX(i: nat, idx: nat, sw: real, k: nat): real
    requires k > 0
  {
    i as real * sw + (sw - GroupWidth(sw, k)) / 2.0 + Offset(idx, k, GroupWidth(sw, k))
  }

  /** The bars of one index tile their group without gap or overlap, and
      the group is centred in its segment, inside it. */
  lemma GroupTiles(i: nat, idx: nat, sw: real, k: nat)
    requires k > 0 && sw > 0.0
    ensures BarX(i, idx + 1, sw, k) == BarX(i, idx, sw, k) + GroupWidth(sw, k) / k as real
    ensures BarX(i, 0, sw, k) - i as real * sw == (i as real + 1.0) * sw - (BarX(i, k - 1, sw, k) + GroupWidth(sw, k) / k as real)
    ensures i as real * sw < BarX(i, 0, sw, k) && BarX(i, k - 1, sw, k) + GroupWidth(sw, k) / k as real < (i as real + 1.0) * sw
  {
    var bw := GroupWidth(sw, k);
    var w := bw / k as real;
    assert (idx as real + 1.0) * w == idx as real * w + w;
    assert (k - 1) as real * w + w == bw by {
      assert w * k as real == bw;
    }
  }

  /** The height of a value's bar: value / max of the 400-unit plot. */
  function Height(v: real, maxValue: real): (h: real)
    requires maxValue != 0.0
    ensures v == maxValue ==> h == 400.0
    ensures v == 0.0 ==> h == 0.0
  {
    SelfQuotient(maxValue);
    v / maxValue * 400.0
  }

  /** The colour of a bar: its point's, else its series', else blue. */
  function BarColor(p: DataPoint, s: Series): (c: string)
    ensures p.color.Some? ==> c == p.color.value
    ensures p.color.None? && s.color.Some? ==> c == s.color.value
    ensures p.color.None? && s.color.None? ==> c == "#0000FF"
  {
    match p.color
    case Some(c) => c
    case None => s.color.UnwrapOr("#0000FF")
  }

  /** Bar `i` of series `idx`: a rectangle from the x axis up to the value,
      `group / k` wide, then the value above its middle. */
  function BarPair(s: Series, i: nat, idx: nat, sw: real, k: nat, maxValue: real): (r: seq<Primitive>)
    requires i < |s.data| && k > 0 && maxValue != 0.0
    ensures |r| == 2 && r[0].Rect? && r[1].Text?
    ensures r[0] == Rect(BarX(i, idx, sw, k), 450.0 - Height(s.data[i].value, maxValue), GroupWidth(sw, k) / k as real,
      Height(s.data[i].value, maxValue), Color(BarColor(s.data[i], s)))
  {
    var x, h, w := BarX(i, idx, sw, k), Height(s.data[i].value, maxValue), GroupWidth(sw, k) / k as real;
    [Rect(x, 450.0 - h, w, h, Color(BarColor(s.data[i], s))), ValueText(At(x + w / 2.0, 450.0 - h), s.data[i].value)]
  }

  /** The bars of one series, in order. */
  function SeriesBars(s: Series, idx: nat, sw: real, k: nat, maxValue: real): (r: seq<Primitive>)
    requires k > 0 && maxValue != 0.0
    ensures |r| == 2 * |s.data|
    ensures forall i :: 0 <= i < |s.data| ==> r[2 * i] == BarPair(s, i, idx, sw, k, maxValue)[0]
    ensures Count(r, RectKind) == |s.data| && Count(r, CircleKind) == 0 && Count(r, PathKind) == 0
  {
    var sections := seq(|s.data|, i requires 0 <= i < |s.data| => BarPair(s, i, idx, sw, k, maxValue));
    FlattenPairs(sections);
    var r := Flatten(sections);
    PairCounts(r, |s.data|);
    r
  }

  /** Pairs of a bar and a label count one bar each. */
  lemma {:induction false} PairCounts(items: seq<Primitive>, n: nat)
    requires |items| == 2 * n
    requires forall j :: 0 <= j < n ==> items[2 * j].Rect? && items[2 * j + 1].Text?
    ensures Count(items, RectKind) == n && Count(items, CircleKind) == 0 && Count(items, PathKind) == 0
  {
    if n > 0 {
      var rest := items[2..];
      forall j | 0 <= j < n - 1
        ensures rest[2 * j].Rect? && rest[2 * j + 1].Text?
      {
        assert rest[2 * j] == items[2 * (j + 1)];
        assert rest[2 * j + 1] == items[2 * (j + 1) + 1];
      }
      PairCounts(rest, n - 1);
      assert items[1..][1..] == rest;
      assert items[2 * 0].Rect? && items[2 * 0 + 1].Text?;
    }
  }

  /** The bars of every series from `idx` on, series by series. */
  function AllBars(series: seq<Series>, idx: nat, sw: real, k: nat, maxValue: real): (r: seq<Primitive>)
    requires k > 0 && maxValue != 0.0
    ensures Count(r, RectKind) == PointCount(series) && Count(r, CircleKind) == 0 && Count(r, PathKind) == 0
  {
    if |series| == 0 then []
    else
      var head, rest := SeriesBars(series[0], idx, sw, k, maxValue), AllBars(series[1..], idx + 1, sw, k, maxValue);
      CountConcat(head, rest, RectKind);
      CountConcat(head, rest, CircleKind);
      CountConcat(head, rest, PathKind);
      head + rest
  }

  /** Label of value tick `i`: i * max / 5, rounded to a whole number. */
  function TickLabel(maxValue: real, i: int): (c: Content)
    ensures c == Num(Round(i as real * maxValue / 5.0) as real, 0)
  {
    RoundedPrintsWhole(i as real * maxValue / 5.0);
    FormatNumber(Round(i as real * maxValue / 5.0) as real)
  }

  /** Tick `i` of the value axis: a mark at TickY(i) and its rounded label. */
  function BarTick(maxValue: real, i: int): (r: seq<Primitive>)
    ensures |r| == 2
    ensures r[0] == Segment(At(-5.0, TickY(i)), At(0.0, TickY(i)), Black)
    ensures r[1] == Text(At(-10.0, TickY(i) + 4.0), TickLabel(maxValue, i), End, Unset)
  {
    [Segment(At(-5.0, TickY(i)), At(0.0, TickY(i)), Black), Text(At(-10.0, TickY(i) + 4.0), TickLabel(maxValue, i), End, Unset)]
  }

  /** The six value ticks i = 0..5, without grid lines. */
  function BarTicks(maxValue: real): (r: seq<Primitive>)
    ensures |r| == 12 && NoMarks(r)
    ensures r[1] == Text(At(-10.0, 454.0), Num(0.0, 0), End, Unset)
    ensures r[11] == Text(At(-10.0, 54.0), Num(Round(maxValue) as real, 0), End, Unset)
  {
    var r := BarTick(maxValue, 0) + BarTick(maxValue, 1) + BarTick(maxValue, 2)
      + BarTick(maxValue, 3) + BarTick(maxValue, 4) + BarTick(maxValue, 5);
    assert 5 as real * maxValue / 5.0 == maxValue;
    r
  }

  /** Labels, both axes, the value ticks and the opaque x ticks. */
  function Decor(req: GraphRequest, maxValue: real, n: nat): (r: seq<Primitive>)
    ensures Count(r, CircleKind) == 0 && Count(r, PathKind) == 0 && Count(r, RectKind) == 0
  {
    var header, ticks := Header(req.title, req.xLabel, req.yLabel), BarTicks(maxValue);
    NoMarksConcat(header, ticks);
    FrameCounts(header + ticks, "generate_x_axis_ticks_for_bar", n);
    header + ticks + [Helper("generate_x_axis_ticks_for_bar", n)]
  }

  /** The legend of a chart of several series. */
  function GroupLegend(series: seq<Series>): (r: seq<Primitive>)
    ensures Count(r, RectKind) == (if |series| > 1 then |Named(series)| else 0)
    ensures Count(r, CircleKind) == 0 && Count(r, PathKind) == 0
  {
    LegendCounts(series, 520.0, 50.0);
    if |series| > 1 then Legend(series, 520.0, 50.0) else []
  }

  /** The scale of a bar chart: the largest value of the normalised series. */
  function BarMax(req: GraphRequest): (r: Option<real>)
    ensures r.None? <==> PointCount(Normalize(req)) == 0
    ensures r.Some? ==> forall s, i :: 0 <= s < |Normalize(req)| && 0 <= i < |Normalize(req)[s].data| ==> Normalize(req)[s].data[i].value <= r.value
    ensures r.Some? ==> exists s, i :: 0 <= s < |Normalize(req)| && 0 <= i < |Normalize(req)[s].data| && Normalize(req)[s].data[i].value == r.value
  {
    GetMaxValue(Normalize(req))
  }

  /** A request the bar chart can draw: a first series with a value, so that
      segments have a width, and a nonzero maximum. */
  predicate Drawable(req: GraphRequest) {
    |Normalize(req)[0].data| > 0 && BarMax(req).Some? && BarMax(req).value != 0.0
  }

  /** `BarChart::generate`: one bar per value of the normalised series, and
      a legend swatch per named series only when there are several. */
  function Generate(req: GraphRequest): (c: Canvas)
    requires Drawable(req)
    ensures c == Page(c.items)
    ensures Count(c.items, RectKind) == PointCount(Normalize(req)) + (if |Normalize(req)| > 1 then |Named(req.series)| else 0)
    ensures Count(c.items, CircleKind) == 0 && Count(c.items, PathKind) == 0
  {
    var series := Normalize(req);
    var n, k, m := |series[0].data|, |series|, BarMax(req).value;
    Layered(Decor(req, m, n), AllBars(series, 0, SegmentWidth(n), k, m), GroupLegend(series))
  }

  /** Some bar of the chart reaches the top tick: the value that sets the
      scale is drawn 400 units tall. */
  lemma TallestReachesTop(req: GraphRequest)
    requires Drawable(req)
    ensures exists s, i :: (0 <= s < |Normalize(req)| && 0 <= i < |Normalize(req)[s].data|
      && Height(Normalize(req)[s].data[i].value, BarMax(req).value) == 400.0)
  {
    var series, m := Normalize(req), BarMax(req).value;
    var s, i :| 0 <= s < |series| && 0 <= i < |series[s].data| && series[s].data[i].value == m;
    assert Height(series[s].data[i].value, m) == 400.0;
  }
}
