/** `StackedBarChart::generate` (src/charts/stacked_bar.rs): one column per
    category (point index), in which every series with a positive value at
    that index stacks a block, bottom-up in series order, on the 480-unit
    plot height scaled by the largest category total. Negative values count
    as zero and missing points contribute nothing. */
module StackedBar {
  import opened Wrappers
  import opened Numeric
  import opened Models
  import opened Drawing
  import opened Margins
  import opened ChartCommon

  /** Whether blocks carry a value label, and whether it shows the block's
      share of its category instead of its value. */
  datatype Settings = Settings(showValues: bool, showPercentage: bool)

  const Default: Settings := Settings(false, false)

  /** What series `p` stacks in category `i`: its value there with
      negatives as zero, or nothing when it has no point `i`. */
  function Height(p: Series, i: nat): (v: real)
    ensures v >= 0.0
    ensures i < |p.data| ==> v == Max(p.data[i].value, 0.0)
    ensures i >= |p.data| ==> v == 0.0
  {
    if i < |p.data| then Max(p.data[i].value, 0.0) else 0.0
  }

  /** Category `i`, one entry per series in series order. */
  function Column(series: seq<Series>, i: nat): (col: seq<real>)
    ensures |col| == |series|
    ensures forall s :: 0 <= s < |series| ==> col[s] == Height(series[s], i)
  {
    seq(|series|, s requires 0 <= s < |series| => Height(series[s], i))
  }

  /** All categories' columns. */
  function Columns(series: seq<Series>): (cols: seq<seq<real>>)
    ensures |cols| == Longest(series)
    ensures forall i :: 0 <= i < |cols| ==> cols[i] == Column(series, i)
  {
    seq(Longest(series), i requires 0 <= i < Longest(series) => Column(series, i))
  }

  /** `category_totals`: each category's sum of non-negative values. */
  function Totals(series: seq<Series>): (t: seq<real>)
    ensures |t| == Longest(series)
    ensures forall i :: 0 <= i < |t| ==> t[i] == Sum(Column(series, i)) && t[i] >= 0.0
  {
    var m := Longest(series);
    forall i | 0 <= i < m
      ensures Sum(Column(series, i)) >= 0.0
    {
      SumNonnegative(Column(series, i));
    }
    seq(m, i requires 0 <= i < m => Sum(Column(series, i)))
  }

  /** `max_total`: the largest category total; None when there is no category. */
  function MaxTotal(series: seq<Series>): (r: Option<real>)
    ensures r.None? <==> Longest(series) == 0
    ensures r.Some? ==> forall i :: 0 <= i < Longest(series) ==> Totals(series)[i] <= r.value
    ensures r.Some? ==> exists i :: 0 <= i < Longest(series) && Totals(series)[i] == r.value
  {
    MaxOf(Totals(series))
  }

  /** Whether anything is drawn: some series, some category and a positive
      largest total. */
  predicate Draws(series: seq<Series>) {
    series != [] && Longest(series) > 0 && MaxTotal(series).value > 0.0
  }

  /** The colour of series `s`'s block in category `i`: the series colour,
      else the point's colour, else the palette cycled by series index. */
  function BlockColor(p: Series, i: nat, s: nat, colors: Option<seq<string>>): (c: string)
    requires colors != Some([])
    ensures p.color.Some? ==> c == p.color.value
    ensures p.color.None? && i < |p.data| && p.data[i].color.Some? ==> c == p.data[i].color.value
    ensures p.color.None? && (i >= |p.data| || p.data[i].color.None?) ==> c == CycledColor(colors, Palette8(), s)
  {
    if p.color.Some? then p.color.value
    else if i < |p.data| && p.data[i].color.Some? then p.data[i].color.value
    else CycledColor(colors, Palette8(), s)
  }

  /** A block's share of its category in percent; 0 when the category is empty. */
  function Share(v: real, total: real): real {
    if total > 0.0 then (v / total) * 100.0 else 0.0
  }

  /** The blocks' shares, one per series. */
  function Percentages(col: seq<real>, total: real): (r: seq<real>)
    ensures |r| == |col| && forall s :: 0 <= s < |col| ==> r[s] == Share(col[s], total)
  {
    seq(|col|, s requires 0 <= s < |col| => Share(col[s], total))
  }

  /** The shares within a non-empty category add up to 100. */
  lemma PercentagesTotal(col: seq<real>)
    requires Sum(col) > 0.0
    ensures Sum(Percentages(col, Sum(col))) == 100.0
  {
    var t := Sum(col);
    var c := 100.0 / t;
    forall s | 0 <= s < |col|
      ensures Percentages(col, t)[s] == Scale(col, c)[s]
    {
      assert (col[s] / t) * 100.0 == col[s] * c;
    }
    SameEntries(Percentages(col, t), Scale(col, c));
    SumScale(col, c);
    assert t * c == 100.0;
  }

  /** The value label of a block of height `h` whose top is at `y`: only when
      values are shown and the block is taller than 15, at its centre, as
      the share with one decimal and a `%` or as the value with one decimal. */
  function ValueLabel(st: Settings, x: real, bw: real, y: real, h: real, v: real, total: real): (r: seq<Primitive>)
    ensures |r| == (if st.showValues && h > 15.0 then 1 else 0)
    ensures |r| == 1 ==> r[0] == Text(At(x + bw / 2.0, y + h / 2.0), if st.showPercentage then Pct(Share(v, total), 1) else Num(v, 1), Middle, Color("#fff"))
  {
    if st.showValues && h > 15.0 then
      [Text(At(x + bw / 2.0, y + h / 2.0), if st.showPercentage then Pct(Share(v, total), 1) else Num(v, 1), Middle, Color("#fff"))]
    else []
  }

  /** How many entries are positive. */
  function Positives(col: seq<real>): nat {
    if |col| == 0 then 0 else (if col[0] > 0.0 then 1 else 0) + Positives(col[1..])
  }

  /** Non-negative entries. */
  predicate NonNegative(col: seq<real>) {
    forall s :: 0 <= s < |col| ==> col[s] >= 0.0
  }

  /** The height of a block: its value's share of the largest total, of 480. */
  function BlockHeight(v: real, maxTotal: real): real
    requires maxTotal > 0.0
  {
    (v / maxTotal) * 480.0
  }

  /** The blocks of one column from `base` upward: each positive entry, in
      order, becomes a block of width `bw` at `x` whose bottom is the top
      of the previous one, followed by its label; zero entries draw nothing
      and leave the top where it is. */
  function StackFrom(col: seq<real>, hues: seq<string>, x: real, bw: real, base: real, maxTotal: real, total: real, st: Settings): (r: seq<Primitive>)
    requires |hues| == |col| && maxTotal > 0.0 && NonNegative(col)
    ensures Count(r, RectKind) == Positives(col)
    ensures Count(r, CircleKind) == 0 && Count(r, PathKind) == 0 && Count(r, SegmentKind) == 0
    decreases |col|
  {
    if |col| == 0 then []
    else if col[0] > 0.0 then
      var h := BlockHeight(col[0], maxTotal);
      var block := [Rect(x, base - h, bw, h, Color(hues[0]))];
      var tag := ValueLabel(st, x, bw, base - h, h, col[0], total);
      var rest := StackFrom(col[1..], hues[1..], x, bw, base - h, maxTotal, total, st);
      CountUniform(block, RectKind);
      forall k | k != RectKind
        ensures Count(block, k) == 0
      {
        CountNone(block, k);
      }
      forall k
        ensures Count(block + tag + rest, k) == Count(block, k) + Count(tag, k) + Count(rest, k)
        ensures Count(tag, k) == (if k == TextKind then |tag| else 0)
      {
        CountConcat(block, tag, k);
        CountConcat(block + tag, rest, k);
        if k == TextKind { CountUniform(tag, k); } else { CountNone(tag, k); }
      }
      block + tag + rest
    else
      StackFrom(col[1..], hues[1..], x, bw, base, maxTotal, total, st)
  }

  /** The rectangles among `items`, in order. */
  function Rects(items: seq<Primitive>): (r: seq<Primitive>)
    ensures forall k :: 0 <= k < |r| ==> r[k].Rect?
  {
    if |items| == 0 then [] else (if items[0].Rect? then [items[0]] else []) + Rects(items[1..])
  }

  lemma {:induction false} RectsConcat(a: seq<Primitive>, b: seq<Primitive>)
    ensures Rects(a + b) == Rects(a) + Rects(b)
  {
    if |a| == 0 {
      assert a + b == b;
    } else {
      assert (a + b)[1..] == a[1..] + b;
      RectsConcat(a[1..], b);
    }
  }

  /** Blocks stacked from `base` upward: the first stands on the base and
      the others are stacked on its top. */
  predicate Stacked(rects: seq<Primitive>, base: real)
    requires forall k :: 0 <= k < |rects| ==> rects[k].Rect?
  {
    |rects| == 0 || (rects[0].y + rects[0].h == base && Stacked(rects[1..], rects[0].y))
  }

  /** The top of a stack: that of its last block, or the base when empty. */
  function StackTop(rects: seq<Primitive>, base: real): real
    requires forall k :: 0 <= k < |rects| ==> rects[k].Rect?
  {
    if |rects| == 0 then base else StackTop(rects[1..], rects[0].y)
  }

  /** (a / m) * 480 + (b / m) * 480 == ((a + b) / m) * 480. */
  lemma HeightsAdd(a: real, b: real, m: real)
    requires m > 0.0
    ensures BlockHeight(a, m) + BlockHeight(b, m) == BlockHeight(a + b, m)
  {
  }

  /** What stacking a column from `base` yields: one block per positive
      entry, without gaps from the base upward, rising by the column's total
      share of 480. */
  predicate StackOk(col: seq<real>, hues: seq<string>, x: real, bw: real, base: real, maxTotal: real, total: real, st: Settings)
    requires |hues| == |col| && maxTotal > 0.0 && NonNegative(col)
  {
    var rs := Rects(StackFrom(col, hues, x, bw, base, maxTotal, total, st));
    |rs| == Positives(col) && Stacked(rs, base)
    && StackTop(rs, base) == base - BlockHeight(Sum(col), maxTotal)
  }

  /** A column's blocks stack without gaps from the base, one per positive
      entry, and the stack rises by the column's total share of 480. */
  lemma {:induction false} StackShape(col: seq<real>, hues: seq<string>, x: real, bw: real, base: real, maxTotal: real, total: real, st: Settings)
    requires |hues| == |col| && maxTotal > 0.0 && NonNegative(col)
    ensures StackOk(col, hues, x, bw, base, maxTotal, total, st)
    decreases |col|
  {
    if |col| > 0 {
      var base' := if col[0] > 0.0 then base - BlockHeight(col[0], maxTotal) else base;
      StackShape(col[1..], hues[1..], x, bw, base', maxTotal, total, st);
      if col[0] > 0.0 {
        PositiveStep(col, hues, x, bw, base, maxTotal, total, st);
      } else {
        ZeroStep(col, hues, x, bw, base, maxTotal, total, st);
      }
    }
  }

  /** A positive entry puts its block under the rest of the stack. */
  lemma PositiveStep(col: seq<real>, hues: seq<string>, x: real, bw: real, base: real, maxTotal: real, total: real, st: Settings)
    requires |hues| == |col| && maxTotal > 0.0 && NonNegative(col) && |col| > 0 && col[0] > 0.0
    requires StackOk(col[1..], hues[1..], x, bw, base - BlockHeight(col[0], maxTotal), maxTotal, total, st)
    ensures StackOk(col, hues, x, bw, base, maxTotal, total, st)
  {
    var h := BlockHeight(col[0], maxTotal);
    var block := Rect(x, base - h, bw, h, Color(hues[0]));
    var tag := ValueLabel(st, x, bw, base - h, h, col[0], total);
    var rest := StackFrom(col[1..], hues[1..], x, bw, base - h, maxTotal, total, st);
    var rs := Rects(rest);
    StackFromPositive(col, hues, x, bw, base, maxTotal, total, st);
    RectsOfPiece(block, tag, rest);
    StackedCons(block, rs, base);
    HeightsAdd(col[0], Sum(col[1..]), maxTotal);
  }

  /** A positive first entry puts its block and label before the rest of the stack. */
  lemma StackFromPositive(col: seq<real>, hues: seq<string>, x: real, bw: real, base: real, maxTotal: real, total: real, st: Settings)
    requires |hues| == |col| && maxTotal > 0.0 && NonNegative(col) && |col| > 0 && col[0] > 0.0
    ensures var h := BlockHeight(col[0], maxTotal);
      StackFrom(col, hues, x, bw, base, maxTotal, total, st)
      == [Rect(x, base - h, bw, h, Color(hues[0]))] + ValueLabel(st, x, bw, base - h, h, col[0], total)
         + StackFrom(col[1..], hues[1..], x, bw, base - h, maxTotal, total, st)
  {
  }

  /** A zero entry changes nothing. */
  lemma ZeroStep(col: seq<real>, hues: seq<string>, x: real, bw: real, base: real, maxTotal: real, total: real, st: Settings)
    requires |hues| == |col| && maxTotal > 0.0 && NonNegative(col) && |col| > 0 && col[0] <= 0.0
    requires StackOk(col[1..], hues[1..], x, bw, base, maxTotal, total, st)
    ensures StackOk(col, hues, x, bw, base, maxTotal, total, st)
  {
    assert col[0] == 0.0;
    assert StackFrom(col, hues, x, bw, base, maxTotal, total, st) == StackFrom(col[1..], hues[1..], x, bw, base, maxTotal, total, st);
  }

  /** A block followed by text adds just that block to the rectangles. */
  lemma RectsOfPiece(block: Primitive, tag: seq<Primitive>, rest: seq<Primitive>)
    requires block.Rect? && |tag| <= 1 && (|tag| == 1 ==> tag[0].Text?)
    ensures Rects([block] + tag + rest) == [block] + Rects(rest)
  {
    RectsConcat([block] + tag, rest);
    RectsConcat([block], tag);
    assert Rects(tag) == [] by {
      if |tag| == 1 { assert tag[1..] == []; }
    }
    assert Rects([block]) == [block] by { assert [block][1..] == []; }
  }

  /** A block on the base under a stack standing on its top is a stack
      with the same top. */
  lemma StackedCons(block: Primitive, rs: seq<Primitive>, base: real)
    requires block.Rect? && block.y + block.h == base
    requires forall k :: 0 <= k < |rs| ==> rs[k].Rect?
    requires Stacked(rs, block.y)
    ensures Stacked([block] + rs, base) && StackTop([block] + rs, base) == StackTop(rs, block.y)
  {
    assert ([block] + rs)[1..] == rs;
  }

  /** The width of a block: 0.8 of a category's slot. */
  function BlockWidth(m: nat): real
    requires m > 0
  {
    Spacing(m) * 0.8
  }

  /** The colours of category `i`'s blocks, one per series. */
  function Hues(series: seq<Series>, i: nat, colors: Option<seq<string>>): (h: seq<string>)
    requires colors != Some([])
    ensures |h| == |series| && forall s :: 0 <= s < |series| ==> h[s] == BlockColor(series[s], i, s, colors)
  {
    seq(|series|, s requires 0 <= s < |series| => BlockColor(series[s], i, s, colors))
  }

  /** Category `i` of `m`'s stack, centred in its slot and standing on
      the x axis; `col` holds what each series stacks there. */
  function Stack(col: seq<real>, hues: seq<string>, i: nat, m: nat, maxTotal: real, st: Settings): (r: seq<Primitive>)
    requires |hues| == |col| && maxTotal > 0.0 && NonNegative(col) && m > 0
    ensures Count(r, RectKind) == Positives(col)
    ensures Count(r, CircleKind) == 0 && Count(r, PathKind) == 0 && Count(r, SegmentKind) == 0
  {
    StackFrom(col, hues, SlotCentre(i, m) - BlockWidth(m) / 2.0, BlockWidth(m), Bottom, maxTotal, Sum(col), st)
  }

  /** A stack whose total is at most the largest total rises to
      540 - total / max_total * 480, within the plot. */
  lemma StackReaches(col: seq<real>, hues: seq<string>, i: nat, m: nat, maxTotal: real, st: Settings)
    requires |hues| == |col| && maxTotal > 0.0 && NonNegative(col) && m > 0 && Sum(col) <= maxTotal
    ensures var rs := Rects(Stack(col, hues, i, m, maxTotal, st));
      Stacked(rs, Bottom) && StackTop(rs, Bottom) == Bottom - BlockHeight(Sum(col), maxTotal)
      && Top <= StackTop(rs, Bottom) <= Bottom
  {
    StackShape(col, hues, SlotCentre(i, m) - BlockWidth(m) / 2.0, BlockWidth(m), Bottom, maxTotal, Sum(col), st);
    SumNonnegative(col);
    FractionBelowOne(Sum(col), maxTotal);
  }

  lemma FractionBelowOne(t: real, m: real)
    requires 0.0 <= t <= m && m > 0.0
    ensures 0.0 <= BlockHeight(t, m) <= 480.0
    ensures t == m ==> BlockHeight(t, m) == 480.0
  {
    assert t / m <= 1.0;
    SelfQuotient(m);
  }

  /** Category `i`'s stack in a drawn chart. */
  function CategoryStack(series: seq<Series>, i: nat, colors: Option<seq<string>>, st: Settings): (r: seq<Primitive>)
    requires Draws(series) && colors != Some([]) && i < Longest(series)
    ensures Count(r, RectKind) == Positives(Column(series, i))
    ensures Count(r, CircleKind) == 0 && Count(r, PathKind) == 0 && Count(r, SegmentKind) == 0
    ensures Stacked(Rects(r), Bottom)
    ensures StackTop(Rects(r), Bottom) == Bottom - BlockHeight(Totals(series)[i], MaxTotal(series).value)
  {
    var col, mt := Column(series, i), MaxTotal(series).value;
    assert Sum(col) == Totals(series)[i] <= mt;
    StackReaches(col, Hues(series, i, colors), i, Longest(series), mt, st);
    Stack(col, Hues(series, i, colors), i, Longest(series), mt, st)
  }

  /** The category with the largest total reaches the top of the plot,
      y = 60. */
  lemma TallestReachesTop(series: seq<Series>, colors: Option<seq<string>>, st: Settings)
    requires Draws(series) && colors != Some([])
    ensures exists i :: 0 <= i < Longest(series) && StackTop(Rects(CategoryStack(series, i, colors, st)), Bottom) == Top
  {
    var mt := MaxTotal(series).value;
    var j :| 0 <= j < Longest(series) && Totals(series)[j] == mt;
    FractionBelowOne(mt, mt);
    assert StackTop(Rects(CategoryStack(series, j, colors, st)), Bottom) == Top;
  }

  /** Blocks in total over a list of columns. */
  function Blocks(cols: seq<seq<real>>): nat {
    if |cols| == 0 then 0 else Positives(cols[0]) + Blocks(cols[1..])
  }

  lemma {:induction false} CountEachBlocks(sections: seq<seq<Primitive>>, cols: seq<seq<real>>)
    requires |sections| == |cols|
    requires forall k :: 0 <= k < |sections| ==> Count(sections[k], RectKind) == Positives(cols[k])
    ensures CountEach(sections, RectKind) == Blocks(cols)
  {
    if |sections| > 0 {
      CountEachBlocks(sections[1..], cols[1..]);
    }
  }

  /** Every category's stack, left to right. */
  function AllStacks(series: seq<Series>, colors: Option<seq<string>>, st: Settings): (r: seq<Primitive>)
    requires Draws(series) && colors != Some([])
    ensures Count(r, RectKind) == Blocks(Columns(series))
    ensures Count(r, CircleKind) == 0 && Count(r, PathKind) == 0 && Count(r, SegmentKind) == 0
  {
    var m := Longest(series);
    var sections := seq(m, i requires 0 <= i < m => CategoryStack(series, i, colors, st));
    CountEachBlocks(sections, Columns(series));
    CountFlatten(sections, RectKind);
    CountFlatten(sections, CircleKind);
    CountFlatten(sections, PathKind);
    CountFlatten(sections, SegmentKind);
    CountEachUniform(sections, CircleKind, 0);
    CountEachUniform(sections, PathKind, 0);
    CountEachUniform(sections, SegmentKind, 0);
    Flatten(sections)
  }

  /** The tag under category `i`: the first series' caption for point `i`,
      else "Category i+1". */
  function CategoryLabel(series: seq<Series>, i: nat): (r: Primitive)
    requires series != [] && i < Longest(series)
    ensures r.Text? && r.at == At(SlotCentre(i, Longest(series)), 560.0)
    ensures i < |series[0].data| && series[0].data[i].caption.Some? ==> r.content == Str(series[0].data[i].caption.value)
    ensures (i >= |series[0].data| || series[0].data[i].caption.None?) ==> r.content == Numbered("Category ", i + 1)
  {
    var content := if i < |series[0].data| && series[0].data[i].caption.Some? then Str(series[0].data[i].caption.value)
      else Numbered("Category ", i + 1);
    Text(At(SlotCentre(i, Longest(series)), 560.0), content, Middle, Unset)
  }

  /** The category labels, left to right. */
  function CategoryLabels(series: seq<Series>): (r: seq<Primitive>)
    requires series != []
    ensures |r| == Longest(series) && forall i :: 0 <= i < |r| ==> r[i] == CategoryLabel(series, i)
    ensures NoMarks(r) && Count(r, SegmentKind) == 0
  {
    var m := Longest(series);
    var r := seq(m, i requires 0 <= i < m => CategoryLabel(series, i));
    CountNone(r, SegmentKind);
    r
  }

  /** Total label `i` of six: max_total * i / 5, no decimals. */
  function TotalLabel(i: nat, maxTotal: real): Primitive {
    Text(At(50.0, LevelY(i)), Num(maxTotal * i as real / 5.0, 0), End, Unset)
  }

  /** The six total labels up the y axis. */
  function TotalLabels(maxTotal: real): (r: seq<Primitive>)
    ensures |r| == 6 && forall i :: 0 <= i < 6 ==> r[i] == TotalLabel(i, maxTotal)
    ensures NoMarks(r) && Count(r, SegmentKind) == 0
  {
    var r := seq(6, i requires 0 <= i < 6 => TotalLabel(i, maxTotal));
    assert forall i :: 0 <= i < |r| ==> r[i].Text?;
    TextsOnly(r);
    r
  }

  /** Both axes, the category labels, the total labels and the axis titles. */
  function Frame(req: GraphRequest): (r: seq<Primitive>)
    requires Draws(req.series)
    ensures |r| >= 2 && r[..2] == PlotAxes()
    ensures NoMarks(r) && Count(r, SegmentKind) == 2
  {
    var below, levels, titles := CategoryLabels(req.series), TotalLabels(MaxTotal(req.series).value), AxisTitles(req.xLabel, req.yLabel);
    NoMarksConcat(below, levels);
    NoMarksConcat(below + levels, titles);
    NoMarksConcat(PlotAxes(), below + levels + titles);
    ThreeParts(below, levels, titles, SegmentKind);
    CountConcat(PlotAxes(), below + levels + titles, SegmentKind);
    PlotAxes() + (below + levels + titles)
  }

  /** Legend row `s`: a 12 x 12 swatch in the series colour (else the
      palette's) and the series name (else "Series s+1"). */
  function LegendRow(p: Series, s: nat, colors: Option<seq<string>>): (r: seq<Primitive>)
    requires colors != Some([])
    ensures |r| == 2 && r[0].Rect? && r[1].Text? && r[1].content == SeriesName(p, s)
    ensures r[0].fill == Color(if p.color.Some? then p.color.value else CycledColor(colors, Palette8(), s))
    ensures Count(r, RectKind) == 1 && Count(r, CircleKind) == 0 && Count(r, PathKind) == 0 && Count(r, SegmentKind) == 0
  {
    var hue := if p.color.Some? then p.color.value else CycledColor(colors, Palette8(), s);
    var r := [Rect(650.0, LegendY(s) - 10.0, 12.0, 12.0, Color(hue)), Text(At(668.0, LegendY(s)), SeriesName(p, s), Start, Unset)];
    assert r[1..][1..] == [];
    r
  }

  /** The heading, then one row for every series, named or not. */
  function Legend(series: seq<Series>, colors: Option<seq<string>>): (r: seq<Primitive>)
    requires colors != Some([])
    ensures Count(r, RectKind) == |series|
    ensures Count(r, CircleKind) == 0 && Count(r, PathKind) == 0 && Count(r, SegmentKind) == 0
  {
    var rows := seq(|series|, s requires 0 <= s < |series| => LegendRow(series[s], s, colors));
    CountFlatten(rows, RectKind);
    CountFlatten(rows, CircleKind);
    CountFlatten(rows, PathKind);
    CountFlatten(rows, SegmentKind);
    CountEachUniform(rows, RectKind, 1);
    CountEachUniform(rows, CircleKind, 0);
    CountEachUniform(rows, PathKind, 0);
    CountEachUniform(rows, SegmentKind, 0);
    forall k
      ensures Count([LegendHead()] + Flatten(rows), k) == Count([LegendHead()], k) + Count(Flatten(rows), k)
    {
      CountConcat([LegendHead()], Flatten(rows), k);
    }
    [LegendHead()] + Flatten(rows)
  }

  /** The page when something is drawn: the backdrop, the stacks, the
      frame and the legend, in that order. */
  function Render(st: Settings, req: GraphRequest): (c: Canvas)
    requires Draws(req.series) && req.colors != Some([])
    ensures c.width == 800.0 && c.height == 600.0 && c.background == Color("white")
    ensures Count(c.items, RectKind) == Blocks(Columns(req.series)) + |req.series|
    ensures Count(c.items, CircleKind) == 0 && Count(c.items, PathKind) == 0
    ensures Count(c.items, SegmentKind) == 8
  {
    var back, stacks, frame, legend := Backdrop(req.title), AllStacks(req.series, req.colors, st), Frame(req), Legend(req.series, req.colors);
    NoMarksCount(back);
    NoMarksCount(frame);
    FourParts(back, stacks, frame, legend, RectKind);
    FourParts(back, stacks, frame, legend, CircleKind);
    FourParts(back, stacks, frame, legend, PathKind);
    FourParts(back, stacks, frame, legend, SegmentKind);
    Canvas(800.0, 600.0, Color("white"), At(0.0, 0.0), back + stacks + frame + legend)
  }

  /** `StackedBarChart::generate`: nothing without series, categories or a
      positive total; otherwise a white 800 x 600 page holding one block per
      positive value and one legend swatch per series. The palette index
      is taken modulo the number of colours, so an empty colour list makes
      the source panic whenever something is drawn. */
  function Generate(st: Settings, req: GraphRequest): (r: Rendering)
    requires Draws(req.series) ==> req.colors != Some([])
    ensures req.series == [] || Longest(req.series) == 0 ==> r.Blank?
    ensures Longest(req.series) > 0 ==> (r.Blank? <==> MaxTotal(req.series).value <= 0.0)
    ensures r.Drawn? ==> r.canvas.width == 800.0 && r.canvas.height == 600.0 && r.canvas.background == Color("white")
    ensures r.Drawn? ==> Count(r.canvas.items, RectKind) == Blocks(Columns(req.series)) + |req.series|
    ensures r.Drawn? ==> Count(r.canvas.items, CircleKind) == 0 && Count(r.canvas.items, PathKind) == 0
    ensures r.Drawn? ==> Count(r.canvas.items, SegmentKind) == 8
  {
    if !Draws(req.series) then Blank else Drawn(Render(st, req))
  }
}
