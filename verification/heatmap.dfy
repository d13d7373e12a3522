/** `HeatmapChart` (src/charts/heatmap.rs): the values laid out row by row
    in a near-square grid of square cells, each filled after where its
    value falls between the smallest and largest value, with a ten-step
    colour strip as legend. */
module Heatmap {
  import opened Wrappers
  import opened Numeric
  import opened Models
  import opened ChartCommon
  import opened Drawing

  /** The colour scales: three single-hue ramps from white, a four-piece
      approximation of Viridis, and a caller's own colour list. */
  datatype ColorScale = Blues | Reds | Greens | Viridis | Custom(colors: seq<string>)

  /** The side of a cell, whether cells print their value, and the scale. */
  datatype Settings = Settings(cellSize: real, showValues: bool, scale: ColorScale)

  const Default: Settings := Settings(40.0, true, Blues)

  const Margin: real := 80.0

  /** Where `v` falls between `lo` and `hi`, from 0 to 1; 0.5 when the
      values are all equal. */
  function Normalized(v: real, lo: real, hi: real): real {
    if hi > lo then (v - lo) / (hi - lo) else 0.5
  }

  /** A value in [lo, hi] normalises into [0, 1]: `lo` to 0 and `hi` to 1
      when they differ, everything to 0.5 when they do not. */
  lemma NormalizedRange(v: real, lo: real, hi: real)
    requires lo <= v <= hi
    ensures 0.0 <= Normalized(v, lo, hi) <= 1.0
    ensures lo < hi ==> Normalized(lo, lo, hi) == 0.0 && Normalized(hi, lo, hi) == 1.0
    ensures lo == hi ==> Normalized(v, lo, hi) == 0.5
  {
    if lo < hi {
      var d := hi - lo;
      assert (v - lo) / d * d == v - lo;
      SelfQuotient(d);
    }
  }

  /** `(normalized * 255.0) as u8`: the ramp position on 0..255. */
  function Intensity(n: real): (k: int)
    ensures 0 <= k <= 255
    ensures 0.0 <= n <= 1.0 ==> k == (n * 255.0).Floor
  {
    AsU8(n * 255.0)
  }

  /** One colour of the Viridis approximation: channel by channel,
      `(a * (1 - t) + b * t) as u8` between the two stops of its quarter. */
  function Blend(a: (real, real, real), b: (real, real, real), t: real): (p: Paint)
    ensures p.Rgb? && 0 <= p.red <= 255 && 0 <= p.green <= 255 && 0 <= p.blue <= 255
  {
    Rgb(AsU8(a.0 * (1.0 - t) + b.0 * t), AsU8(a.1 * (1.0 - t) + b.1 * t), AsU8(a.2 * (1.0 - t) + b.2 * t))
  }

  /** The Viridis approximation: four quarters through five stops. */
  function ViridisColor(n: real): (p: Paint)
    ensures p.Rgb? && 0 <= p.red <= 255 && 0 <= p.green <= 255 && 0 <= p.blue <= 255
  {
    if n < 0.25 then Blend((68.0, 1.0, 84.0), (59.0, 82.0, 139.0), n * 4.0)
    else if n < 0.5 then Blend((59.0, 82.0, 139.0), (33.0, 144.0, 140.0), (n - 0.25) * 4.0)
    else if n < 0.75 then Blend((33.0, 144.0, 140.0), (94.0, 201.0, 98.0), (n - 0.5) * 4.0)
    else Blend((94.0, 201.0, 98.0), (253.0, 231.0, 37.0), (n - 0.75) * 4.0)
  }

  /** The Viridis ramp runs from dark purple at 0 to yellow at 1, and the
      quarters meet: each stop is reached from both sides. */
  lemma ViridisStops()
    ensures ViridisColor(0.0) == Rgb(68, 1, 84)
    ensures ViridisColor(0.25) == Rgb(59, 82, 139)
    ensures ViridisColor(0.5) == Rgb(33, 144, 140)
    ensures ViridisColor(0.75) == Rgb(94, 201, 98)
    ensures ViridisColor(1.0) == Rgb(253, 231, 37)
  {
  }

  /** Which entry of a custom list a normalised value picks:
      `(n * (len - 1)) as usize`, clamped to the last entry. */
  function CustomIndex(n: real, len: nat): (k: nat)
    requires len > 0
    ensures k < len
    ensures 0.0 <= n <= 1.0 ==> k == (n * (len - 1) as real).Floor
    ensures n == 0.0 ==> k == 0
    ensures n == 1.0 ==> k == len - 1
  {
    var raw := AsIndex(n * (len - 1) as real);
    if raw < len - 1 then raw else len - 1
  }

  /** `get_color`: the fill of value `v` on the scale between `lo` and `hi`. */
  function GetColor(scale: ColorScale, v: real, lo: real, hi: real): (p: Paint)
    ensures scale.Blues? ==> p == Rgb(255 - Intensity(Normalized(v, lo, hi)), 255 - Intensity(Normalized(v, lo, hi)), 255)
    ensures scale.Reds? ==> p == Rgb(255, 255 - Intensity(Normalized(v, lo, hi)), 255 - Intensity(Normalized(v, lo, hi)))
    ensures scale.Greens? ==> p == Rgb(255 - Intensity(Normalized(v, lo, hi)), 255, 255 - Intensity(Normalized(v, lo, hi)))
    ensures scale.Viridis? ==> p == ViridisColor(Normalized(v, lo, hi))
    ensures scale.Custom? && scale.colors == [] ==> p == Color("#888888")
    ensures scale.Custom? && scale.colors != [] ==> p == Color(scale.colors[CustomIndex(Normalized(v, lo, hi), |scale.colors|)])
    ensures p.Rgb? ==> 0 <= p.red <= 255 && 0 <= p.green <= 255 && 0 <= p.blue <= 255
  {
    var n := Normalized(v, lo, hi);
    match scale
    case Blues => Rgb(255 - Intensity(n), 255 - Intensity(n), 255)
    case Reds => Rgb(255, 255 - Intensity(n), 255 - Intensity(n))
    case Greens => Rgb(255 - Intensity(n), 255, 255 - Intensity(n))
    case Viridis => ViridisColor(n)
    case Custom(colors) =>
      if colors == [] then Color("#888888") else Color(colors[CustomIndex(n, |colors|)])
  }

  /** On distinct bounds the smallest value gets the pale end of a
      single-hue ramp (white) and the first custom colour, the largest the
      full hue and the last custom colour. */
  lemma ScaleEnds(scale: ColorScale, lo: real, hi: real)
    requires lo < hi
    ensures scale.Blues? ==> GetColor(scale, lo, lo, hi) == Rgb(255, 255, 255) && GetColor(scale, hi, lo, hi) == Rgb(0, 0, 255)
    ensures scale.Reds? ==> GetColor(scale, lo, lo, hi) == Rgb(255, 255, 255) && GetColor(scale, hi, lo, hi) == Rgb(255, 0, 0)
    ensures scale.Greens? ==> GetColor(scale, lo, lo, hi) == Rgb(255, 255, 255) && GetColor(scale, hi, lo, hi) == Rgb(0, 255, 0)
    ensures scale.Custom? && scale.colors != [] ==>
      GetColor(scale, lo, lo, hi) == Color(scale.colors[0]) && GetColor(scale, hi, lo, hi) == Color(scale.colors[|scale.colors| - 1])
  {
    NormalizedRange(lo, lo, hi);
  }

  /** The value text's colour: white when `(v - lo) / (hi - lo)` exceeds
      one half, else black; with `hi == lo` the source compares NaN, which
      is false, so the text is black. */
  function TextColor(v: real, lo: real, hi: real): string {
    if hi != lo && (v - lo) / (hi - lo) > 0.5 then "#fff" else "#000"
  }

  /** The text is white exactly on cells whose normalised value exceeds
      one half, the equal-values case included (0.5 is not above 0.5). */
  lemma TextContrast(v: real, lo: real, hi: real)
    requires lo <= hi
    ensures TextColor(v, lo, hi) == "#fff" <==> Normalized(v, lo, hi) > 0.5
  {
  }

  /** The smallest c with c * c >= n: `(n as f64).sqrt().ceil()`. */
  function CeilSqrt(n: nat): (c: nat)
    ensures c * c >= n
    ensures c == 0 || (c - 1) * (c - 1) < n
  {
    SqrtFrom(n, 0)
  }

  /** The search behind `CeilSqrt`, from candidate `c` upwards. */
  function SqrtFrom(n: nat, c: nat): (r: nat)
    requires c == 0 || (c - 1) * (c - 1) < n
    ensures r * r >= n
    ensures r == 0 || (r - 1) * (r - 1) < n
    decreases n - c
  {
    if c * c >= n then c
    else
      assert c <= c * c;
      SqrtFrom(n, c + 1)
  }

  /** Columns: the ceiling of the square root of the cell count. */
  function Cols(n: nat): (c: nat)
    ensures n >= 1 ==> c >= 1
  {
    CeilSqrt(n)
  }

  /** Rows: the cell count over the columns, rounded up. */
  function Rows(n: nat): nat
    requires n >= 1
  {
    (n + Cols(n) - 1) / Cols(n)
  }

  /** The grid holds every cell with less than a row to spare, and is no
      taller than wide. */
  lemma GridFits(n: nat)
    requires n >= 1
    ensures Cols(n) >= 1
    ensures Rows(n) * Cols(n) >= n && (Rows(n) - 1) * Cols(n) < n
    ensures Rows(n) <= Cols(n)
  {
    var c, q := Cols(n), Rows(n);
    var rem := (n + c - 1) % c;
    assert n + c - 1 == q * c + rem;
    assert q * c >= n;
    assert (q - 1) * c == q * c - c;
    assert n <= c * c;
    assert n + c - 1 < (c + 1) * c;
    RowBelow(q, c + 1, c, n + c - 1);
  }

  /** Every cell's row index is below the row count, so the source's early
      `break` never fires. */
  lemma RowsCover(n: nat, i: nat)
    requires n >= 1 && i < n
    ensures i / Cols(n) < Rows(n)
  {
    GridFits(n);
    var c := Cols(n);
    assert (i / c) * c <= i;
    RowBelow(i / c, Rows(n), c, i);
  }

  /** If `a * c <= x < b * c` then `a < b`. */
  lemma RowBelow(a: int, b: int, c: nat, x: int)
    requires c > 0 && a * c <= x < b * c
    ensures a < b
  {
    var d := b - a;
    assert d * c == b * c - a * c > 0;
  }

  /** Cell `i`: its square at column i % cols and row i / cols, filled by
      value, then the value in the cell's centre when values are shown and
      the cells are wider than 20. */
  function Cell(v: real, i: nat, cols: nat, st: Settings, lo: real, hi: real): (r: seq<Primitive>)
    requires cols > 0
    ensures |r| >= 1 && r[0] == Rect(Margin + (i % cols) as real * st.cellSize, Margin + (i / cols) as real * st.cellSize, st.cellSize, st.cellSize, GetColor(st.scale, v, lo, hi))
    ensures |r| == (if st.showValues && st.cellSize > 20.0 then 2 else 1)
    ensures |r| == 2 ==> r[1] == Text(At(r[0].x + st.cellSize / 2.0, r[0].y + st.cellSize / 2.0), Num(v, 1), Middle, Color(TextColor(v, lo, hi)))
    ensures Count(r, RectKind) == 1 && Count(r, CircleKind) == 0 && Count(r, PathKind) == 0 && Count(r, SegmentKind) == 0
  {
    var x, y := Margin + (i % cols) as real * st.cellSize, Margin + (i / cols) as real * st.cellSize;
    var square := Rect(x, y, st.cellSize, st.cellSize, GetColor(st.scale, v, lo, hi));
    if st.showValues && st.cellSize > 20.0 then
      var r := [square, Text(At(x + st.cellSize / 2.0, y + st.cellSize / 2.0), Num(v, 1), Middle, Color(TextColor(v, lo, hi)))];
      assert r[1..][1..] == [];
      r
    else [square]
  }

  /** Distinct cells take distinct grid slots. */
  lemma SlotsDistinct(i: nat, j: nat, c: nat)
    requires c > 0 && i != j
    ensures (i / c, i % c) != (j / c, j % c)
  {
    assert i == (i / c) * c + i % c && j == (j / c) * c + j % c;
  }

  /** Each cell's square lies inside the grid area, which starts 80 units
      in from the left and top edges: its column is below the column count
      and its row below the row count. */
  lemma CellInside(i: nat, n: nat, cs: real)
    requires n >= 1 && i < n && cs >= 0.0
    ensures Margin <= Margin + (i % Cols(n)) as real * cs && Margin + (i % Cols(n)) as real * cs + cs <= Margin + Cols(n) as real * cs
    ensures Margin <= Margin + (i / Cols(n)) as real * cs && Margin + (i / Cols(n)) as real * cs + cs <= Margin + Rows(n) as real * cs
  {
    RowsCover(n, i);
    SlotsWithin(i % Cols(n), i / Cols(n), Cols(n), Rows(n), cs);
  }

  /** A slot in column `col` < `c` and row `row` < `q`, `cs` wide, lies
      inside the `c` by `q` grid. */
  lemma SlotsWithin(col: nat, row: nat, c: nat, q: nat, cs: real)
    requires col < c && row < q && cs >= 0.0
    ensures Margin <= Margin + col as real * cs && Margin + col as real * cs + cs <= Margin + c as real * cs
    ensures Margin <= Margin + row as real * cs && Margin + row as real * cs + cs <= Margin + q as real * cs
  {
    SlotWithin(col, c, cs);
    SlotWithin(row, q, cs);
  }

  /** For k < m and cs >= 0: k * cs + cs <= m * cs. */
  lemma SlotWithin(k: nat, m: nat, cs: real)
    requires k < m && cs >= 0.0
    ensures 0.0 <= k as real * cs && k as real * cs + cs <= m as real * cs
  {
    assert (k + 1) as real * cs <= m as real * cs;
  }

  /** All cells, in data order. */
  function Cells(values: seq<real>, cols: nat, st: Settings, lo: real, hi: real): (r: seq<Primitive>)
    requires cols > 0
    ensures Count(r, RectKind) == |values|
    ensures Count(r, CircleKind) == 0 && Count(r, PathKind) == 0 && Count(r, SegmentKind) == 0
  {
    var sections := seq(|values|, i requires 0 <= i < |values| => Cell(values[i], i, cols, st, lo, hi));
    CountFlatten(sections, RectKind);
    CountFlatten(sections, CircleKind);
    CountFlatten(sections, PathKind);
    CountFlatten(sections, SegmentKind);
    CountEachUniform(sections, RectKind, 1);
    CountEachUniform(sections, CircleKind, 0);
    CountEachUniform(sections, PathKind, 0);
    CountEachUniform(sections, SegmentKind, 0);
    Flatten(sections)
  }

  /** The value legend step `i` of 10 stands for: lo + i / 9 * (hi - lo). */
  function StepValue(i: nat, lo: real, hi: real): real {
    lo + (i as real / 9.0) * (hi - lo)
  }

  /** On distinct bounds, step `i` normalises to exactly i / 9: the strip
      runs from the colour of the smallest value to that of the largest. */
  lemma StepsSpanScale(i: nat, lo: real, hi: real)
    requires lo < hi
    ensures Normalized(StepValue(i, lo, hi), lo, hi) == i as real / 9.0
    ensures StepValue(0, lo, hi) == lo && StepValue(9, lo, hi) == hi
  {
    var d := hi - lo;
    assert (StepValue(i, lo, hi) - lo) == (i as real / 9.0) * d;
    assert (i as real / 9.0) * d / d == i as real / 9.0;
  }

  /** The legend: its heading, ten 20 x 20 steps side by side from x = 80,
      then the smallest value under the strip's left end and the largest
      under its right end. `top` is the strip's upper edge. */
  function Legend(scale: ColorScale, lo: real, hi: real, top: real): (r: seq<Primitive>)
    ensures |r| == 13
    ensures r[0] == Text(At(Margin, top - 5.0), Str("Color Scale"), Start, Unset)
    ensures forall i :: 0 <= i < 10 ==> r[1 + i] == Rect(Margin + 20.0 * i as real, top, 20.0, 20.0, GetColor(scale, StepValue(i, lo, hi), lo, hi))
    ensures r[11] == Text(At(Margin, top + 35.0), Num(lo, 2), Start, Unset)
    ensures r[12] == Text(At(Margin + 200.0, top + 35.0), Num(hi, 2), End, Unset)
    ensures Count(r, RectKind) == 10 && Count(r, CircleKind) == 0 && Count(r, PathKind) == 0 && Count(r, SegmentKind) == 0
  {
    var steps := seq(10, i requires 0 <= i < 10 => Rect(Margin + 200.0 / 10.0 * i as real, top, 200.0 / 10.0, 20.0, GetColor(scale, StepValue(i, lo, hi), lo, hi)));
    var head := [Text(At(Margin, top - 5.0), Str("Color Scale"), Start, Unset)];
    var tail := [Text(At(Margin, top + 35.0), Num(lo, 2), Start, Unset), Text(At(Margin + 200.0, top + 35.0), Num(hi, 2), End, Unset)];
    CountUniform(steps, RectKind);
    CountNone(head, RectKind);
    CountNone(tail, RectKind);
    forall k | k == CircleKind || k == PathKind || k == SegmentKind
      ensures Count(head, k) == 0 && Count(steps, k) == 0 && Count(tail, k) == 0
      ensures Count(head + steps + tail, k) == 0
    {
      CountNone(head, k);
      CountNone(steps, k);
      CountNone(tail, k);
      ThreeParts(head, steps, tail, k);
    }
    ThreeParts(head, steps, tail, RectKind);
    head + steps + tail
  }

  /** The title, when given, centred over a page `width` wide. */
  function Heading(title: Option<string>, width: real): (r: seq<Primitive>)
    ensures title.Some? ==> r == [Text(At(width / 2.0, 30.0), Str(title.value), Middle, Unset)]
    ensures title.None? ==> r == []
    ensures forall k :: k != TextKind ==> Count(r, k) == 0
  {
    var r := if title.Some? then [Text(At(width / 2.0, 30.0), Str(title.value), Middle, Unset)] else [];
    forall k | k != TextKind
      ensures Count(r, k) == 0
    {
      CountNone(r, k);
    }
    r
  }

  /** What a page `width` x `height` holds: the title centred at the top,
      the cells, and the legend strip 20 below the grid. */
  function Items(values: seq<real>, st: Settings, title: Option<string>, width: real, height: real): (r: seq<Primitive>)
    requires values != []
    ensures Count(r, RectKind) == |values| + 10
    ensures Count(r, CircleKind) == 0 && Count(r, PathKind) == 0 && Count(r, SegmentKind) == 0
  {
    var lo, hi := MinOf(values).value, MaxOf(values).value;
    var head, cells, legend := Heading(title, width), Cells(values, Cols(|values|), st, lo, hi), Legend(st.scale, lo, hi, height - Margin + 20.0);
    ThreeParts(head, cells, legend, RectKind);
    ThreeParts(head, cells, legend, CircleKind);
    ThreeParts(head, cells, legend, PathKind);
    ThreeParts(head, cells, legend, SegmentKind);
    head + cells + legend
  }

  /** The page of non-empty values: 160 + cols * cell wide and 160 + rows
      * cell tall, with no background. */
  function Render(values: seq<real>, st: Settings, title: Option<string>): (c: Canvas)
    requires values != []
    ensures c.width == 2.0 * Margin + Cols(|values|) as real * st.cellSize
    ensures c.height == 2.0 * Margin + Rows(|values|) as real * st.cellSize
    ensures c.background == Unset
    ensures Count(c.items, RectKind) == |values| + 10
    ensures Count(c.items, CircleKind) == 0 && Count(c.items, PathKind) == 0 && Count(c.items, SegmentKind) == 0
  {
    var width, height := 2.0 * Margin + Cols(|values|) as real * st.cellSize, 2.0 * Margin + Rows(|values|) as real * st.cellSize;
    Canvas(width, height, Unset, At(0.0, 0.0), Items(values, st, title, width, height))
  }

  /** `HeatmapChart::generate`: nothing without values; otherwise one
      square per value and ten legend steps. */
  function Generate(st: Settings, req: GraphRequest): (r: Rendering)
    ensures r.Blank? <==> FlatOrFirstSeries(req) == []
    ensures r.Drawn? ==> r.canvas == Render(FlatOrFirstSeries(req), st, req.title)
    ensures r.Drawn? ==> Count(r.canvas.items, RectKind) == |FlatOrFirstSeries(req)| + 10
  {
    var values := FlatOrFirstSeries(req);
    if values == [] then Blank else Drawn(Render(values, st, req.title))
  }
}
