/** `HistogramChart::generate` (src/charts/histogram.rs): the values are
    counted into `bins` equal-width bins between their minimum and maximum,
    and each bin becomes a bar of the 680 x 480 plot area whose lower left
    corner is (60, 540). The page is not translated. */
module Histogram {
  import opened Wrappers
  import opened Numeric
  import opened Models
  import opened ChartCommon
  import opened Drawing
  import opened Margins

  /** The chart's settings; `Default` is 10 bins of counts. */
  datatype Settings = Settings(bins: nat, showDensity: bool)

  const Default: Settings := Settings(10, false)

  const BarFill: Paint := Color("#3498db")

  /** The bin of value `v` when the values span [lo, lo + range]: the floor
      of (v - lo) / (range / bins), capped at the last bin. With a zero range
      the quotient is 0 / 0, a NaN, which `as usize` turns into bin 0. */
  function BinIndex(v: real, lo: real, range: real, bins: nat): (b: nat)
    requires bins >= 1
    ensures b < bins
    ensures range == 0.0 ==> b == 0
  {
    if range == 0.0 then 0
    else
      var q := AsIndex((v - lo) / (range / bins as real));
      if q < bins - 1 then q else bins - 1
  }

  /** Above a zero range the bins split [lo, lo + range] evenly: a value in
      bin `b` lies between its edges lo + b * w and lo + (b + 1) * w, the
      upper edge excluded except for the last bin. */
  lemma BinBounds(v: real, lo: real, range: real, bins: nat)
    requires bins >= 1 && range > 0.0 && lo <= v <= lo + range
    ensures var b, w := BinIndex(v, lo, range, bins) as real, range / bins as real;
      lo + b * w <= v <= lo + (b + 1.0) * w
      && (b < bins as real - 1.0 ==> v < lo + (b + 1.0) * w)
  {
    var w := range / bins as real;
    var q := (v - lo) / w;
    var f := AsIndex(q);
    var b := BinIndex(v, lo, range, bins);
    assert bins as real * w == range;
    QuotientBelow(v - lo, w, bins as real);
    assert b == (if f < bins - 1 then f else bins - 1);
    assert f as real <= q < f as real + 1.0;
    Edges(v - lo, w, q, b as real, b < bins - 1);
  }

  /** A dividend `x` whose quotient by `w` lies in [b, b + 1] lies between
      b and b + 1 divisors, strictly below the upper one when the quotient
      is. */
  lemma Edges(x: real, w: real, q: real, b: real, strict: bool)
    requires w > 0.0 && q * w == x && b <= q <= b + 1.0 && (strict ==> q < b + 1.0)
    ensures b * w <= x <= (b + 1.0) * w
    ensures strict ==> x < (b + 1.0) * w
  {
    assert x - b * w == (q - b) * w;
    assert (b + 1.0) * w - x == (b + 1.0 - q) * w;
    SignOfProduct(q - b, w);
    SignOfProduct(b + 1.0 - q, w);
    if strict {
      assert b + 1.0 - q > 0.0;
      assert (b + 1.0 - q) * w > 0.0;
    }
  }

  /** A product with a positive factor has the sign of the other factor. */
  lemma SignOfProduct(a: real, w: real)
    requires w > 0.0 && a >= 0.0
    ensures a * w >= 0.0 && (a > 0.0 ==> a * w > 0.0)
  {
  }

  /** A quotient by a positive divisor is at most `c` when the dividend is
      at most `c` divisors. */
  lemma QuotientBelow(a: real, w: real, c: real)
    requires w > 0.0 && 0.0 <= a <= c * w
    ensures 0.0 <= a / w <= c && a / w * w == a
  {
  }

  /** The largest value lands in the last bin. */
  lemma MaxInLastBin(lo: real, range: real, bins: nat)
    requires bins >= 1 && range > 0.0
    ensures BinIndex(lo + range, lo, range, bins) == bins - 1
  {
    var w := range / bins as real;
    assert w * bins as real == range;
    assert (lo + range - lo) / w == bins as real;
  }

  /** `vec![0; bins]` after counting every value into its bin. */
  function Tally(data: seq<real>, lo: real, range: real, bins: nat): (counts: seq<nat>)
    requires bins >= 1
    ensures |counts| == bins
    decreases |data|
  {
    if |data| == 0 then seq(bins, _ => 0)
    else
      var prev := Tally(data[..|data| - 1], lo, range, bins);
      var b := BinIndex(data[|data| - 1], lo, range, bins);
      prev[b := prev[b] + 1]
  }

  /** How many of the values fall in bin `b`, counted independently of `Tally`. */
  function InBin(data: seq<real>, lo: real, range: real, bins: nat, b: nat): nat
    requires bins >= 1
  {
    if |data| == 0 then 0
    else InBin(data[1..], lo, range, bins, b) + (if BinIndex(data[0], lo, range, bins) == b then 1 else 0)
  }

  lemma {:induction false} InBinSnoc(data: seq<real>, v: real, lo: real, range: real, bins: nat, b: nat)
    requires bins >= 1
    ensures InBin(data + [v], lo, range, bins, b) == InBin(data, lo, range, bins, b) + (if BinIndex(v, lo, range, bins) == b then 1 else 0)
  {
    if |data| > 0 {
      assert (data + [v])[1..] == data[1..] + [v];
      InBinSnoc(data[1..], v, lo, range, bins, b);
    } else {
      assert (data + [v])[1..] == [];
    }
  }

  /** Each bin's count is the number of values in it. */
  lemma {:induction false} TallyCounts(data: seq<real>, lo: real, range: real, bins: nat)
    requires bins >= 1
    ensures forall b :: 0 <= b < bins ==> Tally(data, lo, range, bins)[b] == InBin(data, lo, range, bins, b)
    decreases |data|
  {
    if |data| > 0 {
      var init, v := data[..|data| - 1], data[|data| - 1];
      TallyCounts(init, lo, range, bins);
      assert data == init + [v];
      forall b | 0 <= b < bins
        ensures Tally(data, lo, range, bins)[b] == InBin(data, lo, range, bins, b)
      {
        InBinSnoc(init, v, lo, range, bins, b);
      }
    }
  }

  /** Adding one to an entry adds one to the total. */
  lemma {:induction false} IntSumBump(s: seq<nat>, b: nat)
    requires b < |s|
    ensures IntSum(s[b := s[b] + 1]) == IntSum(s) + 1
  {
    if b > 0 {
      assert s[b := s[b] + 1][1..] == s[1..][b - 1 := s[1..][b - 1] + 1];
      IntSumBump(s[1..], b - 1);
    } else {
      assert s[b := s[b] + 1][1..] == s[1..];
    }
  }

  lemma {:induction false} IntSumZeros(s: seq<nat>)
    requires forall i :: 0 <= i < |s| ==> s[i] == 0
    ensures IntSum(s) == 0
  {
    if |s| > 0 {
      IntSumZeros(s[1..]);
    }
  }

  /** The bin counts add up to the number of values: every value is counted once. */
  lemma {:induction false} TallyTotal(data: seq<real>, lo: real, range: real, bins: nat)
    requires bins >= 1
    ensures IntSum(Tally(data, lo, range, bins)) == |data|
    decreases |data|
  {
    if |data| == 0 {
      IntSumZeros(Tally(data, lo, range, bins));
    } else {
      var prev := Tally(data[..|data| - 1], lo, range, bins);
      TallyTotal(data[..|data| - 1], lo, range, bins);
      IntSumBump(prev, BinIndex(data[|data| - 1], lo, range, bins));
    }
  }

  /** The counting loop: one pass over the values, one increment each. */
  method CountBins(data: seq<real>, lo: real, range: real, bins: nat) returns (counts: seq<nat>)
    requires bins >= 1
    ensures |counts| == bins
    ensures forall b :: 0 <= b < bins ==> counts[b] == InBin(data, lo, range, bins, b)
    ensures IntSum(counts) == |data|
  {
    counts := seq(bins, _ => 0);
    var i := 0;
    while i < |data|
      invariant 0 <= i <= |data|
      invariant counts == Tally(data[..i], lo, range, bins)
    {
      var b := BinIndex(data[i], lo, range, bins);
      assert data[..i + 1][..i] == data[..i];
      counts := counts[b := counts[b] + 1];
      i := i + 1;
    }
    assert data[..|data|] == data;
    TallyCounts(data, lo, range, bins);
    TallyTotal(data, lo, range, bins);
  }

  /** The largest count. */
  function Tallest(counts: seq<nat>): (m: nat)
    requires |counts| >= 1
    ensures forall i :: 0 <= i < |counts| ==> counts[i] <= m
    ensures exists i :: 0 <= i < |counts| && counts[i] == m
  {
    if |counts| == 1 then counts[0]
    else
      var rest := Tallest(counts[1..]);
      assert forall i :: 1 <= i < |counts| ==> counts[i] == counts[1..][i - 1];
      if counts[0] >= rest then counts[0] else rest
  }

  /** Counts adding up to something positive have a positive maximum. */
  lemma TallestPositive(counts: seq<nat>)
    requires |counts| >= 1 && IntSum(counts) > 0
    ensures Tallest(counts) > 0
  {
    if Tallest(counts) == 0 {
      IntSumZeros(counts);
    }
  }

  /** The height that stands for one unit: the number of values times the bin
      width when showing density, else the largest count. */
  function Scale(s: Settings, n: nat, w: real, counts: seq<nat>): real
    requires |counts| >= 1
  {
    if s.showDensity then n as real * w else Tallest(counts) as real
  }

  /** A bar's height: its share of the scale of the 480-unit plot height, or
      nothing when the scale is not positive. */
  function BarHeight(count: nat, scale: real): (h: real)
    ensures scale <= 0.0 ==> h == 0.0
    ensures scale > 0.0 && count as real <= scale ==> 0.0 <= h <= 480.0
    ensures scale > 0.0 && count as real == scale ==> h == 480.0
  {
    if scale > 0.0 then (count as real / scale) * 480.0 else 0.0
  }

  /** Bar `i` of `bins`: starting 60 + i * 680 / bins, one unit narrower than
      its slot, standing on y = 540. */
  function Bar(i: nat, bins: nat, count: nat, scale: real): (r: Primitive)
    requires bins >= 1
    ensures r.Rect? && r.fill == BarFill
    ensures r.x == 60.0 + i as real * (680.0 / bins as real) && r.w == 680.0 / bins as real - 1.0
    ensures r.h == BarHeight(count, scale) && r.y + r.h == 540.0
  {
    var h := BarHeight(count, scale);
    Rect(60.0 + i as real * (680.0 / bins as real), 540.0 - h, 680.0 / bins as real - 1.0, h, BarFill)
  }

  /** The bars, one per bin in bin order. */
  function Bars(counts: seq<nat>, scale: real): (r: seq<Primitive>)
    requires |counts| >= 1
    ensures |r| == |counts|
    ensures forall i :: 0 <= i < |r| ==> r[i] == Bar(i, |counts|, counts[i], scale)
    ensures Count(r, RectKind) == |counts|
  {
    var r := seq(|counts|, i requires 0 <= i < |counts| => Bar(i, |counts|, counts[i], scale));
    CountUniform(r, RectKind);
    r
  }

  /** The bars tile the plot's width: the first starts at its left edge,
      each slot starts where the previous one ends, and the last ends at
      its right edge. */
  lemma BarsTile(counts: seq<nat>, scale: real, i: nat)
    requires |counts| >= 1 && i + 1 < |counts|
    ensures Bars(counts, scale)[0].x == 60.0
    ensures Bars(counts, scale)[i].x + Bars(counts, scale)[i].w + 1.0 == Bars(counts, scale)[i + 1].x
    ensures var last := Bars(counts, scale)[|counts| - 1]; last.x + last.w + 1.0 == 740.0
  {
    SlotsTile(|counts|, i);
  }

  /** Slot `i` of `n` equal slots of width w = 680 / n from x = 60 starts
      one width after slot `i - 1`, and slot `n - 1` ends at 740. */
  lemma SlotsTile(n: nat, i: nat)
    requires n >= 1 && i + 1 < n
    ensures var w := 680.0 / n as real;
      60.0 + i as real * w + w == 60.0 + (i + 1) as real * w
      && 60.0 + (n - 1) as real * w + w == 740.0
  {
    var w := 680.0 / n as real;
    assert (n - 1) as real * w + w == n as real * w;
  }

  /** In count mode some bar is exactly as tall as the plot and none is taller. */
  lemma TallestFillsPlot(s: Settings, data: seq<real>, lo: real, range: real)
    requires s.bins >= 1 && !s.showDensity && |data| > 0
    ensures var counts := Tally(data, lo, range, s.bins);
      var bars := Bars(counts, Scale(s, |data|, range / s.bins as real, counts));
      (exists i :: 0 <= i < |bars| && bars[i].h == 480.0)
      && forall i :: 0 <= i < |bars| ==> 0.0 <= bars[i].h <= 480.0
  {
    var counts := Tally(data, lo, range, s.bins);
    TallyTotal(data, lo, range, s.bins);
    TallestPositive(counts);
    var scale := Scale(s, |data|, range / s.bins as real, counts);
    var bars := Bars(counts, scale);
    var i :| 0 <= i < |counts| && counts[i] == Tallest(counts);
    assert bars[i].h == 480.0;
  }

  /** Edge label `i` of the `bins + 1` bin edges: lo + i * range / bins at
      the edge's x, one decimal. */
  function EdgeLabel(i: nat, bins: nat, lo: real, range: real): Primitive
    requires bins >= 1
  {
    Text(At(60.0 + i as real * 680.0 / bins as real, 560.0), Num(lo + i as real * range / bins as real, 1), Middle, Unset)
  }

  /** Count label `i` of 6: scale * i / 5 truncated to an `i32`. */
  function CountLabel(i: nat, scale: real): Primitive {
    Text(At(50.0, LevelY(i)), Int(AsI32(scale * i as real / 5.0)), End, Unset)
  }

  /** Both axes, the bin-edge labels, the count labels, then the axis
      titles when given. */
  function Frame(req: GraphRequest, bins: nat, lo: real, range: real, scale: real): (r: seq<Primitive>)
    requires bins >= 1
    ensures NoMarks(r)
    ensures Count(r, SegmentKind) == 2
    ensures r[..2] == PlotAxes()
    ensures |r| >= 2 + (bins + 1) + 6
    ensures forall i :: 0 <= i <= bins ==> r[2 + i] == EdgeLabel(i, bins, lo, range)
    ensures forall i :: 0 <= i < 6 ==> r[3 + bins + i] == CountLabel(i, scale)
  {
    var edges := seq(bins + 1, i requires 0 <= i <= bins => EdgeLabel(i, bins, lo, range));
    var levels := seq(6, i requires 0 <= i < 6 => CountLabel(i, scale));
    var titles := AxisTitles(req.xLabel, req.yLabel);
    var texts := edges + levels + titles;
    CountNone(texts, SegmentKind);
    CountConcat(PlotAxes(), texts, SegmentKind);
    PlotAxes() + texts
  }

  /** `HistogramChart::generate`: nothing without values; otherwise an
      unframed 800 x 600 page with one bar per bin, the bin counts adding up
      to the number of values. An empty bin list makes the source panic,
      hence `bins >= 1`. */
  function Generate(s: Settings, req: GraphRequest): (r: Rendering)
    requires s.bins >= 1
    ensures r.Blank? <==> FlatOrFirstSeries(req) == []
    ensures r.Drawn? ==> r.canvas.width == 800.0 && r.canvas.height == 600.0 && r.canvas.origin == At(0.0, 0.0)
    ensures r.Drawn? ==> Count(r.canvas.items, RectKind) == s.bins
    ensures r.Drawn? ==> Count(r.canvas.items, SegmentKind) == 8
    ensures r.Drawn? ==> Count(r.canvas.items, CircleKind) == 0 && Count(r.canvas.items, PathKind) == 0
  {
    var data := FlatOrFirstSeries(req);
    if data == [] then Blank
    else
      var lo, hi := MinOf(data).value, MaxOf(data).value;
      var range := hi - lo;
      var counts := Tally(data, lo, range, s.bins);
      var scale := Scale(s, |data|, range / s.bins as real, counts);
      var back, bars, frame := Backdrop(req.title), Bars(counts, scale), Frame(req, s.bins, lo, range, scale);
      NoMarksCount(back);
      NoMarksCount(frame);
      forall k: Kind
        ensures Count(back + bars + frame, k) == Count(back, k) + Count(bars, k) + Count(frame, k)
      {
        CountConcat(back, bars, k);
        CountConcat(back + bars, frame, k);
      }
      CountUniform(bars, RectKind);
      assert Count(bars, SegmentKind) == 0 by { CountNone(bars, SegmentKind); }
      assert Count(bars, CircleKind) == 0 by { CountNone(bars, CircleKind); }
      assert Count(bars, PathKind) == 0 by { CountNone(bars, PathKind); }
      Drawn(Canvas(800.0, 600.0, Unset, At(0.0, 0.0), back + bars + frame))
  }

  /** Every value is counted: the bars of a drawn histogram stand for
      exactly the number of values. */
  lemma EveryValueCounted(s: Settings, req: GraphRequest)
    requires s.bins >= 1 && FlatOrFirstSeries(req) != []
    ensures var data := FlatOrFirstSeries(req);
      IntSum(Tally(data, MinOf(data).value, MaxOf(data).value - MinOf(data).value, s.bins)) == |data|
  {
    var data := FlatOrFirstSeries(req);
    TallyTotal(data, MinOf(data).value, MaxOf(data).value - MinOf(data).value, s.bins);
  }
}
