/** `CandlestickChart` (src/charts/candlestick.rs): open/high/low/close
    candles, read from the flat data as quadruples or fabricated from the
    first series, drawn in equal slots across the plot on a price scale
    padded by a tenth of the price range above and below. */
module Candlestick {
  import opened Wrappers
  import opened Numeric
  import opened Models
  import opened Drawing
  import opened Margins

  /** One period's four prices, with the label of the point it came from. */
  datatype Candle = Candle(open: real, high: real, low: real, close: real, caption: Option<string>)

  /** Consecutive groups of four prices, read as open, high, low, close. */
  function Quadruples(data: seq<real>): (r: seq<Candle>)
    ensures |r| == |data| / 4
    ensures forall k :: 0 <= k < |r| ==> r[k] == Candle(data[4 * k], data[4 * k + 1], data[4 * k + 2], data[4 * k + 3], None)
    decreases |data|
  {
    if |data| < 4 then []
    else
      var rest := Quadruples(data[4..]);
      assert forall k :: 1 <= k < 1 + |rest| ==> data[4 * k] == data[4..][4 * (k - 1)];
      [Candle(data[0], data[1], data[2], data[3], None)] + rest
  }

  /** The prices of candles, four per candle in open, high, low, close order. */
  function Prices(candles: seq<Candle>): (r: seq<real>)
    ensures |r| == 4 * |candles|
  {
    if |candles| == 0 then []
    else [candles[0].open, candles[0].high, candles[0].low, candles[0].close] + Prices(candles[1..])
  }

  /** Reading a whole number of quadruples loses and invents nothing: the
      candles' prices are the data again. */
  lemma {:induction false} QuadruplesRoundTrip(data: seq<real>)
    requires |data| % 4 == 0
    ensures Prices(Quadruples(data)) == data
    decreases |data|
  {
    if |data| >= 4 {
      QuadruplesRoundTrip(data[4..]);
      assert Quadruples(data)[1..] == Quadruples(data[4..]);
      assert data == data[..4] + data[4..];
    }
  }

  /** A candle fabricated from one value `b`: open b + 0.02b, high b + 0.1b,
      low b - 0.1b, close b - 0.03b, keeping the point's label. */
  function Fabricate(d: DataPoint): (c: Candle)
    ensures c.open == 1.02 * d.value && c.high == 1.1 * d.value
    ensures c.low == 0.9 * d.value && c.close == 0.97 * d.value
    ensures c.caption == d.caption
  {
    var base := d.value;
    var variation := base * 0.1;
    Candle(base + variation * 0.2, base + variation, base - variation, base - variation * 0.3, d.caption)
  }

  /** A fabricated candle of a positive value is a falling candle whose
      close and open lie strictly between its low and high; from a negative
      value the order flips and the "high" lies below the "low". */
  lemma FabricatedShape(d: DataPoint)
    ensures d.value > 0.0 ==> Fabricate(d).low < Fabricate(d).close < Fabricate(d).open < Fabricate(d).high
    ensures d.value < 0.0 ==> Fabricate(d).high < Fabricate(d).low
    ensures d.value == 0.0 ==> Fabricate(d) == Candle(0.0, 0.0, 0.0, 0.0, d.caption)
  {
  }

  /** `parse_ohlc_data`: non-empty flat data whose length is a multiple of
      four is read as quadruples; otherwise every point of the first series
      is fabricated into a candle; without either there are no candles. */
  function ParseOhlc(req: GraphRequest): (r: seq<Candle>)
    ensures |req.data| > 0 && |req.data| % 4 == 0 ==> r == Quadruples(req.data) && Prices(r) == req.data
    ensures !(|req.data| > 0 && |req.data| % 4 == 0) && req.series != [] ==>
      |r| == |req.series[0].data| && forall k :: 0 <= k < |r| ==> r[k] == Fabricate(req.series[0].data[k])
    ensures !(|req.data| > 0 && |req.data| % 4 == 0) && req.series == [] ==> r == []
    ensures r == [] <==> (|req.data| % 4 != 0 || req.data == []) && (req.series == [] || req.series[0].data == [])
  {
    if |req.data| > 0 && |req.data| % 4 == 0 then
      QuadruplesRoundTrip(req.data);
      Quadruples(req.data)
    else if req.series != [] then
      seq(|req.series[0].data|, k requires 0 <= k < |req.series[0].data| => Fabricate(req.series[0].data[k]))
    else []
  }

  function Lows(candles: seq<Candle>): (r: seq<real>)
    ensures |r| == |candles| && forall k :: 0 <= k < |r| ==> r[k] == candles[k].low
  {
    seq(|candles|, k requires 0 <= k < |candles| => candles[k].low)
  }

  function Highs(candles: seq<Candle>): (r: seq<real>)
    ensures |r| == |candles| && forall k :: 0 <= k < |r| ==> r[k] == candles[k].high
  {
    seq(|candles|, k requires 0 <= k < |candles| => candles[k].high)
  }

  /** The price scale: the lowest low and the highest high, each pushed
      out by a tenth of their distance. */
  datatype Scale = Scale(minLow: real, maxHigh: real, lo: real, hi: real)

  function ScaleOf(candles: seq<Candle>): (sc: Scale)
    requires candles != []
    ensures forall k :: 0 <= k < |candles| ==> sc.minLow <= candles[k].low && candles[k].high <= sc.maxHigh
    ensures exists k :: 0 <= k < |candles| && candles[k].low == sc.minLow
    ensures exists k :: 0 <= k < |candles| && candles[k].high == sc.maxHigh
    ensures sc.lo == sc.minLow - (sc.maxHigh - sc.minLow) * 0.1
    ensures sc.hi == sc.maxHigh + (sc.maxHigh - sc.minLow) * 0.1
    ensures sc.hi - sc.lo == 1.2 * (sc.maxHigh - sc.minLow)
  {
    var minLow, maxHigh := MinOf(Lows(candles)).value, MaxOf(Highs(candles)).value;
    var padding := (maxHigh - minLow) * 0.1;
    Scale(minLow, maxHigh, minLow - padding, maxHigh + padding)
  }

  /** y of price `p`: 540 - (p - lo) / (hi - lo) * 480. */
  function PriceY(p: real, sc: Scale): real
    requires sc.hi != sc.lo
  {
    Bottom - (p - sc.lo) / (sc.hi - sc.lo) * (Bottom - Top)
  }

  /** With a positive price range the padding keeps a 40-unit band free at
      either end: the lowest low is drawn at y = 500, the highest high at
      y = 100, and every price between them in between, higher prices
      higher up. */
  lemma PaddedScale(sc: Scale, u: real, v: real)
    requires sc.minLow < sc.maxHigh
    requires sc.lo == sc.minLow - (sc.maxHigh - sc.minLow) * 0.1 && sc.hi == sc.maxHigh + (sc.maxHigh - sc.minLow) * 0.1
    requires sc.minLow <= u <= v <= sc.maxHigh
    ensures PriceY(sc.minLow, sc) == 500.0 && PriceY(sc.maxHigh, sc) == 100.0
    ensures 100.0 <= PriceY(v, sc) <= PriceY(u, sc) <= 500.0
    ensures u < v ==> PriceY(v, sc) < PriceY(u, sc)
  {
    var r := sc.maxHigh - sc.minLow;
    var d := sc.hi - sc.lo;
    assert d == 1.2 * r;
    assert (sc.minLow - sc.lo) / d == 1.0 / 12.0 by { assert sc.minLow - sc.lo == 0.1 * r; }
    assert (sc.maxHigh - sc.lo) / d == 11.0 / 12.0 by { assert sc.maxHigh - sc.lo == 1.1 * r; }
    QuotientOrder(u - sc.lo, v - sc.lo, d);
    QuotientOrder(sc.minLow - sc.lo, u - sc.lo, d);
    QuotientOrder(v - sc.lo, sc.maxHigh - sc.lo, d);
  }

  /** A rising candle: close at or above open. */
  predicate IsUp(c: Candle) {
    c.close >= c.open
  }

  /** The body fill of the up and down classes. */
  function BodyFill(c: Candle): (p: Paint)
    ensures IsUp(c) <==> p == Color("#2ecc71")
    ensures !IsUp(c) <==> p == Color("#e74c3c")
  {
    if IsUp(c) then Color("#2ecc71") else Color("#e74c3c")
  }

  /** The body's upper and lower edge: the close over the open for a rising
      candle, the open over the close otherwise. */
  function BodyTop(c: Candle, sc: Scale): real
    requires sc.hi != sc.lo
  {
    if IsUp(c) then PriceY(c.close, sc) else PriceY(c.open, sc)
  }

  function BodyBottom(c: Candle, sc: Scale): real
    requires sc.hi != sc.lo
  {
    if IsUp(c) then PriceY(c.open, sc) else PriceY(c.close, sc)
  }

  /** The body of candle `i` of `n`: 0.6 of a slot wide, centred on the
      slot, from the body's top down and at least one unit tall, filled
      after the candle's direction. */
  function Body(c: Candle, i: nat, n: nat, sc: Scale): (r: Primitive)
    requires i < n && sc.hi != sc.lo
    ensures r.Rect? && r.x == SlotCentre(i, n) - r.w / 2.0 && r.w == Spacing(n) * 0.6
    ensures r.y == BodyTop(c, sc) && r.h == Max(Abs(BodyBottom(c, sc) - BodyTop(c, sc)), 1.0) && r.h >= 1.0
    ensures r.fill == BodyFill(c)
  {
    var width := Spacing(n) * 0.6;
    Rect(SlotCentre(i, n) - width / 2.0, BodyTop(c, sc), width, Max(Abs(BodyBottom(c, sc) - BodyTop(c, sc)), 1.0), BodyFill(c))
  }

  /** Candle `i` of `n`: the upper wick from the high down to the body, the
      lower wick from the body down to the low, then the body. */
  function CandleMarks(c: Candle, i: nat, n: nat, sc: Scale): (r: seq<Primitive>)
    requires i < n && sc.hi != sc.lo
    ensures |r| == 3 && r[2] == Body(c, i, n, sc)
    ensures r[0] == Segment(At(SlotCentre(i, n), PriceY(c.high, sc)), At(SlotCentre(i, n), BodyTop(c, sc)), Unset)
    ensures r[1] == Segment(At(SlotCentre(i, n), BodyBottom(c, sc)), At(SlotCentre(i, n), PriceY(c.low, sc)), Unset)
    ensures Count(r, SegmentKind) == 2 && Count(r, RectKind) == 1
    ensures Count(r, CircleKind) == 0 && Count(r, PathKind) == 0
  {
    var x := SlotCentre(i, n);
    var wicks := [Segment(At(x, PriceY(c.high, sc)), At(x, BodyTop(c, sc)), Unset),
                  Segment(At(x, BodyBottom(c, sc)), At(x, PriceY(c.low, sc)), Unset)];
    var body := [Body(c, i, n, sc)];
    CountUniform(wicks, SegmentKind);
    CountUniform(body, RectKind);
    forall k | k != SegmentKind
      ensures Count(wicks, k) == 0
    {
      CountNone(wicks, k);
    }
    forall k | k != RectKind
      ensures Count(body, k) == 0
    {
      CountNone(body, k);
    }
    CountConcat(wicks, body, SegmentKind);
    CountConcat(wicks, body, RectKind);
    CountConcat(wicks, body, CircleKind);
    CountConcat(wicks, body, PathKind);
    wicks + body
  }

  /** A candle whose low and high bracket its open and close, on a scale
      with a positive range: the body spans exactly from the higher of open
      and close down to the lower one (grown to one unit when flatter), the
      upper wick runs down from the high to the body's top and the lower
      wick on from the body's bottom down to the low. */
  lemma CandleShape(c: Candle, i: nat, n: nat, sc: Scale)
    requires i < n && sc.lo < sc.hi
    requires c.low <= c.open <= c.high && c.low <= c.close <= c.high
    ensures BodyTop(c, sc) == PriceY(Max(c.open, c.close), sc)
    ensures BodyBottom(c, sc) == PriceY(Min(c.open, c.close), sc)
    ensures Body(c, i, n, sc).h == Max(BodyBottom(c, sc) - BodyTop(c, sc), 1.0)
    ensures CandleMarks(c, i, n, sc)[0].from.y <= CandleMarks(c, i, n, sc)[0].to.y
    ensures CandleMarks(c, i, n, sc)[1].from.y <= CandleMarks(c, i, n, sc)[1].to.y
  {
    var d := sc.hi - sc.lo;
    QuotientOrder(Min(c.open, c.close) - sc.lo, Max(c.open, c.close) - sc.lo, d);
    QuotientOrder(Max(c.open, c.close) - sc.lo, c.high - sc.lo, d);
    QuotientOrder(c.low - sc.lo, Min(c.open, c.close) - sc.lo, d);
  }

  /** Each body stays inside its own slot, so neighbouring bodies never
      touch: a fifth of a slot is left free on either side. */
  lemma BodyInSlot(c: Candle, i: nat, n: nat, sc: Scale)
    requires i < n && sc.hi != sc.lo
    ensures Left + i as real * Spacing(n) < Body(c, i, n, sc).x
    ensures Body(c, i, n, sc).x + Body(c, i, n, sc).w < Left + (i + 1) as real * Spacing(n)
  {
    var w := Spacing(n);
    assert Body(c, i, n, sc).x == Left + i as real * w + 0.2 * w;
  }

  /** Every candle, in order. */
  function AllCandles(candles: seq<Candle>, n: nat, from: nat, sc: Scale): (r: seq<Primitive>)
    requires from + |candles| <= n && sc.hi != sc.lo
    ensures Count(r, SegmentKind) == 2 * |candles| && Count(r, RectKind) == |candles|
    ensures Count(r, CircleKind) == 0 && Count(r, PathKind) == 0
    decreases |candles|
  {
    if |candles| == 0 then []
    else
      var head, rest := CandleMarks(candles[0], from, n, sc), AllCandles(candles[1..], n, from + 1, sc);
      CountConcat(head, rest, SegmentKind);
      CountConcat(head, rest, RectKind);
      CountConcat(head, rest, CircleKind);
      CountConcat(head, rest, PathKind);
      head + rest
  }

  /** Price label `i` of 6, bottom to top: lo + (hi - lo) * i / 5, two decimals. */
  function PriceLabel(i: nat, sc: Scale): (r: Primitive)
    ensures r.Text? && r.at == At(50.0, LevelY(i)) && r.anchor == End
    ensures r.content == Num(sc.lo + (sc.hi - sc.lo) * i as real / 5.0, 2)
  {
    Text(At(50.0, LevelY(i)), Num(sc.lo + (sc.hi - sc.lo) * i as real / 5.0, 2), End, Unset)
  }

  /** The six price labels up the y axis; the lowest reads lo, the highest hi. */
  function PriceLabels(sc: Scale): (r: seq<Primitive>)
    ensures |r| == 6 && forall i :: 0 <= i < 6 ==> r[i] == PriceLabel(i, sc)
    ensures r[0] == Text(At(50.0, LevelY(0)), Num(sc.lo, 2), End, Unset)
    ensures r[5] == Text(At(50.0, LevelY(5)), Num(sc.hi, 2), End, Unset)
    ensures NoMarks(r) && Count(r, SegmentKind) == 0
  {
    var r := seq(6, i requires 0 <= i < 6 => PriceLabel(i, sc));
    assert r[0] == PriceLabel(0, sc) && r[5] == PriceLabel(5, sc);
    assert (sc.hi - sc.lo) * 5 as real / 5.0 == sc.hi - sc.lo;
    assert forall i :: 0 <= i < |r| ==> r[i].Text?;
    TextsOnly(r);
    r
  }

  /** The label stride: a label every max(n / 8, 1) candles. */
  function Stride(n: nat): (k: nat)
    ensures k >= 1
  {
    if n / 8 > 1 then n / 8 else 1
  }

  /** Whether candle `i` of `n` gets a label under the x axis. */
  predicate Shown(i: nat, n: nat) {
    i % Stride(n) == 0
  }

  /** The first candle is always labelled, and with fewer than 16 candles
      the stride is 1, so every candle is. */
  lemma ShownCandles(i: nat, n: nat)
    ensures Shown(0, n)
    ensures n < 16 ==> Shown(i, n)
    ensures n >= 16 ==> (Shown(i, n) <==> i % (n / 8) == 0)
  {
  }

  /** The label of candle `i`: its caption, else its number i + 1. */
  function CandleLabel(c: Candle, i: nat, n: nat): (r: Primitive)
    requires i < n
    ensures r.Text? && r.at == At(SlotCentre(i, n), 560.0)
    ensures c.caption.Some? ==> r.content == Str(c.caption.value)
    ensures c.caption.None? ==> r.content == Int(i + 1)
  {
    Text(At(SlotCentre(i, n), 560.0), if c.caption.Some? then Str(c.caption.value) else Int(i + 1), Middle, Unset)
  }

  /** The labels of the shown candles among `candles`, the first being
      candle `from` of `n`. */
  function CandleLabels(candles: seq<Candle>, n: nat, from: nat): (r: seq<Primitive>)
    requires from + |candles| <= n
    ensures |r| <= |candles|
    ensures |candles| > 0 && Shown(from, n) ==> |r| > 0 && r[0] == CandleLabel(candles[0], from, n)
    ensures NoMarks(r) && Count(r, SegmentKind) == 0
    decreases |candles|
  {
    if |candles| == 0 then []
    else
      var head := if Shown(from, n) then [CandleLabel(candles[0], from, n)] else [];
      var rest := CandleLabels(candles[1..], n, from + 1);
      CountNone(head, SegmentKind);
      NoMarksConcat(head, rest);
      CountConcat(head, rest, SegmentKind);
      head + rest
  }

  /** Every candle is labelled exactly when it is shown: the labels are the
      captions of the shown candles, in order. */
  lemma {:induction false} LabelsOfShown(candles: seq<Candle>, n: nat, from: nat)
    requires from + |candles| <= n
    ensures CandleLabels(candles, n, from) == ShownLabels(candles, n, from)
    decreases |candles|
  {
    if |candles| > 0 {
      LabelsOfShown(candles[1..], n, from + 1);
    }
  }

  /** The same labels by index: for each shown position, its label. */
  function ShownLabels(candles: seq<Candle>, n: nat, from: nat): seq<Primitive>
    requires from + |candles| <= n
    decreases |candles|
  {
    if |candles| == 0 then []
    else if !Shown(from, n) then ShownLabels(candles[1..], n, from + 1)
    else [CandleLabel(candles[0], from, n)] + ShownLabels(candles[1..], n, from + 1)
  }

  /** The axes, the price labels, the candle labels and the axis titles. */
  function Frame(candles: seq<Candle>, sc: Scale, req: GraphRequest): (r: seq<Primitive>)
    ensures |r| >= 2 && r[..2] == PlotAxes()
    ensures NoMarks(r) && Count(r, SegmentKind) == 2
  {
    var axes, left, below, titles := PlotAxes(), PriceLabels(sc), CandleLabels(candles, |candles|, 0), AxisTitles(req.xLabel, req.yLabel);
    NoMarksConcat(axes, left);
    NoMarksConcat(axes + left, below);
    NoMarksConcat(axes + left + below, titles);
    FourParts(axes, left, below, titles, SegmentKind);
    axes + left + below + titles
  }

  /** The page of non-empty candles on a scale with a nonzero range. */
  function Render(candles: seq<Candle>, sc: Scale, req: GraphRequest): (c: Canvas)
    requires candles != [] && sc.hi != sc.lo
    ensures c.width == 800.0 && c.height == 600.0 && c.background == Color("white")
    ensures Count(c.items, RectKind) == |candles|
    ensures Count(c.items, SegmentKind) == 8 + 2 * |candles|
    ensures Count(c.items, CircleKind) == 0 && Count(c.items, PathKind) == 0
  {
    var back, marks, frame := Backdrop(req.title), AllCandles(candles, |candles|, 0, sc), Frame(candles, sc, req);
    NoMarksCount(back);
    NoMarksCount(frame);
    ThreeParts(back, marks, frame, RectKind);
    ThreeParts(back, marks, frame, SegmentKind);
    ThreeParts(back, marks, frame, CircleKind);
    ThreeParts(back, marks, frame, PathKind);
    Canvas(800.0, 600.0, Color("white"), At(0.0, 0.0), back + marks + frame)
  }

  /** The price range, highest high minus lowest low. */
  function PriceRange(candles: seq<Candle>): real
    requires candles != []
  {
    ScaleOf(candles).maxHigh - ScaleOf(candles).minLow
  }

  /** On a positive price range, every candle whose low is at most its
      high has both wick ends inside the padded band y in [100, 500] of
      the plot, the high above the low. */
  lemma WicksInsidePlot(candles: seq<Candle>, k: nat)
    requires candles != [] && PriceRange(candles) > 0.0
    requires k < |candles| && candles[k].low <= candles[k].high
    ensures 100.0 <= PriceY(candles[k].high, ScaleOf(candles)) <= PriceY(candles[k].low, ScaleOf(candles)) <= 500.0
  {
    PaddedScale(ScaleOf(candles), candles[k].low, candles[k].high);
  }

  /** A nonzero price range gives the padded scale a nonzero span. */
  lemma SpreadScale(candles: seq<Candle>)
    requires candles != [] && PriceRange(candles) != 0.0
    ensures ScaleOf(candles).hi != ScaleOf(candles).lo
  {
    var sc := ScaleOf(candles);
    assert sc.hi - sc.lo == 1.2 * (sc.maxHigh - sc.minLow);
  }

  /** `CandlestickChart::generate`: nothing without candles; otherwise a
      white 800 x 600 page with two wicks and a body per candle over six
      grid lines and the two axes. A zero price range divides zero by zero
      in the source, hence the precondition. */
  function Generate(req: GraphRequest): (r: Rendering)
    requires ParseOhlc(req) != [] ==> PriceRange(ParseOhlc(req)) != 0.0
    ensures r.Blank? <==> ParseOhlc(req) == []
    ensures r.Drawn? ==> r.canvas.width == 800.0 && r.canvas.height == 600.0 && r.canvas.background == Color("white")
    ensures r.Drawn? ==> Count(r.canvas.items, RectKind) == |ParseOhlc(req)|
    ensures r.Drawn? ==> Count(r.canvas.items, SegmentKind) == 8 + 2 * |ParseOhlc(req)|
  {
    var candles := ParseOhlc(req);
    if candles == [] then Blank
    else
      SpreadScale(candles);
      Drawn(Render(candles, ScaleOf(candles), req))
  }
}
