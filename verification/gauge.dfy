/** `GaugeChart` (src/charts/gauge.rs): one value on a half-circle dial of
    radius 150 centred at (300, 350) on a white 600 x 400 page. The dial is
    a grey arc under 50 coloured arcs running from the left end (half a
    turn) to the right end (no turn), green through yellow to red; eleven
    labelled ticks, a needle and the value printed below complete it.
    Angles are in half-turns (`PiRadians`) and points on the dial stay
    symbolic (`Polar`). As in the source, a point at angle a lies at
    (cx + r cos a, cy + r sin a); in SVG's y-down frame angles between 0
    and half a turn are below the centre, so the coloured arcs and the
    needle lie on the lower half-circle while the grey backdrop arcs over
    the upper one. */
module Gauge {
  import opened Wrappers
  import opened Numeric
  import opened Models
  import opened Drawing

  /** The dial's range and which optional parts are drawn. */
  datatype Settings = Settings(minValue: real, maxValue: real, showLabels: bool, showNeedle: bool)

  /** The dial reads 0 to 100 with ticks and needle. */
  const Default: Settings := Settings(0.0, 100.0, true, true)

  const Radius: real := 150.0

  /** The point `r` from the dial's centre at `k` half-turns, moved `dy` down. */
  function Dial(r: real, k: real, dy: real): Point {
    Polar(300.0, 350.0, r, PiRadians(k), dy)
  }

  /** The value shown: the first flat value, else the first point of the
      first series; nothing when neither exists. */
  function GaugeValue(req: GraphRequest): (r: Option<real>)
    ensures r.None? <==> req.data == [] && (req.series == [] || req.series[0].data == [])
    ensures req.data != [] ==> r == Some(req.data[0])
    ensures req.data == [] && r.Some? ==> r.value == req.series[0].data[0].value
  {
    if req.data != [] then Some(req.data[0])
    else if req.series != [] && req.series[0].data != [] then Some(req.series[0].data[0].value)
    else None
  }

  /** Where `v` falls on the dial, from 0 at its left end to 1 at its
      right, values outside the range pinned to the nearer end. On an empty
      range the floating-point quotient is +inf above the minimum, -inf
      below it and NaN at it; `max(0.0)` turns NaN into 0, so the needle
      rests at the right end above the minimum and at the left end
      otherwise. */
  function Normalized(v: real, st: Settings): (n: real)
    ensures 0.0 <= n <= 1.0
    ensures st.maxValue == st.minValue ==> (n == 1.0 <==> v > st.minValue) && (n == 0.0 <==> v <= st.minValue)
  {
    if st.maxValue == st.minValue then (if v > st.minValue then 1.0 else 0.0)
    else Clamp((v - st.minValue) / (st.maxValue - st.minValue), 0.0, 1.0)
  }

  /** On a dial whose maximum exceeds its minimum, values at or below the minimum sit at 0,
      values at or above the maximum at 1, and a value in range is
      recovered from its position. */
  lemma NormalizedPlaces(v: real, st: Settings)
    requires st.minValue < st.maxValue
    ensures v <= st.minValue ==> Normalized(v, st) == 0.0
    ensures st.maxValue <= v ==> Normalized(v, st) == 1.0
    ensures st.minValue <= v <= st.maxValue ==>
      st.minValue + Normalized(v, st) * (st.maxValue - st.minValue) == v
  {
    var d := st.maxValue - st.minValue;
    var q := (v - st.minValue) / d;
    assert Normalized(v, st) == Clamp(q, 0.0, 1.0);
    if st.maxValue <= v {
      QuotientAtLeastOne(v - st.minValue, d);
    } else if st.minValue <= v {
      assert q * d == v - st.minValue;
    }
  }

  /** A quotient by a divisor no larger than the dividend is at least 1. */
  lemma QuotientAtLeastOne(a: real, d: real)
    requires 0.0 < d <= a
    ensures 1.0 <= a / d
  {
    assert (a / d - 1.0) * d == a - d;
  }

  /** A larger value never sits further left. */
  lemma NormalizedMonotone(v: real, w: real, st: Settings)
    requires st.minValue < st.maxValue && v <= w
    ensures Normalized(v, st) <= Normalized(w, st)
  {
    var d := st.maxValue - st.minValue;
    assert (v - st.minValue) / d <= (w - st.minValue) / d;
  }

  /** The needle's direction: half a turn less the position's share of it. */
  function NeedleTurn(v: real, st: Settings): (k: real)
    ensures 0.0 <= k <= 1.0
  {
    1.0 - Normalized(v, st)
  }

  /** The needle's angle is half a turn (pointing left) for the minimum
      and below, no turn (pointing right) for the maximum and above, and
      falls as the value grows: counter-clockwise on screen, through the
      lower half-circle of the y-down frame. */
  lemma NeedleSweep(v: real, w: real, st: Settings)
    requires st.minValue < st.maxValue && v <= w
    ensures v <= st.minValue ==> NeedleTurn(v, st) == 1.0
    ensures st.maxValue <= w ==> NeedleTurn(w, st) == 0.0
    ensures NeedleTurn(w, st) <= NeedleTurn(v, st)
  {
    NormalizedPlaces(v, st);
    NormalizedPlaces(w, st);
    NormalizedMonotone(v, w, st);
  }

  /** The colour for dial position `n`: red rising from 0 with green at 255
      below the middle, then green falling to 0 with red at 255; each channel
      is cast to a byte, dropping the fraction. */
  function Ramp(n: real): (c: Paint)
    ensures c.Rgb? && c.blue == 0
    ensures 0 <= c.red <= 255 && 0 <= c.green <= 255
    ensures n < 0.5 ==> c.green == 255
    ensures 0.5 <= n ==> c.red == 255
  {
    if n < 0.5 then Rgb(AsU8(255.0 * (n * 2.0)), 255, 0)
    else Rgb(255, AsU8(255.0 * (1.0 - (n - 0.5) * 2.0)), 0)
  }

  /** Green at the left end, yellow in the middle, red at the right end. */
  lemma RampStops()
    ensures Ramp(0.0) == Rgb(0, 255, 0)
    ensures Ramp(0.5) == Rgb(255, 255, 0)
    ensures Ramp(1.0) == Rgb(255, 0, 0)
  {
  }

  /** Moving right along the dial, red never falls and then green never rises. */
  lemma RampMonotone(n: real, m: real)
    requires 0.0 <= n <= m <= 1.0
    ensures m < 0.5 ==> Ramp(n).red <= Ramp(m).red
    ensures 0.5 <= n ==> Ramp(m).green <= Ramp(n).green
    ensures Ramp(n).red <= Ramp(m).red
    ensures Ramp(m).green <= Ramp(n).green
  {
  }

  /** Where coloured arc `i` begins: `i` fiftieths of a half-turn short of the left end's half turn. */
  function ArcStart(i: nat): real {
    1.0 - i as real * (1.0 / 50.0)
  }

  /** Coloured arc `i` of 50, from angle `ArcStart(i)` to `ArcStart(i + 1)`,
      in the colour of position i / 49, so that the last arc is fully red. */
  function ColourArc(i: nat): (r: Primitive)
    ensures r.Path? && |r.d| == 2 && r.d[0].MoveTo? && r.d[1].ArcTo?
    ensures r.d[1].radius == Radius && !r.d[1].largeArc && r.d[1].sweep
    ensures r.fill == NoPaint && r.stroke == Ramp(i as real / 49.0)
  {
    Path([MoveTo(Dial(Radius, ArcStart(i), 0.0)), ArcTo(Radius, false, true, Dial(Radius, ArcStart(i + 1), 0.0))],
         NoPaint, Ramp(i as real / 49.0), 1.0)
  }

  /** The 50 coloured arcs, left to right. */
  function ColourArcs(): (r: seq<Primitive>)
    ensures |r| == 50 && forall i :: 0 <= i < 50 ==> r[i] == ColourArc(i)
    ensures Count(r, PathKind) == 50 && Count(r, RectKind) == 0
    ensures Count(r, CircleKind) == 0 && Count(r, SegmentKind) == 0
  {
    var r := seq(50, i requires 0 <= i < 50 => ColourArc(i));
    CountUniform(r, PathKind);
    CountNone(r, RectKind);
    CountNone(r, CircleKind);
    CountNone(r, SegmentKind);
    r
  }

  /** The coloured arcs tile the half-circle: the first starts at its left
      end, each ends where the next begins after a fiftieth of the half-turn,
      and the last ends at its right end. */
  lemma ArcsTile(i: nat)
    requires i < 49
    ensures ColourArc(0).d[0].p == Dial(Radius, 1.0, 0.0)
    ensures ColourArc(49).d[1].p == Dial(Radius, 0.0, 0.0)
    ensures ColourArc(i).d[1].p == ColourArc(i + 1).d[0].p
    ensures ArcStart(i) - ArcStart(i + 1) == 1.0 / 50.0
  {
  }

  /** The first arc is green and the last red. */
  lemma ArcColours()
    ensures ColourArc(0).stroke == Rgb(0, 255, 0)
    ensures ColourArc(49).stroke == Rgb(255, 0, 0)
  {
    RampStops();
  }

  /** The label of tick `i` of 11: the value a tenth of the range per tick above the minimum. */
  function TickValue(i: nat, st: Settings): real {
    st.minValue + (i as real / 10.0) * (st.maxValue - st.minValue)
  }

  /** The ticks read the minimum first and the maximum last, a tenth of the
      range apart; and the needle for a tick's value points at that tick. */
  lemma TickLabels(i: nat, st: Settings)
    requires i <= 10 && st.minValue < st.maxValue
    ensures TickValue(0, st) == st.minValue && TickValue(10, st) == st.maxValue
    ensures TickValue(i + 1, st) - TickValue(i, st) == (st.maxValue - st.minValue) / 10.0
    ensures NeedleTurn(TickValue(i, st), st) == 1.0 - i as real / 10.0
  {
    var d := st.maxValue - st.minValue;
    var v := TickValue(i, st);
    var t := i as real / 10.0;
    assert v - st.minValue == t * d;
    CancelFactor(t, d);
    assert (v - st.minValue) / d == t;
  }

  /** Dividing out a non-zero factor. */
  lemma CancelFactor(t: real, d: real)
    requires d != 0.0
    ensures (t * d) / d == t
  {
  }

  /** Tick `i`: an unstroked mark from 155 to 165 out, then its label 180
      out and 5 lower. */
  function Tick(i: nat, st: Settings): (r: seq<Primitive>)
    ensures |r| == 2
    ensures r[0] == Segment(Dial(155.0, 1.0 - i as real / 10.0, 0.0), Dial(165.0, 1.0 - i as real / 10.0, 0.0), NoPaint)
    ensures r[1] == Text(Dial(180.0, 1.0 - i as real / 10.0, 5.0), Num(TickValue(i, st), 0), Middle, Unset)
    ensures NoMarks(r) && Count(r, SegmentKind) == 1
  {
    var k := 1.0 - i as real / 10.0;
    var r := [Segment(Dial(155.0, k, 0.0), Dial(165.0, k, 0.0), NoPaint),
              Text(Dial(180.0, k, 5.0), Num(TickValue(i, st), 0), Middle, Unset)];
    assert r[1..][1..] == [];
    r
  }

  /** The eleven ticks when labels are shown, left to right. */
  function Ticks(st: Settings): (r: seq<Primitive>)
    ensures !st.showLabels ==> r == []
    ensures st.showLabels ==> |r| == 22 && forall i :: 0 <= i < 11 ==> r[2 * i] == Tick(i, st)[0] && r[2 * i + 1] == Tick(i, st)[1]
    ensures NoMarks(r) && Count(r, SegmentKind) == (if st.showLabels then 11 else 0)
  {
    if !st.showLabels then []
    else
      var rows := seq(11, i requires 0 <= i < 11 => Tick(i, st));
      CountFlatten(rows, SegmentKind);
      CountEachUniform(rows, SegmentKind, 1);
      FlattenPairs(rows);
      FlatNoMarks(rows);
      Flatten(rows)
  }

  /** When shown, the needle from the centre to 140 out in direction `k`, then the hub of radius 8. */
  function Needle(k: real, st: Settings): (r: seq<Primitive>)
    ensures !st.showNeedle ==> r == []
    ensures st.showNeedle ==> r == [Segment(At(300.0, 350.0), Dial(140.0, k, 0.0), Unset), Circle(At(300.0, 350.0), 8.0, Unset)]
    ensures Count(r, SegmentKind) == Count(r, CircleKind) == (if st.showNeedle then 1 else 0)
    ensures Count(r, RectKind) == 0 && Count(r, PathKind) == 0
  {
    if !st.showNeedle then []
    else
      var r := [Segment(At(300.0, 350.0), Dial(140.0, k, 0.0), Unset), Circle(At(300.0, 350.0), 8.0, Unset)];
      assert r[1..][1..] == [];
      r
  }

  /** The title when given, then the grey arc along the whole dial. */
  function Backdrop(title: Option<string>): (r: seq<Primitive>)
    ensures |r| >= 1 && r[|r| - 1] == Path([MoveTo(At(150.0, 350.0)), ArcTo(Radius, false, true, At(450.0, 350.0))], NoPaint, Color("gray"), 1.0)
    ensures Count(r, PathKind) == 1 && Count(r, RectKind) == 0
    ensures Count(r, CircleKind) == 0 && Count(r, SegmentKind) == 0
  {
    var head := if title.Some? then [Text(At(300.0, 30.0), Str(title.value), Middle, Unset)] else [];
    var arc := [Path([MoveTo(At(150.0, 350.0)), ArcTo(Radius, false, true, At(450.0, 350.0))], NoPaint, Color("gray"), 1.0)];
    CountConcat(head, arc, PathKind);
    CountConcat(head, arc, RectKind);
    CountConcat(head, arc, CircleKind);
    CountConcat(head, arc, SegmentKind);
    CountNone(head, PathKind);
    CountNone(head, RectKind);
    CountNone(head, CircleKind);
    CountNone(head, SegmentKind);
    head + arc
  }

  /** The value to one decimal 50 below the centre, then the y-axis label 75 below it when given. */
  function Readout(v: real, yLabel: Option<string>): (r: seq<Primitive>)
    ensures |r| >= 1 && r[0] == Text(At(300.0, 400.0), Num(v, 1), Middle, Unset)
    ensures NoMarks(r) && Count(r, SegmentKind) == 0
  {
    var r := [Text(At(300.0, 400.0), Num(v, 1), Middle, Unset)]
      + (if yLabel.Some? then [Text(At(300.0, 425.0), Str(yLabel.value), Middle, Unset)] else []);
    CountNone(r, SegmentKind);
    r
  }

  /** What is drawn over the arcs: the ticks, the needle pointing at `v`, and the readout. */
  function Front(v: real, st: Settings, yLabel: Option<string>): (r: seq<Primitive>)
    ensures st.showNeedle ==> |r| > |Ticks(st)| && r[|Ticks(st)|] == Segment(At(300.0, 350.0), Dial(140.0, NeedleTurn(v, st), 0.0), Unset)
    ensures Count(r, PathKind) == 0 && Count(r, RectKind) == 0
    ensures Count(r, SegmentKind) == (if st.showLabels then 11 else 0) + (if st.showNeedle then 1 else 0)
    ensures Count(r, CircleKind) == (if st.showNeedle then 1 else 0)
  {
    var ticks, needle, readout := Ticks(st), Needle(NeedleTurn(v, st), st), Readout(v, yLabel);
    NoMarksCount(ticks);
    NoMarksCount(readout);
    ThreeParts(ticks, needle, readout, PathKind);
    ThreeParts(ticks, needle, readout, RectKind);
    ThreeParts(ticks, needle, readout, CircleKind);
    ThreeParts(ticks, needle, readout, SegmentKind);
    assert st.showNeedle ==> needle[0] == (ticks + needle + readout)[|ticks|];
    ticks + needle + readout
  }

  /** The dial for value `v`, with the page's white background. */
  function Render(v: real, st: Settings, req: GraphRequest): (c: Canvas)
    ensures c.width == 600.0 && c.height == 400.0 && c.background == Color("white") && c.origin == At(0.0, 0.0)
    ensures Count(c.items, PathKind) == 51 && Count(c.items, RectKind) == 0
    ensures Count(c.items, SegmentKind) == (if st.showLabels then 11 else 0) + (if st.showNeedle then 1 else 0)
    ensures Count(c.items, CircleKind) == (if st.showNeedle then 1 else 0)
    ensures st.showNeedle ==> Segment(At(300.0, 350.0), Dial(140.0, NeedleTurn(v, st), 0.0), Unset) in c.items
  {
    var back, arcs, front := Backdrop(req.title), ColourArcs(), Front(v, st, req.yLabel);
    ThreeParts(back, arcs, front, PathKind);
    ThreeParts(back, arcs, front, RectKind);
    ThreeParts(back, arcs, front, CircleKind);
    ThreeParts(back, arcs, front, SegmentKind);
    assert st.showNeedle ==> front[|Ticks(st)|] == (back + arcs + front)[|back| + |arcs| + |Ticks(st)|];
    Canvas(600.0, 400.0, Color("white"), At(0.0, 0.0), back + arcs + front)
  }

  /** `GaugeChart::generate`: nothing without a value; otherwise the dial
      with 51 arcs, a needle when shown pointing at the value, and the
      eleven ticks when shown. */
  function Generate(st: Settings, req: GraphRequest): (r: Rendering)
    ensures r.Blank? <==> GaugeValue(req).None?
    ensures r.Drawn? ==> Count(r.canvas.items, PathKind) == 51
    ensures r.Drawn? ==> Count(r.canvas.items, CircleKind) == (if st.showNeedle then 1 else 0)
    ensures r.Drawn? && st.showNeedle ==>
      Segment(At(300.0, 350.0), Dial(140.0, NeedleTurn(GaugeValue(req).value, st), 0.0), Unset) in r.canvas.items
  {
    match GaugeValue(req)
    case None => Blank
    case Some(v) => Drawn(Render(v, st, req))
  }
}
