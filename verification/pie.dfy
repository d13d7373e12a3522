/** `PieChart::generate` (src/charts/pie.rs), with and without a hole: each
    value becomes a wedge whose angle is its share of its series' total,
    laid out clockwise from the top with a percentage label at three
    quarters of the radius. The running angle is not reset between series. */
module Pie {
  import opened Wrappers
  import opened Numeric
  import opened Models
  import opened Drawing
  import opened Utils

  const Radius: real := 180.0

  /** The hole of a donut is 0.6 of the radius; a pie has none. */
  function InnerRadius(donut: bool): (r: real)
    ensures donut ==> r == 108.0
    ensures !donut ==> r == 0.0
  {
    if donut then Radius * 0.6 else 0.0
  }

  /** A wedge to draw: its percentage and the colour its point asks for. */
  datatype Slice = Slice(pct: real, color: Option<string>)

  /** Each value as a percentage of `total`: value / total * 100. */
  function Shares(values: seq<real>, total: real): (r: seq<real>)
    requires total != 0.0
    ensures |r| == |values|
    ensures forall i :: 0 <= i < |values| ==> r[i] == values[i] / total * 100.0
  {
    if |values| == 0 then [] else [values[0] / total * 100.0] + Shares(values[1..], total)
  }

  lemma DivAdd(a: real, b: real, t: real)
    requires t != 0.0
    ensures a / t * 100.0 + b / t * 100.0 == (a + b) / t * 100.0
  {
  }

  /** The shares of a list add up to its own total's share. */
  lemma {:induction false} SharesTotal(values: seq<real>, total: real)
    requires total != 0.0
    ensures Sum(Shares(values, total)) == Sum(values) / total * 100.0
  {
    if |values| > 0 {
      SharesTotal(values[1..], total);
      assert Shares(values, total)[1..] == Shares(values[1..], total);
      DivAdd(values[0], Sum(values[1..]), total);
    }
  }

  /** Each value as a percentage of the total of its list. An empty list has
      no total to divide by; a nonempty one must not sum to zero. */
  function Percentages(values: seq<real>): (r: seq<real>)
    requires |values| > 0 ==> Sum(values) != 0.0
    ensures |r| == |values|
    ensures forall i :: 0 <= i < |values| ==> r[i] == values[i] / Sum(values) * 100.0
  {
    if |values| == 0 then [] else Shares(values, Sum(values))
  }

  /** The percentages of a nonempty list add up to 100. */
  lemma PercentagesTotal(values: seq<real>)
    requires |values| > 0 && Sum(values) != 0.0
    ensures Sum(Percentages(values)) == 100.0
  {
    SharesTotal(values, Sum(values));
    Whole(Sum(values));
  }

  lemma Whole(t: real)
    requires t != 0.0
    ensures t / t * 100.0 == 100.0
  {
  }

  /** Nothing to divide by zero: every nonempty list of values, the flat data
      or each series, has a nonzero total. */
  predicate Dividable(req: GraphRequest) {
    (req.series == [] ==> (|req.data| > 0 ==> Sum(req.data) != 0.0))
    && forall s :: 0 <= s < |req.series| ==> |req.series[s].data| > 0 ==> Sum(Values(req.series[s])) != 0.0
  }

  /** The slices of one list of values with the colours of its points. */
  function SliceList(values: seq<real>, colors: seq<Option<string>>): (r: seq<Slice>)
    requires |values| > 0 ==> Sum(values) != 0.0
    requires |colors| == |values|
    ensures |r| == |values|
    ensures forall i :: 0 <= i < |values| ==> r[i] == Slice(Percentages(values)[i], colors[i])
  {
    var pcts := Percentages(values);
    seq(|values|, i requires 0 <= i < |values| => Slice(pcts[i], colors[i]))
  }

  /** The colours of flat data: the request's colour at the same index, when
      there is one. */
  function FlatColors(colors: Option<seq<string>>, n: nat): (r: seq<Option<string>>)
    ensures |r| == n
    ensures forall i :: 0 <= i < n ==> r[i] == Get(colors.UnwrapOr([]), i)
  {
    seq(n, i requires 0 <= i < n => Get(colors.UnwrapOr([]), i))
  }

  /** The colours the points of a series ask for. */
  function PointColors(s: Series): (r: seq<Option<string>>)
    ensures |r| == |s.data|
    ensures forall i :: 0 <= i < |s.data| ==> r[i] == s.data[i].color
  {
    seq(|s.data|, i requires 0 <= i < |s.data| => s.data[i].color)
  }

  /** One list of slices for the flat data, or one per series. */
  function SliceLists(req: GraphRequest): (r: seq<seq<Slice>>)
    requires Dividable(req)
    ensures req.series == [] ==> r == [SliceList(req.data, FlatColors(req.colors, |req.data|))]
    ensures req.series != [] ==> (|r| == |req.series|
      && forall s :: 0 <= s < |req.series| ==> r[s] == SliceList(Values(req.series[s]), PointColors(req.series[s])))
  {
    if req.series == [] then [SliceList(req.data, FlatColors(req.colors, |req.data|))]
    else seq(|req.series|, s requires 0 <= s < |req.series| => SliceList(Values(req.series[s]), PointColors(req.series[s])))
  }

  /** The percentages of a list of slices. */
  function Pcts(list: seq<Slice>): (r: seq<real>)
    ensures |r| == |list|
    ensures forall i :: 0 <= i < |list| ==> r[i] == list[i].pct
  {
    seq(|list|, i requires 0 <= i < |list| => list[i].pct)
  }

  /** The angle of a wedge, in degrees: 360 * percentage / 100. */
  function Sweep(pct: real): real {
    360.0 * pct / 100.0
  }

  /** The angles of a list of slices. */
  function Sweeps(list: seq<Slice>): (r: seq<real>)
    ensures |r| == |list|
    ensures forall i :: 0 <= i < |list| ==> r[i] == Sweep(list[i].pct)
  {
    seq(|list|, i requires 0 <= i < |list| => Sweep(list[i].pct))
  }

  /** The angle at which wedge `j` of a list starts when the list starts at
      `base`: past all earlier wedges. */
  function StartAngle(list: seq<Slice>, base: real, j: nat): real
    requires j <= |list|
  {
    base + Sum(Sweeps(list)[..j])
  }

  /** Wedges follow one another without gap or overlap: each ends where the
      next begins, and the first begins at the list's start. */
  lemma Contiguous(list: seq<Slice>, base: real, j: nat)
    requires j < |list|
    ensures StartAngle(list, base, 0) == base
    ensures StartAngle(list, base, j) + Sweep(list[j].pct) == StartAngle(list, base, j + 1)
  {
    assert Sweeps(list)[..0] == [];
    SumPrefix(Sweeps(list), j);
  }

  /** The angle a whole list turns through. */
  function Turn(list: seq<Slice>): real {
    Sum(Sweeps(list))
  }

  /** A list whose percentages add up to 100 turns through a full circle. */
  lemma FullTurn(list: seq<Slice>)
    requires Sum(Pcts(list)) == 100.0
    ensures Turn(list) == 360.0
    ensures StartAngle(list, -90.0, |list|) == 270.0
  {
    assert Sweeps(list) == Scale(Pcts(list), 3.6);
    SumScale(Pcts(list), 3.6);
    assert Sweeps(list)[..|list|] == Sweeps(list);
  }

  /** Among wedges of nonnegative values filling one circle, at most one is
      drawn with the large-arc flag. */
  lemma OneLargeArc(list: seq<Slice>, j: nat, k: nat)
    requires Sum(Pcts(list)) == 100.0
    requires forall i :: 0 <= i < |list| ==> 0.0 <= list[i].pct
    requires j < |list| && k < |list|
    requires Sweep(list[j].pct) > 180.0 && Sweep(list[k].pct) > 180.0
    ensures j == k
  {
    FullTurn(list);
    if j != k {
      var lo, hi := if j < k then j else k, if j < k then k else j;
      SumCoversTwo(Sweeps(list), lo, hi);
      assert false;
    }
  }

  /** The point at angle `a` (degrees) on the circle of radius `r` around the centre. */
  function Rim(r: real, a: real): Point {
    Polar(0.0, 0.0, r, Degrees(a), 0.0)
  }

  /** The outline of a wedge from `start` through `sweep` degrees: along the
      outer arc, then back to the centre for a pie, or along the inner arc
      in reverse for a donut. The arc takes the long way round exactly when
      the wedge spans more than half the circle. */
  function Outline(start: real, sweep: real, donut: bool): (d: seq<PathCmd>)
    ensures |d| >= 4
    ensures d[0] == MoveTo(Rim(Radius, start))
    ensures d[1] == ArcTo(Radius, sweep > 180.0, true, Rim(Radius, start + sweep))
    ensures donut ==> (|d| == 5 && d[2] == LineTo(Rim(108.0, start + sweep))
      && d[3] == ArcTo(108.0, sweep > 180.0, false, Rim(108.0, start)) && d[4] == Close)
    ensures !donut ==> (|d| == 4 && d[2] == LineTo(At(0.0, 0.0)) && d[3] == Close)
  {
    var end, large := start + sweep, sweep > 180.0;
    var inner := InnerRadius(donut);
    if donut then
      [MoveTo(Rim(Radius, start)), ArcTo(Radius, large, true, Rim(Radius, end)),
       LineTo(Rim(inner, end)), ArcTo(inner, large, false, Rim(inner, start)), Close]
    else
      [MoveTo(Rim(Radius, start)), ArcTo(Radius, large, true, Rim(Radius, end)), LineTo(At(0.0, 0.0)), Close]
  }

  /** The colour of the `i`-th wedge of a list: the point's own, else the
      default palette cycled by the wedge's index within its list. */
  function SliceColor(sl: Slice, i: nat): (c: string)
    ensures sl.color.Some? ==> c == sl.color.value
    ensures sl.color.None? ==> c == DefaultColors()[i % 7]
  {
    sl.color.UnwrapOr(DefaultColor(i % 7))
  }

  /** Wedge `i` of a list starting at angle `start`: its filled outline, then
      its percentage (one decimal) at three quarters of the radius, halfway
      through its angle, 4 units lower. */
  function Wedge(sl: Slice, i: nat, start: real, donut: bool): (r: seq<Primitive>)
    ensures |r| == 2
    ensures r[0] == Path(Outline(start, Sweep(sl.pct), donut), Color(SliceColor(sl, i)), Unset, 1.0)
    ensures r[1] == Text(Polar(0.0, 0.0, Radius * 0.75, Degrees(start + Sweep(sl.pct) / 2.0), 4.0), Pct(sl.pct, 1), Middle, Unset)
  {
    [Path(Outline(start, Sweep(sl.pct), donut), Color(SliceColor(sl, i)), Unset, 1.0),
     Text(Polar(0.0, 0.0, Radius * 0.75, Degrees(start + Sweep(sl.pct) / 2.0), 4.0), Pct(sl.pct, 1), Middle, Unset)]
  }

  /** The wedges of one list starting at `base`, in order. */
  function ListWedges(list: seq<Slice>, base: real, donut: bool): (r: seq<Primitive>)
    ensures |r| == 2 * |list|
    ensures forall j :: 0 <= j < |list| ==> r[2 * j].Path? && r[2 * j + 1].Text?
    ensures forall j :: 0 <= j < |list| ==>
      r[2 * j] == Wedge(list[j], j, StartAngle(list, base, j), donut)[0]
      && r[2 * j + 1] == Wedge(list[j], j, StartAngle(list, base, j), donut)[1]
  {
    var sections := Sections(list, base, donut);
    FlattenPairs(sections);
    Flatten(sections)
  }

  /** The wedge of each slice of a list starting at `base`, numbered from 0. */
  function Sections(list: seq<Slice>, base: real, donut: bool): (r: seq<seq<Primitive>>)
    ensures |r| == |list|
    ensures forall j :: 0 <= j < |list| ==> r[j] == Wedge(list[j], j, StartAngle(list, base, j), donut)
    ensures forall j :: 0 <= j < |list| ==> |r[j]| == 2 && r[j][0].Path? && r[j][1].Text?
  {
    seq(|list|, j requires 0 <= j < |list| => Wedge(list[j], j, StartAngle(list, base, j), donut))
  }

  /** A list's wedges hold one path and one label per slice. */
  lemma {:induction false} ListWedgesCounts(items: seq<Primitive>, n: nat)
    requires |items| == 2 * n
    requires forall j :: 0 <= j < n ==> items[2 * j].Path? && items[2 * j + 1].Text?
    ensures Count(items, PathKind) == n && Count(items, TextKind) == n && Count(items, RectKind) == 0
  {
    if n > 0 {
      var rest := items[2..];
      forall j | 0 <= j < n - 1
        ensures rest[2 * j].Path? && rest[2 * j + 1].Text?
      {
        assert rest[2 * j] == items[2 * (j + 1)];
        assert rest[2 * j + 1] == items[2 * (j + 1) + 1];
      }
      ListWedgesCounts(rest, n - 1);
      assert items[1..][1..] == rest;
      assert items[2 * 0].Path? && items[2 * 0 + 1].Text?;
      assert KindOf(items[0]) == PathKind && KindOf(items[1..][0]) == TextKind;
    }
  }

  /** The start angle of each list: the first starts at `base`, each later
      one where the previous ended. */
  function Bases(lists: seq<seq<Slice>>, base: real): (r: seq<real>)
    ensures |r| == |lists|
    ensures |lists| > 0 ==> r[0] == base
    ensures forall s :: 0 < s < |lists| ==> r[s] == Bases(lists[1..], base + Turn(lists[0]))[s - 1]
  {
    if |lists| == 0 then [] else [base] + Bases(lists[1..], base + Turn(lists[0]))
  }

  /** How many of the lists have a slice. */
  function Occupied(lists: seq<seq<Slice>>): nat {
    if |lists| == 0 then 0 else (if |lists[0]| > 0 then 1 else 0) + Occupied(lists[1..])
  }

  /** When each nonempty list fills the circle, every list starts at the
      top again, a whole number of turns after `base`. */
  lemma {:induction false} EveryListFromTheTop(lists: seq<seq<Slice>>, base: real, s: nat)
    requires s < |lists|
    requires forall t :: 0 <= t < |lists| ==> |lists[t]| > 0 ==> Sum(Pcts(lists[t])) == 100.0
    ensures Bases(lists, base)[s] == base + 360.0 * Occupied(lists[..s]) as real
  {
    if s > 0 {
      var next := base + Turn(lists[0]);
      assert forall t :: 0 <= t < |lists[1..]| ==> lists[1..][t] == lists[t + 1];
      EveryListFromTheTop(lists[1..], next, s - 1);
      assert lists[..s][1..] == lists[1..][..s - 1];
      if |lists[0]| > 0 {
        FullTurn(lists[0]);
      } else {
        assert Sweeps(lists[0]) == [];
      }
    } else {
      assert lists[..0] == [];
    }
  }

  /** The wedges of every list, each list starting where the previous ended. */
  function AllWedges(lists: seq<seq<Slice>>, base: real, donut: bool): (r: seq<Primitive>)
    ensures Count(r, PathKind) == SliceCount(lists) && Count(r, TextKind) == SliceCount(lists)
    ensures Count(r, RectKind) == 0
  {
    if |lists| == 0 then []
    else
      var head, rest := ListWedges(lists[0], base, donut), AllWedges(lists[1..], base + Turn(lists[0]), donut);
      ListWedgesCounts(head, |lists[0]|);
      CountConcat(head, rest, PathKind);
      CountConcat(head, rest, TextKind);
      CountConcat(head, rest, RectKind);
      head + rest
  }

  /** Total number of slices over all lists. */
  function SliceCount(lists: seq<seq<Slice>>): nat {
    if |lists| == 0 then 0 else |lists[0]| + SliceCount(lists[1..])
  }

  /** The lists have one slice per point. */
  lemma {:induction false} SliceCountPoints(series: seq<Series>, lists: seq<seq<Slice>>)
    requires |lists| == |series|
    requires forall s :: 0 <= s < |series| ==> |lists[s]| == |series[s].data|
    ensures SliceCount(lists) == PointCount(series)
  {
    if |series| > 0 {
      assert forall s :: 0 <= s < |series| - 1 ==> lists[1..][s] == lists[s + 1] && series[1..][s] == series[s + 1];
      SliceCountPoints(series[1..], lists[1..]);
    }
  }

  /** The title, 250 units above the centre, when given. */
  function Title(title: Option<string>): (r: seq<Primitive>)
    ensures Count(r, PathKind) == 0 && Count(r, RectKind) == 0
    ensures Count(r, TextKind) == (if title.Some? then 1 else 0)
  {
    if title.Some? then [Text(At(0.0, -250.0), Str(title.value), Middle, Unset)] else []
  }

  /** How many wedges a request draws: one per flat value, or one per point. */
  function WedgeCount(req: GraphRequest): nat {
    if req.series == [] then |req.data| else PointCount(req.series)
  }

  /** `PieChart::generate` for a pie (`donut` false) or a donut: an 800 x 600
      white page centred on (400, 300), the title, then one wedge and one
      label per value, starting from the top. No axes and no legend. */
  function Generate(req: GraphRequest, donut: bool): (c: Canvas)
    requires Dividable(req)
    ensures c.width == 800.0 && c.height == 600.0 && c.origin == At(400.0, 300.0)
    ensures Count(c.items, PathKind) == WedgeCount(req)
    ensures Count(c.items, TextKind) == WedgeCount(req) + (if req.title.Some? then 1 else 0)
    ensures Count(c.items, RectKind) == 0
  {
    var lists := SliceLists(req);
    var title, wedges := Title(req.title), AllWedges(lists, -90.0, donut);
    assert SliceCount(lists) == WedgeCount(req) by {
      if req.series == [] {
        assert SliceCount(lists) == |lists[0]| + SliceCount(lists[1..]);
      } else {
        SliceCountPoints(req.series, lists);
      }
    }
    CountConcat(title, wedges, PathKind);
    CountConcat(title, wedges, TextKind);
    CountConcat(title, wedges, RectKind);
    Canvas(800.0, 600.0, Color("white"), At(400.0, 300.0), title + wedges)
  }

  /** Every list of slices a request yields fills the circle: its
      percentages add up to 100. */
  lemma ListsFillCircle(req: GraphRequest, s: nat)
    requires Dividable(req)
    requires s < |SliceLists(req)| && |SliceLists(req)[s]| > 0
    ensures Sum(Pcts(SliceLists(req)[s])) == 100.0
  {
    var list := SliceLists(req)[s];
    var values := if req.series == [] then req.data else Values(req.series[s]);
    assert Pcts(list) == Percentages(values);
    PercentagesTotal(values);
  }
}
