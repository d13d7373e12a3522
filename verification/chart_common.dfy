/** What the layouts of src/charts share: the value rows they plot, the
    largest value (`get_max_value`) and the per-series colour choice. */
module ChartCommon {
  import opened Wrappers
  import opened Numeric
  import opened Models
  import opened Utils

  /** The largest entry over a list of value lists; None when they hold no
      entry at all (the fold's negative infinity). */
  function MaxOfRows(rows: seq<seq<real>>): (r: Option<real>)
    ensures r.None? <==> LengthSum(rows) == 0
    ensures r.Some? ==> forall s, i :: 0 <= s < |rows| && 0 <= i < |rows[s]| ==> rows[s][i] <= r.value
    ensures r.Some? ==> exists s, i :: 0 <= s < |rows| && 0 <= i < |rows[s]| && rows[s][i] == r.value
  {
    if |rows| == 0 then None
    else
      var head, rest := MaxOf(rows[0]), MaxOfRows(rows[1..]);
      assert forall s :: 1 <= s < |rows| ==> rows[1..][s - 1] == rows[s];
      if head.None? then rest
      else if rest.None? then
        EmptyRows(rows[1..]);
        head
      else Some(Max(head.value, rest.value))
  }

  /** Rows with no entry in total are each empty. */
  lemma {:induction false} EmptyRows(rows: seq<seq<real>>)
    requires LengthSum(rows) == 0
    ensures forall s :: 0 <= s < |rows| ==> rows[s] == []
  {
    if |rows| > 0 {
      EmptyRows(rows[1..]);
      assert forall s :: 1 <= s < |rows| ==> rows[s] == rows[1..][s - 1];
    }
  }

  /** The smallest entry over a list of value lists; None when they hold no
      entry at all (the fold's positive infinity). */
  function MinOfRows(rows: seq<seq<real>>): (r: Option<real>)
    ensures r.None? <==> LengthSum(rows) == 0
    ensures r.Some? ==> forall s, i :: 0 <= s < |rows| && 0 <= i < |rows[s]| ==> r.value <= rows[s][i]
    ensures r.Some? ==> exists s, i :: 0 <= s < |rows| && 0 <= i < |rows[s]| && rows[s][i] == r.value
  {
    if |rows| == 0 then None
    else
      var head, rest := MinOf(rows[0]), MinOfRows(rows[1..]);
      assert forall s :: 1 <= s < |rows| ==> rows[1..][s - 1] == rows[s];
      if head.None? then rest
      else if rest.None? then
        EmptyRows(rows[1..]);
        head
      else Some(Min(head.value, rest.value))
  }

  /** The length of the longest series: the number of categories of a
      stacked bar chart, one more than the largest point index of a
      multi-line chart. */
  function Longest(series: seq<Series>): (m: nat)
    ensures forall s :: 0 <= s < |series| ==> |series[s].data| <= m
    ensures series == [] ==> m == 0
    ensures series != [] ==> exists s :: 0 <= s < |series| && |series[s].data| == m
  {
    if series == [] then 0
    else
      var rest := Longest(series[1..]);
      assert forall s :: 1 <= s < |series| ==> series[s] == series[1..][s - 1];
      if |series[0].data| >= rest then |series[0].data| else rest
  }

  /** No row is longer than all rows together. */
  lemma {:induction false} RowWithinSum(rows: seq<seq<real>>, s: nat)
    requires s < |rows|
    ensures |rows[s]| <= LengthSum(rows)
  {
    if s > 0 {
      RowWithinSum(rows[1..], s - 1);
    }
  }

  /** The values of each series, one row per series. */
  function ValueRows(series: seq<Series>): (rows: seq<seq<real>>)
    ensures |rows| == |series|
    ensures forall s :: 0 <= s < |series| ==> rows[s] == Values(series[s])
  {
    seq(|series|, s requires 0 <= s < |series| => Values(series[s]))
  }

  /** The rows have as many entries as the series have points. */
  lemma {:induction false} ValueRowsLength(series: seq<Series>)
    ensures LengthSum(ValueRows(series)) == PointCount(series)
  {
    if |series| > 0 {
      ValueRowsLength(series[1..]);
      assert ValueRows(series)[1..] == ValueRows(series[1..]);
    }
  }

  /** `get_max_value`: the largest point value over all series; None (negative
      infinity in the source) when there is no point. */
  function GetMaxValue(series: seq<Series>): (r: Option<real>)
    ensures r.None? <==> PointCount(series) == 0
    ensures r.Some? ==> forall s, i :: 0 <= s < |series| && 0 <= i < |series[s].data| ==> series[s].data[i].value <= r.value
    ensures r.Some? ==> exists s, i :: 0 <= s < |series| && 0 <= i < |series[s].data| && series[s].data[i].value == r.value
  {
    var rows := ValueRows(series);
    ValueRowsLength(series);
    var m := MaxOfRows(rows);
    assert forall s, i :: 0 <= s < |series| && 0 <= i < |series[s].data| ==> rows[s][i] == series[s].data[i].value;
    m
  }

  /** The rows a line, area, scatter or radar chart plots: the flat data as
      one row when there is no series, else the values of each series. */
  function PlotRows(req: GraphRequest): (rows: seq<seq<real>>)
    ensures |rows| >= 1
    ensures req.series == [] ==> rows == [req.data]
    ensures req.series != [] ==> rows == ValueRows(req.series)
  {
    if req.series == [] then [req.data] else ValueRows(req.series)
  }

  /** The values a histogram or heatmap reads: the flat data when there is
      any, else the first series' values, else none. */
  function FlatOrFirstSeries(req: GraphRequest): (r: seq<real>)
    ensures req.data != [] ==> r == req.data
    ensures req.data == [] && req.series != [] ==> r == Values(req.series[0])
    ensures req.data == [] && req.series == [] ==> r == []
  {
    if req.data != [] then req.data
    else if req.series != [] then Values(req.series[0])
    else []
  }

  /** The scale those charts use: the largest value they plot. The source
      folds over `request.series` only; see `AsWrittenMax`. */
  function PlotMax(req: GraphRequest): (r: Option<real>)
    ensures r.None? <==> LengthSum(PlotRows(req)) == 0
    ensures r.Some? ==> forall s, i :: 0 <= s < |PlotRows(req)| && 0 <= i < |PlotRows(req)[s]| ==> PlotRows(req)[s][i] <= r.value
    ensures r.Some? ==> exists s, i :: 0 <= s < |PlotRows(req)| && 0 <= i < |PlotRows(req)[s]| && PlotRows(req)[s][i] == r.value
  {
    MaxOfRows(PlotRows(req))
  }

  /** The scale as written: the maximum over `request.series`, which is
      negative infinity (None) whenever only flat data is given. */
  function AsWrittenMax(req: GraphRequest): (r: Option<real>)
    ensures req.series == [] ==> r.None?
  {
    GetMaxValue(req.series)
  }

  /** With at least one series the two scales agree; they differ only on
      flat data. */
  lemma PlotMaxAgrees(req: GraphRequest)
    requires req.series != []
    ensures PlotMax(req) == AsWrittenMax(req)
  {
  }

  /** A request these charts can scale: some value to plot, and a nonzero maximum. */
  predicate Scalable(req: GraphRequest) {
    PlotMax(req).Some? && PlotMax(req).value != 0.0
  }

  /** The colour of series `idx` in line, area, scatter and radar charts:
      `colors[idx]` when the request lists that many colours, else the
      default palette cycled. */
  function SeriesColor(colors: Option<seq<string>>, idx: nat): (c: string)
    ensures colors.Some? && idx < |colors.value| ==> c == colors.value[idx]
    ensures (colors.None? || idx >= |colors.value|) ==> c == DefaultColors()[idx % 7]
  {
    if colors.Some? && idx < |colors.value| then colors.value[idx] else DefaultColor(idx % 7)
  }

  /** The eight-colour palette the stacked bar and multi-line charts
      fall back to when the request has no colours. */
  function Palette8(): (r: seq<string>)
    ensures |r| == 8
    ensures r[0] == "#3498db" && r[1] == "#e74c3c" && r[2] == "#2ecc71"
  {
    ["#3498db", "#e74c3c", "#2ecc71", "#f39c12", "#9b59b6", "#1abc9c", "#34495e", "#e67e22"]
  }

  /** `colors[idx % len]` over the request's colours, or over the fallback
      palette when the request lists none. An empty request list makes
      the source panic, hence the precondition. */
  function CycledColor(colors: Option<seq<string>>, fallback: seq<string>, idx: nat): (c: string)
    requires colors.None? ==> |fallback| > 0
    requires colors.Some? ==> |colors.value| > 0
    ensures colors.Some? ==> c == colors.value[idx % |colors.value|]
    ensures colors.None? ==> c == fallback[idx % |fallback|]
    ensures colors.Some? ==> c in colors.value
    ensures colors.None? ==> c in fallback
  {
    var palette := colors.UnwrapOr(fallback);
    palette[idx % |palette|]
  }
}
