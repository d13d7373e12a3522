/** The request schema of src/models.rs. */
module Models {
  import opened Wrappers

  /** The closed set of chart kinds a request can name; `Line` is the default. */
  datatype GraphType = Line | Bar | Scatter | Pie | Donut | Area | Radar

  const DefaultGraphType: GraphType := Line

  /** A value with an optional label (`caption`; `label` is a Dafny keyword)
      and an optional colour override. */
  datatype DataPoint = DataPoint(value: real, caption: Option<string>, color: Option<string>)

  /** An optionally named, optionally coloured, ordered list of points. */
  datatype Series = Series(name: Option<string>, data: seq<DataPoint>, color: Option<string>)

  /** A chart request: `data` is the legacy flat form, read only by layouts
      that fall back to it when `series` is empty. */
  datatype GraphRequest = GraphRequest(
    graphType: GraphType,
    series: seq<Series>,
    data: seq<real>,
    title: Option<string>,
    xLabel: Option<string>,
    yLabel: Option<string>,
    colors: Option<seq<string>>)

  /** The fields of a request body as they arrive, each possibly missing. */
  datatype RequestFields = RequestFields(
    graphType: Option<GraphType>,
    series: Option<seq<Series>>,
    data: Option<seq<real>>,
    title: Option<string>,
    xLabel: Option<string>,
    yLabel: Option<string>,
    colors: Option<seq<string>>)

  /** `#[serde(default)]`: a missing chart kind, series list or flat data list
      takes its default; every other field stays optional. */
  function FromFields(f: RequestFields): (r: GraphRequest)
    ensures f.graphType.None? ==> r.graphType == Line
    ensures f.graphType.Some? ==> r.graphType == f.graphType.value
    ensures f.series.None? ==> r.series == []
    ensures f.series.Some? ==> r.series == f.series.value
    ensures f.data.None? ==> r.data == []
    ensures f.data.Some? ==> r.data == f.data.value
    ensures r.title == f.title && r.xLabel == f.xLabel && r.yLabel == f.yLabel && r.colors == f.colors
  {
    GraphRequest(
      f.graphType.UnwrapOr(DefaultGraphType),
      f.series.UnwrapOr([]),
      f.data.UnwrapOr([]),
      f.title, f.xLabel, f.yLabel, f.colors)
  }

  /** The `snake_case` wire name of each chart kind. */
  function GraphTypeName(t: GraphType): string {
    match t
    case Line => "line"
    case Bar => "bar"
    case Scatter => "scatter"
    case Pie => "pie"
    case Donut => "donut"
    case Area => "area"
    case Radar => "radar"
  }

  /** Deserialisation of a chart kind name: exact, case-sensitive match of a
      wire name; anything else is a deserialisation error. */
  function ParseGraphType(s: string): (r: Option<GraphType>)
    ensures r.Some? ==> GraphTypeName(r.value) == s
  {
    if s == "line" then Some(Line)
    else if s == "bar" then Some(Bar)
    else if s == "scatter" then Some(Scatter)
    else if s == "pie" then Some(Pie)
    else if s == "donut" then Some(Donut)
    else if s == "area" then Some(Area)
    else if s == "radar" then Some(Radar)
    else None
  }

  /** Every chart kind survives a trip through its wire name. */
  lemma GraphTypeNameRoundTrip(t: GraphType)
    ensures ParseGraphType(GraphTypeName(t)) == Some(t)
  {
  }

  /** The values of a series, in order. */
  function Values(s: Series): (r: seq<real>)
    ensures |r| == |s.data|
    ensures forall i :: 0 <= i < |r| ==> r[i] == s.data[i].value
  {
    seq(|s.data|, i requires 0 <= i < |s.data| => s.data[i].value)
  }

  /** Bare points carrying only values, as the layouts build them from flat data. */
  function PlainPoints(values: seq<real>): (r: seq<DataPoint>)
    ensures |r| == |values|
    ensures forall i :: 0 <= i < |r| ==> r[i] == DataPoint(values[i], None, None)
  {
    seq(|values|, i requires 0 <= i < |values| => DataPoint(values[i], None, None))
  }

  /** Total number of points over a list of series. */
  function PointCount(series: seq<Series>): nat {
    if |series| == 0 then 0 else |series[0].data| + PointCount(series[1..])
  }

  /** Total length of a list of value lists. */
  function LengthSum(rows: seq<seq<real>>): nat {
    if |rows| == 0 then 0 else |rows[0]| + LengthSum(rows[1..])
  }
}
