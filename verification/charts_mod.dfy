/** `create_chart` (src/charts/mod.rs): the request's chart kind picks one
    of the six dispatched layouts, pie and donut sharing one layout with a
    flag. The seven newer layouts are not reachable from here; they stand
    alone in their own modules. */
module Charts {
  import opened Models
  import opened Drawing
  import opened ChartCommon
  import Bar
  import Line
  import Scatter
  import Pie
  import Area
  import Radar

  /** The dispatched layouts; the pie layout carries its donut flag. */
  datatype Chart = BarChart | LineChart | ScatterChart | PieChart(isDonut: bool) | AreaChart | RadarChart

  /** The layout for the request's chart kind. */
  function CreateChart(req: GraphRequest): (c: Chart)
    ensures c.PieChart? <==> req.graphType == Pie || req.graphType == Donut
    ensures c.PieChart? ==> (c.isDonut <==> req.graphType == Donut)
    ensures c == BarChart <==> req.graphType == Bar
    ensures c == LineChart <==> req.graphType == Line
  {
    match req.graphType
    case Bar => BarChart
    case Line => LineChart
    case Scatter => ScatterChart
    case Pie => PieChart(false)
    case Donut => PieChart(true)
    case Area => AreaChart
    case Radar => RadarChart
  }

  /** The chart kind a layout draws. */
  function ChartType(c: Chart): GraphType {
    match c
    case BarChart => Bar
    case LineChart => Line
    case ScatterChart => Scatter
    case PieChart(donut) => if donut then Donut else Pie
    case AreaChart => Area
    case RadarChart => Radar
  }

  /** Dispatch loses nothing: every kind gets a layout that draws that kind,
      and every layout is chosen by the kind it draws. */
  lemma DispatchRoundTrip(req: GraphRequest, c: Chart)
    ensures ChartType(CreateChart(req)) == req.graphType
    ensures CreateChart(req.(graphType := ChartType(c))) == c
  {
  }

  /** Requests of different kinds get different layouts. */
  lemma DispatchInjective(a: GraphRequest, b: GraphRequest)
    requires CreateChart(a) == CreateChart(b)
    ensures a.graphType == b.graphType
  {
    DispatchRoundTrip(a, CreateChart(a));
    DispatchRoundTrip(b, CreateChart(b));
  }

  /** What each layout needs of a request to draw it without dividing by
      zero; `niceMax` is the scatter chart's rounding of its scale. */
  predicate Ready(c: Chart, req: GraphRequest, niceMax: real -> real) {
    match c
    case BarChart => Bar.Drawable(req)
    case LineChart => Line.Drawable(req)
    case ScatterChart => Scatter.Drawable(req, niceMax)
    case PieChart(_) => Pie.Dividable(req)
    case AreaChart => Area.Drawable(req)
    case RadarChart => Radar.Drawable(req)
  }

  /** The four layouts that plot value rows: each puts a marker on every plotted value. */
  function ValueChart(req: GraphRequest, niceMax: real -> real): (c: Canvas)
    requires req.graphType in {Line, Scatter, Area, Radar} && Ready(CreateChart(req), req, niceMax)
    ensures Count(c.items, CircleKind) == LengthSum(PlotRows(req))
  {
    match req.graphType
    case Line => Line.Generate(req)
    case Scatter => Scatter.Generate(req, niceMax)
    case Area => Area.Generate(req)
    case Radar => Radar.Generate(req)
  }

  /** What a drawing of `req` must show whatever layout drew it: a marker on
      every plotted value for the value charts, a wedge on every value for
      the pie and donut, and a bar on every point of the bar chart's series. */
  predicate ShowsEveryValue(req: GraphRequest, c: Canvas) {
    && (req.graphType in {Line, Scatter, Area, Radar} ==> Count(c.items, CircleKind) == LengthSum(PlotRows(req)))
    && (req.graphType in {Pie, Donut} ==> Count(c.items, PathKind) == Pie.WedgeCount(req))
    && (req.graphType == Bar ==> Count(c.items, RectKind) >= PointCount(Bar.Normalize(req)))
  }

  /** `create_chart(request).generate(request)`. */
  function Generate(req: GraphRequest, niceMax: real -> real): (c: Canvas)
    requires Ready(CreateChart(req), req, niceMax)
    ensures ShowsEveryValue(req, c)
  {
    match req.graphType
    case Bar => Bar.Generate(req)
    case Pie => Pie.Generate(req, false)
    case Donut => Pie.Generate(req, true)
    case _ => ValueChart(req, niceMax)
  }
}
