# rust-chart-worker, modelled in Dafny

rust-chart-worker is a small HTTP service that draws charts. It serves
GET requests, whose query string `parse_query_params` turns into a
`GraphRequest`. It answers OPTIONS with its CORS headers and every other
method with 405 "Method not allowed"; no request body is read. A
`GraphRequest` holds:

- a chart type;
- a flat list of numbers, `data`, or a list of named `series` of points;
- an optional title, axis labels and colours.

The service rejects a request that holds no data at all. Otherwise it
picks a chart layout and writes the chart as an SVG document, which it
then rasterises to PNG.

Six layouts are reachable from the chart-type dispatcher: bar, line,
scatter, pie/donut, area and radar. Seven newer layouts (histogram,
stacked bar, multi-line, candlestick, heatmap, gauge and bubble) stand on
their own. Each has its own settings and its own way of reading the
request. Two more pieces are modelled with them:

- `src/utils/svg.rs` holds the SVG helpers the original layouts share;
- `src/themes/mod.rs` holds a registry of colour themes.

## How the model is built

- **Request and parsing.** The request types (`Models`) are Dafny
  datatypes; `Models.FromFields` states the `#[serde(default)]` defaults
  the type declares, which the handler itself never uses. The query-string parser (`Query`) is a pure function over
  the decoded key/value pairs. The string-to-number conversion it relies
  on is a parameter.
- **Layouts.** Each layout is a pure function from a request, and from
  its settings where it has any, to a `Drawing.Canvas`. A canvas is the
  page size, the background, the translation of the plot origin and the
  list of primitives the SVG text would hold: rectangles, circles,
  segments, paths, texts and rotated labels.
- **Empty charts.** A layout that emits an SVG with nothing in it returns
  `Rendering.Blank`.
- **Numbers.** `f64` arithmetic is modelled by `real`. Casts that
  truncate or saturate are written out in `Numeric`: `as u8`, `as i32`,
  `as usize` and `.round()`.
- **Trigonometry.** Sine and cosine stay symbolic. A point on a circle is
  written `Polar(cx, cy, r, angle, dy)` or `Dial(r, fraction, dy)`.
  Angles are kept as fractions of a turn or as degrees, so properties
  about angles (equal spokes, contiguous wedges, a full turn) are exact.
- **What is proved.** Most properties count the primitives of each kind
  that a chart holds. Examples:
  - one marker per plotted value;
  - one wedge per pie value;
  - one bar per point;
  - one rectangle per positive stacked block.

  Other properties state where a primitive is placed:
  - the largest value reaches the top of the plot;
  - every point lies inside the plot;
  - the colour arcs of the gauge tile the dial;
  - histogram bars tile the axis;
  - pie wedges start where the previous one ended and add up to a full
    turn.
- **Value formatting.** Numbers printed into the SVG are kept as values
  with a number of decimals (`Num(v, 1)` stands for `format!("{:.1}", v)`).

## Model

| member | source | states |
|---|---|---|
| Models.FromFields | src/models.rs:35-47 | The serde defaults of the type: a missing `graph_type` defaults to line; missing `series` and `data` default to empty lists; the other fields are kept as given. |
| Models.ParseGraphType | src/models.rs:3-13 | A chart-type name is accepted only if it is the lower-case name of that type. |
| Models.GraphTypeNameRoundTrip | src/models.rs:3-13 | Every chart type is recovered from its serialised name. |
| Models.Values | src/models.rs:28-33 | The values of a series, in order, one per point. |
| Models.PlainPoints | src/models.rs:21-26 | Bare numbers become points with no label and no colour, in order. |
| Utils.DefaultColors | src/utils/mod.rs:4-8 | The default palette has seven colours and starts with blue `#0000FF`. |
| Utils.DefaultColor | src/utils/mod.rs:4-8 | The i-th default colour is a palette colour and repeats every seven indices. |
| Utils.FormatDecimals | src/utils/mod.rs:10-16 | A number prints with no decimals exactly when it is integral, and with one otherwise. |
| Utils.RoundedPrintsWhole | src/utils/mod.rs:10-16 | A rounded number always prints without decimals. |
| Svg.Page | src/utils/svg.rs:8-13 | The original layouts draw on an 800×600 page whose plot origin is moved to (80, 50). |
| Svg.Labels | src/utils/svg.rs:15-34 | One text per title or axis label present; the title is centred at (320, 30). |
| Svg.Header | src/utils/svg.rs:3-43 | The header holds the labels, followed by the two axes as its last items, and no data marks. |
| Svg.Named | src/utils/svg.rs:53-54 | The legend lists exactly the series that have a name. |
| Svg.SwatchColor | src/utils/svg.rs:55-56 | A swatch takes the series colour, or black when the series has none. |
| Svg.Legend | src/utils/svg.rs:49-72 | The k-th named series gets a 20×20 swatch at y + 25k and its name at (x + 25, y + 25k + 15); unnamed series are skipped. |
| Svg.LegendCounts | src/utils/svg.rs:49-72 | The legend holds one swatch per named series and no markers or paths. |
| Svg.TickY | src/utils/svg.rs:79-80 | The six value ticks are 80 units apart, from the baseline at 450 up to 50. |
| Svg.TickValue | src/utils/svg.rs:75-81 | Tick 0 reads 0 and tick 5 reads the maximum; no tick is negative for a non-negative maximum. |
| Svg.YTick | src/utils/svg.rs:83-93 | Each value tick is a mark, a one-decimal label and a grid line across the 640-unit plot. |
| Svg.YAxisTicks | src/utils/svg.rs:74-96 | The value axis has six ticks of three items each, in order, and no data marks. |
| Svg.YAxisTicksEnds | src/utils/svg.rs:79-88 | The bottom label reads 0.0 at the baseline, and the top label reads the maximum at y = 50. |
| Svg.TickX | src/utils/svg.rs:100-103 | The first category tick is on the value axis; no tick lies left of it. |
| Svg.TickXMonotone | src/utils/svg.rs:100-103 | Category ticks move strictly rightwards and would reach 640 at index n. |
| Svg.XTick | src/utils/svg.rs:104-108 | Tick i is a 5-unit mark below the axis, labelled i + 1. |
| Svg.XAxisTicks | src/utils/svg.rs:98-111 | n category ticks of two items each, in order, and no data marks. |
| Svg.XAxisTicksInPlot | src/utils/svg.rs:100-103 | Every category tick lies in [0, 640), in increasing order. |
| Svg.ValueText | src/utils/svg.rs:113-120 | A value label sits 5 units above its point and shows the value with one decimal. |
| Svg.Markers | src/charts/line.rs:57-66 | Each point gets a radius-4 circle followed by its value label. |
| Svg.MarkersCounts | src/charts/line.rs:57-66 | There is one circle and one text per point, and nothing else. |
| Svg.SeriesLegend | src/charts/line.rs:69-71 | Without series there is no legend; otherwise there is one swatch per named series. |
| ChartCommon.GetMaxValue | src/charts/mod.rs:26-32 | None exactly when the series hold no point; otherwise the result bounds every value and is one of them. |
| ChartCommon.PlotRows | src/charts/line.rs:15-23 | The rows to plot are the series' values, or the flat data as a single row when there are no series. |
| ChartCommon.PlotMax | src/charts/line.rs:25 | The maximum over the plotted rows: None iff nothing is plotted; otherwise it bounds every plotted value and is one of them. |
| ChartCommon.AsWrittenMax | src/charts/line.rs:25 | As written, the maximum ignores the flat data, so without series there is none. |
| ChartCommon.PlotMaxAgrees | src/charts/line.rs:25 | With series present, the written maximum and the corrected one agree. |
| ChartCommon.SeriesColor | src/charts/line.rs:32-39 | A series takes the request colour at its index, else the default palette colour cycled by 7. |
| ChartCommon.Palette8 | src/charts/stacked_bar.rs:95-99 | The newer layouts' fallback palette has eight colours, starting blue, red, green. |
| ChartCommon.CycledColor | src/charts/stacked_bar.rs:114-116 | Index i takes colour i modulo the length of the request's list, or of the fallback palette; the result is always one of that list's colours. |
| ChartCommon.Longest | src/charts/stacked_bar.rs:25-28 | The length of the longest series: it bounds every series and is attained; it is 0 without series. |
| ChartCommon.MaxOfRows | src/charts/multi_line.rs:27-41 | None iff no row holds a value; otherwise an attained upper bound of all values. |
| ChartCommon.MinOfRows | src/charts/multi_line.rs:27-41 | None iff no row holds a value; otherwise an attained lower bound of all values. |
| Charts.CreateChart | src/charts/mod.rs:14-24 | Pie and donut share the pie layout and differ in the donut flag; bar and line get their own layouts. |
| Charts.DispatchRoundTrip | src/charts/mod.rs:14-24 | Every chart type gets a layout that draws that type, and every layout is chosen by the type it draws. |
| Charts.DispatchInjective | src/charts/mod.rs:14-24 | Requests of different types get different layouts. |
| Charts.ValueChart | src/charts/mod.rs:14-24 | Line, scatter, area and radar charts put one marker on every plotted value. |
| Charts.Generate | src/charts/mod.rs:14-24 | Whatever layout is dispatched, every value is drawn: a marker per plotted value, a wedge per pie value, at least a bar per bar-chart point. |
| Line.PointX | src/charts/line.rs:43-44 | The first point is on the value axis and the last at x = 640. |
| Line.PointXMonotone | src/charts/line.rs:44 | Points move strictly rightwards and never pass 640. |
| Line.PlotY | src/charts/line.rs:45 | Zero maps to the baseline (450), and the maximum maps to the top tick (50). |
| Line.PlotYOrder | src/charts/line.rs:45 | Larger values are drawn strictly higher; values in [0, max] stay between 50 and 450. |
| Line.RowPoints | src/charts/line.rs:58-60 | Each value of a row becomes the point at its index's x and its value's height. |
| Line.Polyline | src/charts/line.rs:42-51 | The path moves to the first point and draws a line to each later point, in order. |
| Line.RowSection | src/charts/line.rs:41-66 | A row is drawn as one unfilled path in the series colour through its points, then its markers. |
| Line.SectionsShape | src/charts/line.rs:31-67 | Every row's drawing is one path followed by one marker per value. |
| Line.Marks | src/charts/line.rs:31-67 | The plotted part holds one path per row and one marker per value, and no rectangles. |
| Line.Decor | src/charts/line.rs:9-29 | Header, ticks and grid hold no markers, paths or rectangles. |
| Line.Render | src/charts/line.rs:8-75 | The chart holds one marker per value, one path per row and one swatch per named series. |
| Line.Generate | src/charts/line.rs:8-75 | The same, for the rows the request plots. |
| Line.TopValueOnTopTick | src/charts/line.rs:25-45 | With the corrected maximum, some value is drawn exactly at the top tick, and no value is drawn above it. |
| Line.AsWrittenY | src/charts/line.rs:25-45 | As written, every flat-data point is drawn on the baseline; with a series maximum, the height is the one the corrected scale gives under that maximum. |
| Line.FlatDataFinding | src/charts/line.rs:25 | For data [1, 2] without series, both points are drawn at y = 450 as written; corrected, they are drawn at 250 and 50. |
| Area.Outline | src/charts/area.rs:65-82 | The outline starts on the baseline at x = 0, visits every value's point in order, returns to the baseline at 640 and closes. |
| Area.OutlineOnBaseline | src/charts/area.rs:67-82 | Both ends of the outline lie on the baseline, at the two ends of the axis. |
| Area.RowSection | src/charts/area.rs:84-98 | A row is a filled outline in its series colour at opacity 0.2, followed by its markers. |
| Area.SectionsShape | src/charts/area.rs:55-99 | Every row's drawing is one path followed by one marker per value. |
| Area.Marks | src/charts/area.rs:55-99 | One filled path per row and one marker per value. |
| Area.Decor | src/charts/area.rs:16-52 | Labels, grid and ticks hold no markers, paths or rectangles. |
| Area.Trailer | src/charts/area.rs:101-109 | The trailer is the legend (one swatch per named series) followed by the axes. |
| Area.Render | src/charts/area.rs:8-113 | The chart holds one marker per value, one path per row and one swatch per named series. |
| Area.AxesOnTop | src/charts/area.rs:105-109 | The axes are drawn last, on top of the filled areas. |
| Area.Generate | src/charts/area.rs:8-113 | The counts of Area.Render for the rows the request plots, with the axes last. |
| Area.AsWrittenOutline | src/charts/area.rs:48-82 | As written, a flat-data region lies entirely on the x axis; with a series maximum, it is the region Area.Outline draws under that maximum. |
| Area.FlatDataFinding | src/charts/area.rs:48 | For data [1, 2] without series, the region collapses onto the axis as written; corrected, it rises to 250 and 50. |
| Scatter.RowSection | src/charts/scatter.rs:42-50 | A row is drawn as markers only, one per value. |
| Scatter.LineWithoutPaths | src/charts/scatter.rs:42-50 | A scatter row is exactly the line chart's drawing of that row without its connecting path. |
| Scatter.Marks | src/charts/scatter.rs:32-51 | One marker per value and no paths. |
| Scatter.Render | src/charts/scatter.rs:8-59 | One marker per value, no paths, one swatch per named series. |
| Scatter.Generate | src/charts/scatter.rs:8-59 | The same, for the rows the request plots. |
| Scatter.FlatDataFinding | src/charts/scatter.rs:25-26 | For data [1, 2] without series, the maximum passed to `nice_max` is −∞ as written; corrected it is 2, and the chart is drawable exactly when the rounding of 2 is nonzero. |
| Radar.EvenSpokes | src/charts/radar.rs:31-38 | The first spoke points straight up; consecutive spokes are 2π/n apart and close the full turn. |
| Radar.Polygon | src/charts/radar.rs:43-56 | A polygon is the polyline through its points, closed. |
| Radar.Ring | src/charts/radar.rs:34-59 | Ring i is an unfilled grey polygon that moves to spoke 0, draws a line to every later spoke, all at radius i/5 of the chart radius, and closes. |
| Radar.RingVertices | src/charts/radar.rs:34-40 | The corner of ring i on spoke j lies 40·i from the centre along that spoke; the fifth ring passes through the end of every spoke line. |
| Radar.Rings | src/charts/radar.rs:33-59 | Five rings, in order, all paths. |
| Radar.Spokes | src/charts/radar.rs:61-80 | Each axis gets a spoke line and a label, in order, with no data marks. |
| Radar.ReachBounds | src/charts/radar.rs:96 | Zero sits at the centre and the maximum on the outer ring; values in between stay inside. |
| Radar.RowPoints | src/charts/radar.rs:93-100 | Value i is placed on spoke i at its scaled distance from the centre. |
| Radar.RowSection | src/charts/radar.rs:102-127 | A row is a filled closed polygon in its series colour, followed by its markers. |
| Radar.Marks | src/charts/radar.rs:83-128 | One polygon per row and one marker per value. |
| Radar.Decor | src/charts/radar.rs:10-80 | The background holds the five rings and no markers or rectangles. |
| Radar.Render | src/charts/radar.rs:9-136 | One marker per value, five rings plus one polygon per row, one swatch per named series. |
| Radar.Generate | src/charts/radar.rs:9-136 | The same, for the rows the request plots. |
| Radar.AsWrittenReach | src/charts/radar.rs:26-96 | As written, every flat-data corner sits on the centre; with a series maximum, the distance is the one Radar.Reach gives under that maximum. |
| Radar.FlatDataFinding | src/charts/radar.rs:26 | For data [1, 2] without series, both corners sit on the centre as written; corrected, they lie 100 and 200 out. |
| Pie.InnerRadius | src/charts/pie.rs:52-53 | A donut has a hole of 108 (0.6 of the radius); a pie has none. |
| Pie.PercentagesTotal | src/charts/pie.rs:27-46 | The percentages of a non-empty list with a nonzero total add up to 100. |
| Pie.FlatColors | src/charts/pie.rs:28-34 | Flat data takes the request colour at each index, or none when there is none. |
| Pie.SliceLists | src/charts/pie.rs:26-50 | Flat data makes one slice list; otherwise each series makes one, with its points' colours. |
| Pie.Contiguous | src/charts/pie.rs:56-107 | The first wedge starts at the base angle, and each wedge starts where the previous one ended. |
| Pie.FullTurn | src/charts/pie.rs:58 | Slices that add up to 100 % turn through 360°, from −90° (the top) to 270°. |
| Pie.OneLargeArc | src/charts/pie.rs:74 | At most one wedge of a list takes the large-arc flag. |
| Pie.Outline | src/charts/pie.rs:65-94 | A wedge runs from the rim at its start angle along the arc to its end angle, then to the centre for a pie, or back along the inner arc for a donut, and closes. |
| Pie.SliceColor | src/charts/pie.rs:61-63 | A slice takes its own colour, else the default palette colour of its index. |
| Pie.Wedge | src/charts/pie.rs:76-105 | A wedge is its filled outline plus its percentage label at 3/4 of the radius, on the wedge's middle angle. |
| Pie.ListWedges | src/charts/pie.rs:57-108 | Slice j of a list becomes wedge j, starting at the j-th start angle, followed by its label. |
| Pie.Bases | src/charts/pie.rs:54-109 | Each further list starts where the previous list's turn ended. |
| Pie.EveryListFromTheTop | src/charts/pie.rs:54-109 | Because every non-empty list fills a full circle, every list starts at the same angle, modulo whole turns. |
| Pie.AllWedges | src/charts/pie.rs:56-109 | One wedge and one label per slice, and no rectangles. |
| Pie.Title | src/charts/pie.rs:19-24 | The title adds one text when present, and no paths. |
| Pie.Generate | src/charts/pie.rs:11-113 | The chart is centred at (400, 300) and holds one wedge per value and one label per value, plus the title. |
| Pie.ListsFillCircle | src/charts/pie.rs:26-50 | Every non-empty slice list of a request adds up to 100 %. |
| Bar.Normalize | src/charts/bar.rs:8-26 | Series are drawn as given; flat data becomes one unnamed blue series. |
| Bar.NormalizeKeepsValues | src/charts/bar.rs:8-26 | The flat-data series holds exactly the request's data, one point per value. |
| Bar.SegmentWidth | src/charts/bar.rs:33 | The categories split a width of 700 evenly. |
| Bar.GroupWidth | src/charts/bar.rs:34-38 | A group takes 60 % of its segment with several series and 80 % with one. |
| Bar.AsWrittenBarsOverlap | src/charts/bar.rs:92-117 | As written, neighbouring series are shifted by less than a bar's width. |
| Bar.AsWrittenOffsetsSymmetric | src/charts/bar.rs:92-97 | As written, the shifts of series idx and k − 1 − idx cancel out. |
| Bar.TwoSeriesOverlap | src/charts/bar.rs:92-117 | As written, two one-point series give 210-wide bars starting at 56 and 224. |
| Bar.Offset | src/charts/bar.rs:92-97 | Corrected shift: the first bar of a group is not shifted, which agrees with the source for a single series. |
| Bar.GroupTiles | src/charts/bar.rs:100-117 | With the corrected shift, the bars of a group touch side by side, leave equal margins and stay inside their segment. |
| Bar.Height | src/charts/bar.rs:103 | The maximum gets the full 400-unit height; zero gets none. |
| Bar.BarColor | src/charts/bar.rs:105-111 | A bar takes its point's colour, else its series' colour, else blue. |
| Bar.BarPair | src/charts/bar.rs:99-126 | A bar stands on the baseline with its value's height, in its group slot, followed by its value label. |
| Bar.SeriesBars | src/charts/bar.rs:99-127 | One bar and one label per point of a series. |
| Bar.AllBars | src/charts/bar.rs:91-128 | One bar per point over all series, and no markers or paths. |
| Bar.TickLabel | src/charts/bar.rs:79-83 | Value tick i is labelled with i/5 of the maximum, rounded half away from zero. |
| Bar.BarTick | src/charts/bar.rs:77-85 | Each value tick is a mark and its rounded label. |
| Bar.BarTicks | src/charts/bar.rs:77-85 | Six value ticks, from 0 at the baseline to the rounded maximum at the top. |
| Bar.Decor | src/charts/bar.rs:40-88 | Header, ticks and grid hold no bars, markers or paths. |
| Bar.GroupLegend | src/charts/bar.rs:130-133 | A legend, with one swatch per named series, is drawn only when there are several series. |
| Bar.BarMax | src/charts/bar.rs:28-31 | The maximum over the drawn series: None iff there is no point; otherwise an attained upper bound. |
| Bar.Generate | src/charts/bar.rs:7-137 | One bar per point plus the legend swatches, and no markers or paths. |
| Bar.TallestReachesTop | src/charts/bar.rs:103 | Some bar reaches the full 400-unit height. |
| ChartCommon.FlatOrFirstSeries | src/charts/histogram.rs:20-30 | The flat data is used if present, else the first series' values, else nothing; the heatmap reads its values the same way. |
| Histogram.BinIndex | src/charts/histogram.rs:41-42 | A value's bin is always a valid bin; with zero range every value falls in bin 0. |
| Histogram.BinBounds | src/charts/histogram.rs:36-42 | A value lies inside its bin's interval; only the last bin includes its upper edge. |
| Histogram.MaxInLastBin | src/charts/histogram.rs:41-42 | The maximum falls into the last bin. |
| Histogram.TallyCounts | src/charts/histogram.rs:39-44 | Each bin's count is the number of values whose index is that bin. |
| Histogram.TallyTotal | src/charts/histogram.rs:39-44 | The bin counts add up to the number of values. |
| Histogram.CountBins | src/charts/histogram.rs:39-44 | The counting loop yields one count per bin, each the number of values in that bin, adding up to the number of values. |
| Histogram.Tallest | src/charts/histogram.rs:47 | The tallest count bounds every bin and is attained. |
| Histogram.TallestPositive | src/charts/histogram.rs:47 | With any value counted, the tallest bin is positive. |
| Histogram.BarHeight | src/charts/histogram.rs:99-103 | A bar is at most the 480-unit plot height and is exactly that at the scale's top; without a scale it has height 0. |
| Histogram.Bar | src/charts/histogram.rs:97-115 | Bar i stands on the bottom margin in its bin's slot, one unit narrower than the slot. |
| Histogram.Bars | src/charts/histogram.rs:97-115 | One bar per bin, in order. |
| Histogram.BarsTile | src/charts/histogram.rs:98 | Bars start at the left margin, leave a 1-unit gap to the next one, and the last slot ends at the right margin. |
| Histogram.TallestFillsPlot | src/charts/histogram.rs:47-103 | In count mode the tallest bin fills the plot height, and no bar exceeds it. |
| Histogram.Frame | src/charts/histogram.rs:117-162 | The frame is two axes, bins + 1 edge labels and six count labels, with no bars. |
| Histogram.Generate | src/charts/histogram.rs:19-166 | Blank iff there are no samples; otherwise one bar per bin and eight lines (six grid, two axes). |
| Histogram.EveryValueCounted | src/charts/histogram.rs:33-44 | Over the samples' own range, every sample is counted exactly once. |
| Margins.Title | src/charts/histogram.rs:79-85 | One title text when a title is given, and nothing else. |
| Margins.GridLine | src/charts/histogram.rs:88-94 | Grid lines run across the plot, 96 units apart from its top. |
| Margins.GridLines | src/charts/histogram.rs:87-94 | Six horizontal grid lines, in order. |
| Margins.Backdrop | src/charts/histogram.rs:78-94 | Title then grid, with six lines and no marks. |
| Margins.PlotAxes | src/charts/histogram.rs:117-127 | The x axis runs along the bottom of the plot, and the y axis down its left side. |
| Margins.AxisTitles | src/charts/histogram.rs:149-162 | One text per axis label present. |
| Margins.LegendY | src/charts/stacked_bar.rs:207-231 | Legend rows are 18 units apart, starting at 80. |
| Margins.SeriesName | src/charts/stacked_bar.rs:219-221 | A series is named by its own name, else "Series k" counting from 1. |
| Margins.Spacing | src/charts/stacked_bar.rs:56-57 | The categories share the plot width evenly. |
| Margins.SlotCentres | src/charts/stacked_bar.rs:167 | Slot centres lie strictly inside the plot, one spacing apart. |
| Numeric.MinOf | src/charts/histogram.rs:33 | None iff empty; otherwise an attained lower bound. |
| Numeric.MaxOf | src/charts/histogram.rs:34 | None iff empty; otherwise an attained upper bound. |
| Numeric.AsI32 | src/charts/histogram.rs:142 | `as i32`: truncation toward zero, saturating at the i32 bounds. |
| Numeric.AsU8 | src/charts/gauge.rs:28 | `as u8`: truncation, saturating at 0 and 255. |
| Numeric.Clamp | src/charts/gauge.rs:53 | The result lies in the interval and equals x when x does. |
| Numeric.Round | src/charts/bar.rs:79 | The nearest integer, halves rounded away from zero. |
| Numeric.AsIndex | src/charts/heatmap.rs:82 | `as usize`: negative numbers become 0, others are truncated. |
| StackedBar.Height | src/charts/stacked_bar.rs:37-39 | A block's value is the point's value when positive and present, else 0. |
| StackedBar.Totals | src/charts/stacked_bar.rs:34-42 | There is one total per category: the sum of its non-negative block values. |
| StackedBar.MaxTotal | src/charts/stacked_bar.rs:44 | None iff no category; otherwise an attained upper bound of the totals. |
| StackedBar.BlockColor | src/charts/stacked_bar.rs:114-116 | A block takes the series colour, else the point's, else the request's list or the palette, cycled by series index. |
| StackedBar.PercentagesTotal | src/charts/stacked_bar.rs:118-122 | A category's percentages add up to 100. |
| StackedBar.ValueLabel | src/charts/stacked_bar.rs:133-145 | A block is labelled at its centre, in white, only when values are shown and it is taller than 15; the label is a percentage or the value. |
| StackedBar.StackFrom | src/charts/stacked_bar.rs:107-150 | One rectangle per positive block, and no other shapes. |
| StackedBar.StackShape | src/charts/stacked_bar.rs:104-150 | Each positive block sits directly on the one below it, with the height of its share of the scale. |
| StackedBar.Stack | src/charts/stacked_bar.rs:102-111 | A category stack has one rectangle per positive block. |
| StackedBar.StackReaches | src/charts/stacked_bar.rs:102-150 | The blocks rise from the bottom without gaps to the height of the category total, within the plot. |
| StackedBar.CategoryStack | src/charts/stacked_bar.rs:102-151 | Category i rises from the bottom to the height of its total. |
| StackedBar.TallestReachesTop | src/charts/stacked_bar.rs:44-111 | The largest category total reaches the top of the plot. |
| StackedBar.AllStacks | src/charts/stacked_bar.rs:101-151 | One rectangle per positive block over all categories. |
| StackedBar.CategoryLabel | src/charts/stacked_bar.rs:165-179 | Category i is labelled under its slot with the first series' label, else "Category i+1". |
| StackedBar.CategoryLabels | src/charts/stacked_bar.rs:165-179 | One label per category, in order. |
| StackedBar.TotalLabels | src/charts/stacked_bar.rs:181-189 | Six total labels up the value axis. |
| StackedBar.Frame | src/charts/stacked_bar.rs:153-204 | The frame starts with the two axes and holds no other lines or marks. |
| StackedBar.LegendRow | src/charts/stacked_bar.rs:216-232 | Each series gets a swatch in its colour and its name. |
| StackedBar.Legend | src/charts/stacked_bar.rs:206-232 | One swatch per series. |
| StackedBar.Render | src/charts/stacked_bar.rs:49-235 | One rectangle per positive block plus one swatch per series, and eight lines. |
| StackedBar.Generate | src/charts/stacked_bar.rs:19-236 | Blank without categories or when no total is positive; otherwise the counts of StackedBar.Render. |
| MultiLine.MaxX | src/charts/multi_line.rs:27-41 | The largest index is one less than the longest series' length, and no series passes it. |
| MultiLine.ScaleOf | src/charts/multi_line.rs:27-41 | The value range bounds every value and both of its ends are attained. |
| MultiLine.XSpan | src/charts/multi_line.rs:119 | Index 0 maps to the left edge and the largest index to the right edge, strictly increasing. |
| MultiLine.YSpan | src/charts/multi_line.rs:120 | The smallest value maps to the bottom and the largest to the top, larger values drawn higher. |
| MultiLine.PointInside | src/charts/multi_line.rs:118-122 | A point within the scale is drawn inside the plot. |
| MultiLine.PointsInsidePlot | src/charts/multi_line.rs:118-122 | Every point of every series is drawn inside the plot. |
| MultiLine.Trace | src/charts/multi_line.rs:124-133 | A trace moves to the first point, then takes a straight line or a quadratic curve to each later point. |
| MultiLine.StraightTrace | src/charts/multi_line.rs:131-133 | Without smoothing, the trace is the line chart's polyline. |
| MultiLine.SmoothControl | src/charts/multi_line.rs:126-130 | With smoothing, each curve's control point lies horizontally between its two ends, at the new point's height. |
| MultiLine.Hue | src/charts/multi_line.rs:111-112 | A series takes its own colour, else the request's list or the palette, cycled. |
| MultiLine.Section | src/charts/multi_line.rs:106-154 | A non-empty series gets one unfilled path through its points, plus a dot per point when points are shown. |
| MultiLine.SectionsCount | src/charts/multi_line.rs:106-155 | One path per non-empty series, one dot per point when shown. |
| MultiLine.Upright | src/charts/multi_line.rs:91-95 | Vertical grid lines are 136 units apart and span the plot. |
| MultiLine.Grid | src/charts/multi_line.rs:82-96 | Six horizontal and six vertical grid lines, interleaved. |
| MultiLine.IndexLabels | src/charts/multi_line.rs:170-177 | Six index labels along the x axis. |
| MultiLine.ValueLabels | src/charts/multi_line.rs:180-187 | Six value labels along the y axis. |
| MultiLine.LabelsSpanData | src/charts/multi_line.rs:170-187 | The axis labels run from 0 to the largest index and from the smallest to the largest value. |
| MultiLine.LegendRow | src/charts/multi_line.rs:214-230 | Each series gets a short line in its colour and its name. |
| MultiLine.Legend | src/charts/multi_line.rs:204-230 | A heading, then one row per series. |
| MultiLine.Frame | src/charts/multi_line.rs:157-202 | The frame starts with the two axes and holds no other lines or marks. |
| MultiLine.TitledGrid | src/charts/multi_line.rs:73-96 | The title, then twelve grid lines. |
| MultiLine.Render | src/charts/multi_line.rs:47-233 | One path per non-empty series, dots when shown, and 14 lines plus one legend line per series. |
| MultiLine.Generate | src/charts/multi_line.rs:21-234 | Blank for fewer than two indices or a flat value range; otherwise the counts of MultiLine.Render. |
| Candlestick.Quadruples | src/charts/candlestick.rs:18-29 | Consecutive groups of four numbers become open, high, low, close. |
| Candlestick.QuadruplesRoundTrip | src/charts/candlestick.rs:18-29 | Reading quadruples and writing their prices back gives the input. |
| Candlestick.Fabricate | src/charts/candlestick.rs:32-42 | A single value v becomes open 1.02v, high 1.1v, low 0.9v, close 0.97v, keeping its label. |
| Candlestick.FabricatedShape | src/charts/candlestick.rs:33-39 | A positive value gives low < close < open < high; a negative one inverts high and low. |
| Candlestick.ParseOhlc | src/charts/candlestick.rs:16-46 | Data whose length is a positive multiple of four is read as quadruples; otherwise the first series is fabricated; otherwise there are no candles. |
| Candlestick.ScaleOf | src/charts/candlestick.rs:57-69 | The price range bounds every candle, both ends attained, padded by 10 % on each side. |
| Candlestick.SpreadScale | src/charts/candlestick.rs:57-69 | A nonzero price range leaves the padded scale a nonzero span to divide by. |
| Candlestick.PaddedScale | src/charts/candlestick.rs:66-123 | The lowest low maps to 500 and the highest high to 100; higher prices are drawn strictly higher. |
| Candlestick.BodyFill | src/charts/candlestick.rs:125-130 | Up candles are green and down candles red. |
| Candlestick.Body | src/charts/candlestick.rs:144-151 | The body is centred in its slot, 60 % of the spacing wide, spans open to close, and is at least 1 unit tall. |
| Candlestick.CandleMarks | src/charts/candlestick.rs:132-151 | A candle is an upper wick from the high to the body, a lower wick from the body to the low, then the body. |
| Candlestick.CandleShape | src/charts/candlestick.rs:120-142 | For a well-formed candle the body spans the larger to the smaller of open and close, and both wicks point away from it. |
| Candlestick.BodyInSlot | src/charts/candlestick.rs:78-79 | A body lies strictly inside its own slot. |
| Candlestick.AllCandles | src/charts/candlestick.rs:116-152 | Two wicks and one body per candle. |
| Candlestick.PriceLabel | src/charts/candlestick.rs:167-174 | Price label i shows i/5 of the padded range with two decimals. |
| Candlestick.PriceLabels | src/charts/candlestick.rs:166-174 | Six price labels, from the padded low to the padded high. |
| Candlestick.ShownCandles | src/charts/candlestick.rs:178 | The first candle is always labelled; with fewer than 16, all are; otherwise every ⌊n/8⌋-th. |
| Candlestick.CandleLabel | src/charts/candlestick.rs:179-187 | A candle is labelled under its slot with its own label, else its number from 1. |
| Candlestick.CandleLabels | src/charts/candlestick.rs:176-189 | At most one label per candle, the first one included when shown. |
| Candlestick.LabelsOfShown | src/charts/candlestick.rs:177-189 | The labels are exactly those of the shown candles, in order. |
| Candlestick.Frame | src/charts/candlestick.rs:154-204 | The frame starts with the two axes and holds no other lines or marks. |
| Candlestick.Render | src/charts/candlestick.rs:71-207 | One body per candle, two wicks per candle plus eight frame lines. |
| Candlestick.WicksInsidePlot | src/charts/candlestick.rs:61-123 | Every well-formed candle is drawn between 100 and 500, its high above its low. |
| Candlestick.Generate | src/charts/candlestick.rs:50-208 | Blank iff there are no candles; otherwise the counts of Candlestick.Render. |
| Heatmap.NormalizedRange | src/charts/heatmap.rs:30-35 | The normalised value is in [0, 1], 0 at the low end and 1 at the high end, and 0.5 for a flat range. |
| Heatmap.Intensity | src/charts/heatmap.rs:39 | The intensity is in 0..255, the truncated 255-fold of the normalised value. |
| Heatmap.ViridisColor | src/charts/heatmap.rs:50-77 | Viridis colours are valid RGB colours. |
| Heatmap.ViridisStops | src/charts/heatmap.rs:50-77 | At its five stops the ramp gives exactly the Viridis stop colours. |
| Heatmap.CustomIndex | src/charts/heatmap.rs:82-83 | A custom list index is valid, 0 at the low end and the last at the high end. |
| Heatmap.GetColor | src/charts/heatmap.rs:30-87 | Blues, reds and greens fade the two other channels from white; Viridis and custom lists pick by the normalised value. |
| Heatmap.ScaleEnds | src/charts/heatmap.rs:30-85 | Each scale runs from its low colour (white for the single-hue ones) to its high colour. |
| Heatmap.TextContrast | src/charts/heatmap.rs:166-170 | The label is white exactly when the cell's normalised value exceeds 0.5. |
| Heatmap.CeilSqrt | src/charts/heatmap.rs:108 | The least integer whose square reaches n. |
| Heatmap.GridFits | src/charts/heatmap.rs:107-110 | The grid has room for every value, with no spare row, and no more rows than columns. |
| Heatmap.RowsCover | src/charts/heatmap.rs:146-151 | Every value's row exists in the grid. |
| Heatmap.Cell | src/charts/heatmap.rs:145-178 | Value i fills the square at row i / cols and column i % cols in its scale colour; its label is drawn only when shown and the cell is wider than 20. |
| Heatmap.SlotsDistinct | src/charts/heatmap.rs:146-147 | No two values share a cell. |
| Heatmap.CellInside | src/charts/heatmap.rs:146-154 | Every cell lies inside the grid area. |
| Heatmap.Cells | src/charts/heatmap.rs:145-179 | One square per value. |
| Heatmap.StepsSpanScale | src/charts/heatmap.rs:193-198 | The ten legend steps run from the minimum to the maximum in equal tenths. |
| Heatmap.Legend | src/charts/heatmap.rs:181-214 | A heading, ten swatches coloured at the ten steps, and the min and max labels at the ends. |
| Heatmap.Heading | src/charts/heatmap.rs:136-142 | A centred title when given. |
| Heatmap.Items | src/charts/heatmap.rs:135-214 | One square per value plus ten legend swatches, and nothing else but text. |
| Heatmap.Render | src/charts/heatmap.rs:117-133 | The page is sized to the grid plus margins. |
| Heatmap.Generate | src/charts/heatmap.rs:91-218 | Blank iff there are no values; otherwise one square per value plus the legend. |
| Gauge.GaugeValue | src/charts/gauge.rs:39-49 | The first flat value, else the first point of the first series, else none. |
| Gauge.Normalized | src/charts/gauge.rs:52-53 | The needle position is in [0, 1]; with an empty range it is 1 above the minimum and 0 otherwise. |
| Gauge.NormalizedPlaces | src/charts/gauge.rs:52-53 | Values at or below the minimum give 0, at or above the maximum give 1, and in between the position maps back to the value. |
| Gauge.NormalizedMonotone | src/charts/gauge.rs:52-53 | Larger values never move the needle back. |
| Gauge.NeedleTurn | src/charts/gauge.rs:65 | The needle angle is a fraction of the half turn. |
| Gauge.NeedleSweep | src/charts/gauge.rs:63-65 | The needle angle is π (pointing left) at the minimum and below, 0 (pointing right) at the maximum and above, and never grows as the value grows. |
| Gauge.Ramp | src/charts/gauge.rs:23-34 | The ramp has no blue; green is full in the lower half and red in the upper half. |
| Gauge.RampStops | src/charts/gauge.rs:23-34 | Green at 0, yellow at 0.5, red at 1. |
| Gauge.RampMonotone | src/charts/gauge.rs:23-34 | Along the ramp, red never falls and green never rises. |
| Gauge.ColourArc | src/charts/gauge.rs:104-121 | Each colour arc is a short unfilled arc on the dial, stroked in its ramp colour. |
| Gauge.ColourArcs | src/charts/gauge.rs:100-122 | Fifty colour arcs, in order. |
| Gauge.ArcsTile | src/charts/gauge.rs:101-116 | The arcs start at the left end of the dial, each starts where the previous ended, and the last ends at the right end. |
| Gauge.ArcColours | src/charts/gauge.rs:107-111 | The first arc is green and the last red. |
| Gauge.TickLabels | src/charts/gauge.rs:126-130 | The eleven tick labels run from the minimum to the maximum in equal steps, each where the needle would point for it. |
| Gauge.Tick | src/charts/gauge.rs:127-149 | A tick is a radial mark and its whole-number label, both on tick i's angle. |
| Gauge.Ticks | src/charts/gauge.rs:124-151 | Eleven ticks when labels are shown, none otherwise. |
| Gauge.Needle | src/charts/gauge.rs:153-169 | When shown, the needle is a line from the hub to its angle plus the hub circle. |
| Gauge.Backdrop | src/charts/gauge.rs:84-98 | The backdrop ends with the grey half-circle dial and holds no other shapes. |
| Gauge.Readout | src/charts/gauge.rs:171-183 | The value is printed with one decimal under the hub. |
| Gauge.Front | src/charts/gauge.rs:124-183 | The ticks, then the needle pointing at the value's position, then the readout. |
| Gauge.Render | src/charts/gauge.rs:55-186 | A 600×400 page with 51 arcs, the ticks and needle as configured, the needle at the value. |
| Gauge.Generate | src/charts/gauge.rs:38-187 | Blank iff there is no value; otherwise the needle points at the value. |
| Bubble.SizeOf | src/charts/bubble.rs:37 | A synthesised bubble is at least 10 in size. |
| Bubble.SizeGrows | src/charts/bubble.rs:37 | The size grows with the value's magnitude and ignores its sign. |
| Bubble.FromPoints | src/charts/bubble.rs:33-41 | Point i becomes the bubble at (i, value) with a size grown from the value, keeping its label and colour. |
| Bubble.Triples | src/charts/bubble.rs:45-53 | Consecutive groups of three numbers become x, y, size. |
| Bubble.TriplesRoundTrip | src/charts/bubble.rs:44-53 | Reading triples and writing their coordinates back gives the input. |
| Bubble.ParseBubbles | src/charts/bubble.rs:30-69 | The first series is used if present, else triples when the length divides by 3, else synthesised bubbles; the result is empty iff the source is. |
| Bubble.SynthesisedBubbles | src/charts/bubble.rs:56-64 | Data whose length is not a multiple of 3 yields one bubble per value at its index. |
| Bubble.ExtentOf | src/charts/bubble.rs:81-86 | The extents bound every bubble and every end is attained. |
| Bubble.ShareOfRange | src/charts/bubble.rs:146-147 | A coordinate's share of a range widened to at least 1 lies in [0, 1]. |
| Bubble.CentreInside | src/charts/bubble.rs:146-147 | Every centre lies inside the plot; the minimum x is on the left edge and the minimum y on the bottom. |
| Bubble.UnitShare | src/charts/bubble.rs:150-151 | A size's share of the size range runs from 0 to 1. |
| Bubble.RadiusRange | src/charts/bubble.rs:150-155 | Radii stay between the configured minimum and maximum, reach both ends, and take their midpoint when every size is equal. |
| Bubble.DefaultRadii | src/charts/bubble.rs:155 | By default radii lie in [5, 30], and equal sizes get 17.5. |
| Bubble.RadiusMonotone | src/charts/bubble.rs:150-155 | Bigger bubbles never get smaller radii. |
| Bubble.BubblesPlaced | src/charts/bubble.rs:144-155 | Every bubble is centred inside the plot with a radius in the configured range. |
| Bubble.Palette6 | src/charts/bubble.rs:138-141 | The bubble palette is the first six colours of the shared palette. |
| Bubble.Fill | src/charts/bubble.rs:158-159 | A bubble takes its own colour, else the request's list, else the six-colour palette, cycled by index. |
| Bubble.Mark | src/charts/bubble.rs:161-176 | A bubble is a circle at its centre with its radius and colour, plus its label when labels are shown and it has one. |
| Bubble.Marks | src/charts/bubble.rs:143-177 | One circle per bubble. |
| Bubble.GridPair | src/charts/bubble.rs:121-134 | Grid line i is a horizontal line every 88 units and a vertical line every 128 units. |
| Bubble.Backdrop | src/charts/bubble.rs:112-135 | Twelve grid lines and no marks. |
| Bubble.AxisLabelsSpan | src/charts/bubble.rs:192-209 | The axis labels run from the minimum to the maximum of each coordinate. |
| Bubble.Frame | src/charts/bubble.rs:179-224 | The frame starts with the two axes and holds no other lines or marks. |
| Bubble.SizeLegend | src/charts/bubble.rs:226-253 | The legend shows a grey circle of the minimum radius and one of the maximum, each labelled with its size. |
| Bubble.Overlay | src/charts/bubble.rs:179-253 | Two axes and two legend circles. |
| Bubble.Render | src/charts/bubble.rs:88-256 | One circle per bubble plus two legend circles, and fourteen lines. |
| Bubble.Generate | src/charts/bubble.rs:73-257 | Blank iff there are no bubbles; otherwise the counts of Bubble.Render. |
| Query.Split | src/lib.rs:100 | Splitting at commas gives at least one part, and no part holds a comma. |
| Query.SplitJoin | src/lib.rs:100 | Joining the parts with commas restores the text. |
| Query.JoinSplit | src/lib.rs:100 | Splitting comma-free parts joined with commas restores the parts. |
| Query.Numbers | src/lib.rs:93-96 | Tokens that do not parse are dropped; every number kept comes from some token. |
| Query.NumbersAppend | src/lib.rs:93-96 | Parsing distributes over concatenation, so order is kept. |
| Query.NumbersAll | src/lib.rs:93-96 | When every token parses, there is exactly one number per token, in order. |
| Query.TypeOf | src/lib.rs:81-91 | A type other than line is chosen only by its exact name; anything unknown means line. |
| Query.TypeOfName | src/lib.rs:81-91 | Every chart type is chosen by its own name. |
| Query.Step | src/lib.rs:79-110 | Unknown keys change nothing; `data` replaces the numbers; `colors` replaces the colour list. |
| Query.PointAt | src/lib.rs:115-123 | Point i takes value i, label i when present, and colour i when colours were given. |
| Query.Build | src/lib.rs:112-139 | The request keeps the fields read, and with any numbers holds one series with one point per number. |
| Query.ParseQueryParams | src/lib.rs:65-140 | The series, when present, repeats the flat data; there is at most one series, and one exactly when there is data. |
| Query.LastPairWins | src/lib.rs:79-128 | A later occurrence of a key overrides earlier ones. |
| Query.UnknownKeyIgnored | src/lib.rs:108 | An unknown key does not change the request. |
| Query.AllNumbersKept | src/lib.rs:92-98 | When every token parses, the data holds all of them in order, in one series. |
| Query.Admit | src/lib.rs:19-21 | A request is rejected with 400 "No data provided" exactly when it has neither data nor series; otherwise it goes on unchanged. |
| Query.AdmittedQueryHasSeries | src/lib.rs:113-129 | Every admitted query request has exactly one series equal to its data, so the series-only maximum equals the maximum over the plotted rows. |
| Query.QueryRejection | src/lib.rs:19-21 | A query is rejected exactly when no number was read, in particular an empty query. |
| Themes.BuiltInPalettes | src/themes/mod.rs:17-107 | Each of the four built-in themes has eight series colours, and their names differ. |
| Themes.GetColor | src/themes/mod.rs:109-111 | A series colour is a palette colour, index i giving colour i within the palette. |
| Themes.ColorsCycle | src/themes/mod.rs:109-111 | Series colours repeat with the palette's length. |
| Themes.Find | src/themes/mod.rs:214-216 | Lookup finds the first theme with that exact name, and finds none only when none has it. |
| Themes.FindPrefix | src/themes/mod.rs:214-216 | Themes added later do not change a successful lookup. |
| Themes.DefaultManager | src/themes/mod.rs:191-203 | The registry starts with the four built-in themes, the light one current. |
| Themes.AddTheme | src/themes/mod.rs:210-212 | Adding appends the theme and keeps the current one. |
| Themes.SetCurrentTheme | src/themes/mod.rs:222-226 | Switching succeeds only to a registered name and otherwise changes nothing. |
| Themes.ListThemes | src/themes/mod.rs:228-230 | The names, in registration order. |
| Themes.ManagerStaysValid | src/themes/mod.rs:210-226 | Adding and switching keep the current theme registered, so it can always be found. |
| Themes.AddKeepsOrder | src/themes/mod.rs:210-216 | Adding lists the new name last and does not shadow an existing theme of the same name. |
| Themes.DefaultLookups | src/themes/mod.rs:191-230 | In the default registry the current theme is Light, lookup is case-sensitive, and the list is Light, Dark, Material, Minimal. |
| Themes.Lower | src/themes/mod.rs:233 | Upper-case ASCII letters are lowered; other characters are kept. |
| Themes.ToLower | src/themes/mod.rs:233 | Each character is lowered in place. |
| Themes.ToLowerIdempotent | src/themes/mod.rs:233 | Lowering twice is lowering once. |
| Themes.FromName | src/themes/mod.rs:232-239 | A name picks the built-in theme whose lower-cased name matches, and Light otherwise. |
| Themes.FromNameIgnoresCase | src/themes/mod.rs:232-239 | Every built-in theme is found by its own name, and the case of a name never changes the answer. |

## Left out

- HTTP handling: routing in `main` (GET, OPTIONS, 405 for the rest), headers, URL percent-decoding of query pairs, and the PNG rasteriser `svg_to_png` with its font database (`src/utils/png.rs`). The model starts from the decoded key/value pairs, or from a `GraphRequest` a caller builds directly, and ends at the SVG primitives.
- Query.ParseQueryParams: `str::parse::<f64>` is the parameter `parseNum`, because Rust's float syntax is outside the model.
- Styling that does not affect geometry: CSS classes and `<style>` blocks, stroke widths, fonts and font sizes, dash patterns, `<title>` tooltips, and the chart font family.
- Themes: `generate_css` produces CSS text, and `apply_to_svg` recolours a finished SVG by replacing its `fill=` and `stroke=` attribute strings, with extra replacements for the dark theme. Both work on SVG text, which the model does not hold, so neither is modelled. The theme test driver `test_fixed_themes.rs` at the repository root is not part of this model.
- Themes.Lower: lowers ASCII letters only, where Rust's `to_lowercase` also lowers other Unicode letters.
- The `needs_axes` methods of the area and pie layouts are never called and are not modelled.
- `nice_max` and the x-axis tick helpers for bar and line charts are not part of the shown source. The scatter chart takes `nice_max` as a parameter, and the tick groups appear as opaque `Helper` items.
- Trigonometry stays symbolic (`Polar`, `Dial`). Properties about positions on circles are stated about angles, not about coordinates.
- Floating point: `real` replaces `f64`. NaN and infinities appear only where the source relies on them:
  - an empty gauge range;
  - a flat heatmap range, which gives 0.5;
  - a zero histogram range, which puts every value in bin 0.

  Rounding errors are not modelled.
- Line.Generate: requires a nonzero maximum and a first row whose length is not 1, because the source divides by zero there and draws at NaN or infinite coordinates.
- Scatter.Generate: requires a first row whose length is not 1 and a nonzero rounded maximum, for the same reason as the line chart.
- Area.Generate: requires every row to hold at least two values and the maximum to be nonzero, because the source divides by `len - 1` and by the maximum.
- Radar.Generate: requires a non-empty first row and a nonzero maximum, because the source divides the full turn by the first row's length.
- The flat-data and multi-series findings cannot be reached through the HTTP handler: every query it admits carries exactly one series holding the data (Query.AdmittedQueryHasSeries). They arise only for a caller that builds a `GraphRequest` itself.
- Line.Generate: scales by the maximum over the rows it plots (ChartCommon.PlotMax), not by the maximum over `request.series` alone as line.rs:25 does. The two agree whenever the request has a series; with flat data only, the source draws every point on the x axis (see Findings).
- Area.Generate: scales by the corrected maximum, for the same reason as Line.Generate; area.rs:48 folds `request.series` only.
- Scatter.Generate: rounds the corrected maximum, for the same reason as Line.Generate; scatter.rs:25-26 rounds the fold over `request.series`, which is −∞ on flat data.
- Radar.Generate: scales by the corrected maximum, for the same reason as Line.Generate; radar.rs:26 folds `request.series` only.
- Charts.ValueChart: dispatches to the four Generate members above, so it draws flat data under the corrected maximum.
- Charts.Generate: inherits the corrected maximum of the value charts and the corrected bar shift of Bar.Generate.
- Bar.BarPair: places each bar with the corrected shift `Bar.Offset` (one bar width per series), not the shift (idx − (k−1)/2)·bw/(k + 0.5) of bar.rs:92-97, which is modelled separately as `Bar.AsWrittenOffset` (see Findings). The two differ whenever there are two or more series.
- Bar.SeriesBars: its bars carry Bar.BarPair's corrected shift.
- Bar.AllBars: its bars carry Bar.BarPair's corrected shift.
- Bar.Generate: draws groups of two or more series with the corrected shift, so its bars sit side by side where the source's overlap.
- Pie.Generate: requires every drawn list with values to have a nonzero total, because the source divides by the total.
- Bar.Generate: requires a non-empty first series and a nonzero maximum, because the source divides by both.
- Histogram.Generate: requires at least one bin, because the source subtracts 1 from the bin count and panics on zero.
- StackedBar.Generate: requires the request's colour list not to be empty when a chart is drawn. The source evaluates `colors[i % colors.len()]` eagerly inside `unwrap_or` and panics on an empty list.
- MultiLine.Generate: the same requirement on the colour list, for the same reason.
- Bubble.Generate: the same requirement on the colour list, for the same reason.
- Candlestick.Generate: requires a nonzero price range when there are candles, because the source divides by it.
- Bar.SegmentWidth: the bars share 700 units although the axis is 640 long. This is kept as in the source, so the last group runs past the axis.
- Heatmap.ViridisColor: states only that the result is a valid colour; the exact values are stated at the five stops by Heatmap.ViridisStops.
- Svg.TickValue: states the two ends and the sign, not the value of the intermediate ticks.
- Themes.GetColor: requires a non-empty palette, because the source takes the index modulo the palette's length and panics on zero. `add_theme` accepts a theme with an empty palette, so that panic is reachable and not modelled.
- Gauge.Needle: the needle's angle is exact, but where it lands on screen is not proved, because sine stays symbolic. gauge.rs:155-157 adds r·sin to the centre's y, which in SVG's y-down frame points the needle below the hub. The same holds for the colour arcs at gauge.rs:113-116, while the grey backdrop at gauge.rs:92-97 arcs over the upper half.
- Gauge.Ramp: states the channel bounds and the fixed channels; exact values are stated at the stops by Gauge.RampStops.
- Formatted numbers are values paired with a precision (`Num(v, d)`). The decimal text `format!` produces is not modelled.

## Findings

| source | as written | input that shows it | evidently intended | confidence | as-written member | corrected member |
|---|---|---|---|---|---|---|
| src/charts/line.rs:25 | The scale maximum is taken with `get_max_value(&request.series)`, which ignores flat `data`. With no series it is −∞, so every flat-data point is drawn on the baseline. | A `GraphRequest` built directly with `data = [1, 2]` and no series (a query always adds a series): both points land at y = 450. | The maximum over the rows actually plotted, which includes the flat data: the points land at 250 and 50. | not executed | Line.FlatDataFinding | ChartCommon.PlotMax |
| src/charts/area.rs:48 | The area chart takes the same series-only maximum. With no series it is −∞, so every flat-data region lies on the x axis. | A `GraphRequest` built directly with `data = [1, 2]` and no series (a query always adds a series): the outline runs along y = 450 throughout. | The maximum over the plotted rows: the outline rises to 250 and 50. | not executed | Area.FlatDataFinding | ChartCommon.PlotMax |
| src/charts/scatter.rs:25-26 | The scatter chart rounds the same series-only maximum with `nice_max`. With no series it rounds −∞. | A `GraphRequest` built directly with `data = [1, 2]` and no series (a query always adds a series): `nice_max` receives −∞, not 2. | The maximum over the plotted rows, 2, rounded. | not executed | Scatter.FlatDataFinding | ChartCommon.PlotMax |
| src/charts/radar.rs:26 | The radar chart takes the same series-only maximum. With no series it is −∞, so `value / max_value` is 0 and every flat-data corner sits on the centre. | A `GraphRequest` built directly with `data = [1, 2]` and no series (a query always adds a series): both corners are drawn at (400, 300). | The maximum over the plotted rows: the corners lie 100 and 200 out. | not executed | Radar.FlatDataFinding | ChartCommon.PlotMax |
| src/charts/bar.rs:92-97 | Series are shifted in steps of `bar_width / (k + 0.5)`, which is less than the width `bar_width / k` of each bar, so neighbouring bars of a group overlap. | A `GraphRequest` built directly with two series `[1]` and `[1]` (a query builds at most one): both bars are 210 wide, one starts at 56 and the other at 224. | Bars of a group side by side, each shifted by one bar width. | not executed | Bar.AsWrittenBarsOverlap | Bar.GroupTiles |
