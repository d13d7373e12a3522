/** `parse_query_params` (src/lib.rs): a GET request's query string, already
    split into decoded key/value pairs, becomes a chart request; and the
    handler's rejection of a request without any data. Number parsing
    (Rust's `f64::from_str`) is the parameter `parseNum`. */
module Query {
  import opened Wrappers
  import opened Models
  import opened ChartCommon

  /** The pieces of `s` between commas, as `str::split(',')` yields them:
      always at least one, possibly empty. */
  function Split(s: string): (r: seq<string>)
    ensures |r| >= 1
    ensures forall i :: 0 <= i < |r| ==> ',' !in r[i]
    decreases |s|
  {
    if s == [] then [""]
    else
      var rest := Split(s[1..]);
      if s[0] == ',' then [""] + rest
      else
        assert forall i :: 1 <= i < |rest| ==> ([[s[0]] + rest[0]] + rest[1..])[i] == rest[i];
        [[s[0]] + rest[0]] + rest[1..]
  }

  /** The pieces put back together with a comma between neighbours. */
  function Join(parts: seq<string>): string
    requires |parts| >= 1
    decreases |parts|
  {
    if |parts| == 1 then parts[0] else parts[0] + "," + Join(parts[1..])
  }

  /** Splitting loses nothing: the pieces join back into the original. */
  lemma {:induction false} SplitJoin(s: string)
    ensures Join(Split(s)) == s
    decreases |s|
  {
    if s != [] {
      var rest := Split(s[1..]);
      SplitJoin(s[1..]);
      if s[0] == ',' {
        assert Split(s)[1..] == rest;
      } else {
        var r := Split(s);
        if |rest| > 1 {
          assert r[1..] == rest[1..];
          assert Join(r) == [s[0]] + rest[0] + "," + Join(rest[1..]);
        }
        assert s == [s[0]] + s[1..];
      }
    }
  }

  /** Splitting text that starts with a comma-free piece `a`: `a` joins the first piece. */
  lemma {:induction false} SplitPrefix(a: string, s: string)
    requires ',' !in a
    ensures Split(a + s) == [a + Split(s)[0]] + Split(s)[1..]
    decreases |a|
  {
    if a == [] {
      assert a + s == s;
      assert a + Split(s)[0] == Split(s)[0];
      assert Split(s) == [Split(s)[0]] + Split(s)[1..];
    } else {
      SplitPrefix(a[1..], s);
      var rest := Split(a[1..] + s);
      assert (a + s)[1..] == a[1..] + s;
      assert (a + s)[0] == a[0] && a[0] != ',';
      assert Split(a + s) == [[a[0]] + rest[0]] + rest[1..];
      assert rest[1..] == Split(s)[1..];
      assert [a[0]] + (a[1..] + Split(s)[0]) == a + Split(s)[0];
    }
  }

  /** Joining comma-free pieces and splitting again gives the pieces back. */
  lemma {:induction false} JoinSplit(parts: seq<string>)
    requires |parts| >= 1 && forall i :: 0 <= i < |parts| ==> ',' !in parts[i]
    ensures Split(Join(parts)) == parts
    decreases |parts|
  {
    if |parts| == 1 {
      SplitPrefix(parts[0], "");
      assert parts[0] + "" == parts[0];
      assert Split("") == [""];
      assert Split(parts[0]) == [parts[0]] + Split("")[1..];
      assert Join(parts) == parts[0];
      assert parts == [parts[0]];
    } else {
      var tail := Join(parts[1..]);
      JoinSplit(parts[1..]);
      assert Join(parts) == parts[0] + ("," + tail);
      SplitPrefix(parts[0], "," + tail);
      assert ("," + tail)[1..] == tail;
      assert Split("," + tail) == [""] + parts[1..];
      assert parts[0] + "" == parts[0];
      assert parts == [parts[0]] + parts[1..];
    }
  }

  /** The tokens that parse as numbers, in order; the rest are dropped. */
  function Numbers(tokens: seq<string>, parseNum: string -> Option<real>): (r: seq<real>)
    ensures |r| <= |tokens|
    ensures r == [] <==> forall j :: 0 <= j < |tokens| ==> parseNum(tokens[j]).None?
    ensures forall i :: 0 <= i < |r| ==> exists j :: 0 <= j < |tokens| && parseNum(tokens[j]) == Some(r[i])
    decreases |tokens|
  {
    if tokens == [] then []
    else
      var rest := Numbers(tokens[1..], parseNum);
      assert forall j :: 1 <= j < |tokens| ==> tokens[j] == tokens[1..][j - 1];
      match parseNum(tokens[0])
      case Some(v) => [v] + rest
      case None => rest
  }

  /** Dropping works token by token: the numbers of two runs of tokens are
      the numbers of the first followed by those of the second. */
  lemma {:induction false} NumbersAppend(a: seq<string>, b: seq<string>, parseNum: string -> Option<real>)
    ensures Numbers(a + b, parseNum) == Numbers(a, parseNum) + Numbers(b, parseNum)
    decreases |a|
  {
    if a == [] {
      assert a + b == b;
    } else {
      assert (a + b)[1..] == a[1..] + b;
      assert (a + b)[0] == a[0];
      NumbersAppend(a[1..], b, parseNum);
    }
  }

  /** When every token parses, nothing is dropped and order is kept. */
  lemma {:induction false} NumbersAll(tokens: seq<string>, parseNum: string -> Option<real>)
    requires forall j :: 0 <= j < |tokens| ==> parseNum(tokens[j]).Some?
    ensures |Numbers(tokens, parseNum)| == |tokens|
    ensures forall j :: 0 <= j < |tokens| ==> Numbers(tokens, parseNum)[j] == parseNum(tokens[j]).value
    decreases |tokens|
  {
    if tokens != [] {
      NumbersAll(tokens[1..], parseNum);
    }
  }

  /** The chart kind a `type` value selects: one of six exact names, and the
      line chart for anything else. */
  function TypeOf(value: string): (t: GraphType)
    ensures t != Line ==> GraphTypeName(t) == value
  {
    match value
    case "bar" => Bar
    case "scatter" => Scatter
    case "pie" => Pie
    case "donut" => Donut
    case "area" => Area
    case "radar" => Radar
    case _ => Line
  }

  /** Every chart kind is selected by its own name. */
  lemma TypeOfName(t: GraphType)
    ensures TypeOf(GraphTypeName(t)) == t
  {
  }

  /** What the query has set so far. */
  datatype Fields = Fields(
    graphType: GraphType,
    values: seq<real>,
    labels: seq<string>,
    title: Option<string>,
    xLabel: Option<string>,
    yLabel: Option<string>,
    colors: Option<seq<string>>)

  /** Nothing set: the line chart, no values, no labels. */
  const Initial: Fields := Fields(Line, [], [], None, None, None, None)

  /** The keys the query understands. */
  const Keys: set<string> := {"type", "data", "labels", "title", "x_label", "y_label", "colors"}

  /** One pair: a known key replaces its field, any other key changes nothing. */
  function Step(f: Fields, key: string, value: string, parseNum: string -> Option<real>): (r: Fields)
    ensures key !in Keys ==> r == f
    ensures key == "data" ==> r == f.(values := Numbers(Split(value), parseNum))
    ensures key == "colors" ==> r == f.(colors := Some(Split(value)))
  {
    match key
    case "type" => f.(graphType := TypeOf(value))
    case "data" => f.(values := Numbers(Split(value), parseNum))
    case "labels" => f.(labels := Split(value))
    case "title" => f.(title := Some(value))
    case "x_label" => f.(xLabel := Some(value))
    case "y_label" => f.(yLabel := Some(value))
    case "colors" => f.(colors := Some(Split(value)))
    case _ => f
  }

  /** The pairs applied in order, from nothing set. */
  function Collect(pairs: seq<(string, string)>, parseNum: string -> Option<real>): Fields
    decreases |pairs|
  {
    if pairs == [] then Initial
    else
      var last := pairs[|pairs| - 1];
      Step(Collect(pairs[..|pairs| - 1], parseNum), last.0, last.1, parseNum)
  }

  /** Point `i` of the built series: the `i`th parsed value with the `i`th
      label and colour when those exist. */
  function PointAt(f: Fields, i: nat): (p: DataPoint)
    requires i < |f.values|
    ensures p.value == f.values[i]
    ensures p.caption == Get(f.labels, i)
    ensures f.colors.None? ==> p.color.None?
    ensures f.colors.Some? ==> p.color == Get(f.colors.value, i)
  {
    DataPoint(f.values[i], Get(f.labels, i), if f.colors.Some? then Get(f.colors.value, i) else None)
  }

  /** The request the fields describe: at most one series, unnamed, built
      from the parsed values. */
  function Build(f: Fields): (r: GraphRequest)
    ensures r.graphType == f.graphType && r.data == f.values
    ensures r.title == f.title && r.xLabel == f.xLabel && r.yLabel == f.yLabel && r.colors == f.colors
    ensures |r.series| == (if f.values == [] then 0 else 1)
    ensures r.series != [] ==> |r.series[0].data| == |f.values|
    ensures r.series != [] ==> forall i :: 0 <= i < |f.values| ==> r.series[0].data[i] == PointAt(f, i)
    ensures r.series != [] ==> r.series[0].name.None?
    ensures r.series != [] ==> r.series[0].color == (if f.colors.Some? then Get(f.colors.value, 0) else None)
  {
    var series := if f.values == [] then []
      else [Series(None, seq(|f.values|, i requires 0 <= i < |f.values| => PointAt(f, i)),
                   if f.colors.Some? then Get(f.colors.value, 0) else None)];
    GraphRequest(f.graphType, series, f.values, f.title, f.xLabel, f.yLabel, f.colors)
  }

  /** `parse_query_params`: never an error; the flat data and the one series'
      values are the same parsed numbers. */
  function ParseQueryParams(pairs: seq<(string, string)>, parseNum: string -> Option<real>): (r: GraphRequest)
    ensures r.series != [] ==> Values(r.series[0]) == r.data
    ensures r.series == [] <==> r.data == []
    ensures |r.series| <= 1
  {
    var f := Collect(pairs, parseNum);
    var r := Build(f);
    assert r.series != [] ==> Values(r.series[0]) == r.data by {
      if r.series != [] {
        assert forall i :: 0 <= i < |r.data| ==> Values(r.series[0])[i] == r.data[i];
      }
    }
    r
  }

  /** The last pair for a key decides its field: a `data` pair replaces
      every earlier one, and one of colours sets the series colour to its
      first piece. */
  lemma LastPairWins(pairs: seq<(string, string)>, value: string, parseNum: string -> Option<real>)
    ensures ParseQueryParams(pairs + [("data", value)], parseNum).data == Numbers(Split(value), parseNum)
    ensures ParseQueryParams(pairs + [("type", value)], parseNum).graphType == TypeOf(value)
    ensures ParseQueryParams(pairs + [("title", value)], parseNum).title == Some(value)
    ensures ParseQueryParams(pairs + [("colors", value)], parseNum).colors == Some(Split(value))
    ensures var r := ParseQueryParams(pairs + [("colors", value)], parseNum);
      r.series != [] ==> r.series[0].color == Some(Split(value)[0])
  {
    assert (pairs + [("data", value)])[..|pairs|] == pairs;
    assert (pairs + [("type", value)])[..|pairs|] == pairs;
    assert (pairs + [("title", value)])[..|pairs|] == pairs;
    assert (pairs + [("colors", value)])[..|pairs|] == pairs;
  }

  /** A pair with a key the query does not know changes nothing. */
  lemma UnknownKeyIgnored(pairs: seq<(string, string)>, key: string, value: string, parseNum: string -> Option<real>)
    requires key !in Keys
    ensures ParseQueryParams(pairs + [(key, value)], parseNum) == ParseQueryParams(pairs, parseNum)
  {
    assert (pairs + [(key, value)])[..|pairs|] == pairs;
  }

  /** A `data` value whose every piece parses gives one point per piece, in order. */
  lemma AllNumbersKept(pairs: seq<(string, string)>, value: string, parseNum: string -> Option<real>)
    requires forall j :: 0 <= j < |Split(value)| ==> parseNum(Split(value)[j]).Some?
    ensures var r := ParseQueryParams(pairs + [("data", value)], parseNum);
      |r.data| == |Split(value)| && |r.series| == 1 &&
      forall j :: 0 <= j < |r.data| ==> r.data[j] == parseNum(Split(value)[j]).value
  {
    LastPairWins(pairs, value, parseNum);
    NumbersAll(Split(value), parseNum);
  }

  /** What the handler answers before drawing: the request, or a 400 with
      "No data provided" when it has neither flat data nor series. */
  datatype Outcome = Accepted(req: GraphRequest) | Rejected(status: nat, message: string)

  function Admit(req: GraphRequest): (r: Outcome)
    ensures r.Rejected? <==> req.data == [] && req.series == []
    ensures r.Rejected? ==> r.status == 400 && r.message == "No data provided"
    ensures r.Accepted? ==> r.req == req
  {
    if req.data == [] && req.series == [] then Rejected(400, "No data provided") else Accepted(req)
  }

  /** A query is turned away exactly when the last `data` pair parsed no
      number, or there was none; an empty query always is. */
  lemma QueryRejection(pairs: seq<(string, string)>, parseNum: string -> Option<real>)
    ensures Admit(ParseQueryParams(pairs, parseNum)).Rejected? <==> Collect(pairs, parseNum).values == []
    ensures Admit(ParseQueryParams([], parseNum)).Rejected?
  {
  }

  /** Every query the handler admits carries exactly one series, holding
      the flat data point for point. So the flat-data-only requests, on which
      the series-only maximum of the line, area, scatter and radar charts
      differs from the maximum over the plotted rows, never come from a
      query, and neither does a bar chart of two or more series. */
  lemma AdmittedQueryHasSeries(pairs: seq<(string, string)>, parseNum: string -> Option<real>)
    requires Admit(ParseQueryParams(pairs, parseNum)).Accepted?
    ensures var r := ParseQueryParams(pairs, parseNum);
      |r.series| == 1 && Values(r.series[0]) == r.data && AsWrittenMax(r) == PlotMax(r)
  {
    PlotMaxAgrees(ParseQueryParams(pairs, parseNum));
  }
}
