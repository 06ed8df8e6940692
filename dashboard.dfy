/*
 * The dashboard's token-usage chart: its filter state, the request it
 * sends, and the data it derives from the answer — the day range, the
 * series of token types, the day-by-type count matrix, the largest count
 * and the axis steps. Days are integer day numbers.
 */
module Dashboard {
  import opened JsValues
  import opened Seqs
  import opened Strings
  import MultiSelect

  /** One row of the chart data: a count for a day and a token type. */
  datatype ChartEntry = ChartEntry(date: int, tokenType: string, count: int)

  datatype ChartResponse = Failure | Reply(success: bool, chartData: Option<seq<ChartEntry>>)

  // ---------------------------------------------------------------------
  // Request

  /** The request parameters of a chart query: the date bounds always, a
      selection only when it is not empty, joined with commas. */
  method BuildChartFilters(startDate: string, endDate: string, sH: seq<string>, sT: seq<string>, sE: seq<string>)
    returns (filters: map<string, string>)
    ensures "start_date" in filters && filters["start_date"] == startDate
    ensures "end_date" in filters && filters["end_date"] == endDate
    ensures "house_ids" in filters <==> sH != []
    ensures "token_types" in filters <==> sT != []
    ensures "event_types" in filters <==> sE != []
    ensures "house_ids" in filters ==> filters["house_ids"] == Join(sH, ",")
    ensures "token_types" in filters ==> filters["token_types"] == Join(sT, ",")
    ensures "event_types" in filters ==> filters["event_types"] == Join(sE, ",")
    ensures filters.Keys <= {"start_date", "end_date", "house_ids", "token_types", "event_types"}
  {
    filters := map["start_date" := startDate, "end_date" := endDate];
    if |sH| > 0 {
      filters := filters["house_ids" := Join(sH, ",")];
    }
    if |sT| > 0 {
      filters := filters["token_types" := Join(sT, ",")];
    }
    if |sE| > 0 {
      filters := filters["event_types" := Join(sE, ",")];
    }
  }

  /** A comma-joined selection whose values hold no comma is read back as
      the same list by splitting it. */
  lemma SelectionParameterRoundTrip(sel: seq<string>)
    requires sel != []
    requires forall i :: 0 <= i < |sel| ==> ',' !in sel[i]
    ensures Split(Join(sel, ","), ',') == sel
  {
    SplitJoin(sel, ',');
  }

  // ---------------------------------------------------------------------
  // Derived chart data

  /** `buildDateRange`: every day from `start` to `end`, ascending; no day
      when a bound is invalid or the range is reversed. */
  method BuildDateRange(start: Option<int>, end: Option<int>) returns (dates: seq<int>)
    ensures start.None? || end.None? || start.value > end.value ==> dates == []
    ensures start.Some? && end.Some? && start.value <= end.value ==>
              |dates| == end.value - start.value + 1
              && forall i :: 0 <= i < |dates| ==> dates[i] == start.value + i
  {
    dates := [];
    if start.None? || end.None? || start.value > end.value {
      return;
    }
    var d := start.value;
    while d <= end.value
      invariant start.value <= d <= end.value + 1
      invariant |dates| == d - start.value
      invariant forall i :: 0 <= i < |dates| ==> dates[i] == start.value + i
      decreases end.value - d
    {
      dates := dates + [d];
      d := d + 1;
    }
  }

  /** Every day from `start` to `end`, both included. */
  function DayRange(start: int, end: int): seq<int>
    requires start <= end
  {
    seq(end - start + 1, i => start + i)
  }

  /** A range listed day by day is the sequence of its days. */
  lemma DaysOfRange(dates: seq<int>, start: int, end: int)
    requires start <= end && |dates| == end - start + 1
    requires forall i :: 0 <= i < |dates| ==> dates[i] == start + i
    ensures dates == DayRange(start, end)
  {
  }

  function TokenTypesOf(data: seq<ChartEntry>): (ts: seq<string>)
    ensures |ts| == |data|
    ensures forall k :: 0 <= k < |data| ==> ts[k] == data[k].tokenType
  {
    seq(|data|, k requires 0 <= k < |data| => data[k].tokenType)
  }

  function Identity(s: string): string {
    s
  }

  /** The series: the distinct token types of the data, in ascending order. */
  function Series(data: seq<ChartEntry>): (r: seq<string>)
    ensures forall i, j :: 0 <= i < j < |r| ==> StrLe(r[i], r[j]) && r[i] != r[j]
    ensures forall t :: t in r <==> exists k :: 0 <= k < |data| && data[k].tokenType == t
  {
    var distinct := Dedup(TokenTypesOf(data));
    var r := SortBy(distinct, Identity, false);
    SeriesOrdered(distinct, r);
    SeriesMembers(data, distinct, r);
    r
  }

  lemma SeriesOrdered(distinct: seq<string>, r: seq<string>)
    requires NoDuplicates(distinct) && multiset(r) == multiset(distinct)
    requires SortedBy(r, Identity, false)
    ensures forall i, j :: 0 <= i < j < |r| ==> StrLe(r[i], r[j]) && r[i] != r[j]
  {
    NoDuplicatesPermutation(distinct, r);
    forall i, j | 0 <= i < j < |r| ensures StrLe(r[i], r[j]) {
      assert InOrder(Identity(r[i]), Identity(r[j]), false);
    }
  }

  lemma SeriesMembers(data: seq<ChartEntry>, distinct: seq<string>, r: seq<string>)
    requires distinct == Dedup(TokenTypesOf(data)) && multiset(r) == multiset(distinct)
    ensures forall t :: t in r <==> exists k :: 0 <= k < |data| && data[k].tokenType == t
  {
    var ts := TokenTypesOf(data);
    forall t ensures t in r <==> exists k :: 0 <= k < |data| && data[k].tokenType == t {
      assert t in r <==> t in multiset(distinct);
      if t in distinct {
        var i :| 0 <= i < |distinct| && distinct[i] == t;
        assert distinct[i] in ts;
      }
      if exists k :: 0 <= k < |data| && data[k].tokenType == t {
        var k :| 0 <= k < |data| && data[k].tokenType == t;
        assert ts[k] in distinct;
      }
    }
  }

  /** The chart has a series exactly when it has data. */
  lemma NoSeriesNoData(data: seq<ChartEntry>)
    ensures Series(data) == [] <==> data == []
  {
    if data != [] {
      assert data[0].tokenType in Series(data);
    }
  }

  /** The count matrix as the chart fills it: entries for days outside the
      range are ignored, and a later entry for the same day and type
      replaces an earlier one. */
  function MatrixOf(dates: seq<int>, data: seq<ChartEntry>): map<(int, string), int>
    decreases |data|
  {
    if data == [] then map[]
    else
      var m := MatrixOf(dates, data[..|data| - 1]);
      var e := data[|data| - 1];
      if e.date in dates then m[(e.date, e.tokenType) := e.count] else m
  }

  /** Fills the matrix entry by entry. */
  method BuildMatrix(dates: seq<int>, data: seq<ChartEntry>) returns (m: map<(int, string), int>)
    ensures m == MatrixOf(dates, data)
  {
    m := map[];
    for k := 0 to |data|
      invariant m == MatrixOf(dates, data[..k])
    {
      assert data[..k + 1][..k] == data[..k];
      var e := data[k];
      if e.date in dates {
        m := m[(e.date, e.tokenType) := e.count];
      }
    }
    assert data[..|data|] == data;
  }

  /** A cell is filled exactly when some entry for an in-range day names
      it, and then holds the count of the last such entry. */
  lemma {:induction false} MatrixLastWins(dates: seq<int>, data: seq<ChartEntry>, d: int, t: string)
    ensures (d, t) in MatrixOf(dates, data) <==> d in dates && exists k :: 0 <= k < |data| && data[k].date == d && data[k].tokenType == t
    ensures (d, t) in MatrixOf(dates, data) ==>
              exists k :: 0 <= k < |data| && data[k].date == d && data[k].tokenType == t
                && MatrixOf(dates, data)[(d, t)] == data[k].count
                && forall k' :: k < k' < |data| ==> !(data[k'].date == d && data[k'].tokenType == t)
    decreases |data|
  {
    if data != [] {
      var init := data[..|data| - 1];
      MatrixLastWins(dates, init, d, t);
      var e := data[|data| - 1];
      assert forall k :: 0 <= k < |init| ==> init[k] == data[k];
      if (d, t) in MatrixOf(dates, init) && !(e.date == d && e.tokenType == t) {
        var k :| 0 <= k < |init| && init[k].date == d && init[k].tokenType == t
          && MatrixOf(dates, init)[(d, t)] == init[k].count
          && forall k' :: k < k' < |init| ==> !(init[k'].date == d && init[k'].tokenType == t);
        assert forall k' :: k < k' < |data| ==> !(data[k'].date == d && data[k'].tokenType == t) by {
          forall k' | k < k' < |data| ensures !(data[k'].date == d && data[k'].tokenType == t) {
            if k' < |init| {
              assert data[k'] == init[k'];
            }
          }
        }
      }
    }
  }

  /** `matrix[d][s] || 0`. */
  function Cell(m: map<(int, string), int>, d: int, s: string): int {
    if (d, s) in m then m[(d, s)] else 0
  }

  /** The largest count over the days and series, or 1 when no count is
      positive. */
  method MaxVal(dates: seq<int>, series: seq<string>, m: map<(int, string), int>) returns (r: int)
    ensures r >= 1
    ensures forall i, j :: 0 <= i < |dates| && 0 <= j < |series| ==> Cell(m, dates[i], series[j]) <= r
    ensures (exists i, j :: 0 <= i < |dates| && 0 <= j < |series| && Cell(m, dates[i], series[j]) > 0) ==>
              exists i, j :: 0 <= i < |dates| && 0 <= j < |series| && Cell(m, dates[i], series[j]) == r
    ensures (forall i, j :: 0 <= i < |dates| && 0 <= j < |series| ==> Cell(m, dates[i], series[j]) <= 0) ==> r == 1
  {
    var maxVal := 0;
    for i := 0 to |dates|
      invariant maxVal >= 0
      invariant forall i', j :: 0 <= i' < i && 0 <= j < |series| ==> Cell(m, dates[i'], series[j]) <= maxVal
      invariant maxVal > 0 ==> exists i', j :: 0 <= i' < i && 0 <= j < |series| && Cell(m, dates[i'], series[j]) == maxVal
    {
      for j := 0 to |series|
        invariant maxVal >= 0
        invariant forall i', j' :: 0 <= i' < i && 0 <= j' < |series| ==> Cell(m, dates[i'], series[j']) <= maxVal
        invariant forall j' :: 0 <= j' < j ==> Cell(m, dates[i], series[j']) <= maxVal
        invariant maxVal > 0 ==> exists i', j' :: 0 <= i' <= i && 0 <= j' < |series| && Cell(m, dates[i'], series[j']) == maxVal
      {
        var v := Cell(m, dates[i], series[j]);
        if v > maxVal {
          maxVal := v;
        }
      }
    }
    if maxVal == 0 {
      maxVal := 1;
    }
    return maxVal;
  }

  /** The axis steps for a tick of at least 1: multiples of the tick from
      0, ending at the first one that reaches `maxVal`. */
  method NiceSteps(maxVal: int, tick: int) returns (steps: seq<int>)
    requires tick >= 1
    ensures maxVal < 0 ==> steps == []
    ensures maxVal >= 0 ==> |steps| >= 1 && steps[|steps| - 1] >= maxVal
    ensures |steps| >= 2 ==> steps[|steps| - 2] < maxVal
    ensures forall i :: 0 <= i < |steps| ==> steps[i] == i * tick
  {
    steps := [];
    var v := 0;
    while v <= maxVal
      invariant v == |steps| * tick
      invariant forall i :: 0 <= i < |steps| ==> steps[i] == i * tick
      invariant forall i :: 0 <= i < |steps| ==> steps[i] <= maxVal
      decreases maxVal - v + tick
    {
      NextMultiple(|steps|, tick);
      steps := steps + [v];
      v := v + tick;
    }
    if |steps| > 0 && steps[|steps| - 1] < maxVal {
      NextMultiple(|steps| - 1, tick);
      steps := steps + [steps[|steps| - 1] + tick];
    } else if |steps| >= 2 {
      NextMultiple(|steps| - 2, tick);
    }
  }

  lemma NextMultiple(n: int, tick: int)
    ensures (n + 1) * tick == n * tick + tick
  {
  }

  /** What the chart draws: the days, the series, the counts and the top
      of the scale. */
  datatype Chart = Chart(dates: seq<int>, series: seq<string>, matrix: map<(int, string), int>, maxVal: int)

  /** The y scale reaches every bar of the chart. */
  predicate ScaleFits(c: Chart) {
    forall i, j :: 0 <= i < |c.dates| && 0 <= j < |c.series| ==> Cell(c.matrix, c.dates[i], c.series[j]) <= c.maxVal
  }

  /** The top of the scale is the largest cell when some cell is
      positive, and 1 when none is. */
  predicate ScaleAttained(c: Chart) {
    && ((exists i, j :: 0 <= i < |c.dates| && 0 <= j < |c.series| && Cell(c.matrix, c.dates[i], c.series[j]) > 0) ==>
          exists i, j :: 0 <= i < |c.dates| && 0 <= j < |c.series| && Cell(c.matrix, c.dates[i], c.series[j]) == c.maxVal)
    && ((forall i, j :: 0 <= i < |c.dates| && 0 <= j < |c.series| ==> Cell(c.matrix, c.dates[i], c.series[j]) <= 0) ==>
          c.maxVal == 1)
  }

  /** The bars for a non-empty range: the series, the filled matrix and the
      y maximum. */
  method DrawBars(dates: seq<int>, data: seq<ChartEntry>) returns (c: Chart)
    ensures c.dates == dates && c.series == Series(data) && c.matrix == MatrixOf(dates, data)
    ensures c.maxVal >= 1 && ScaleFits(c) && ScaleAttained(c)
  {
    var series := Series(data);
    var matrix := BuildMatrix(dates, data);
    var maxVal := MaxVal(dates, series, matrix);
    c := Chart(dates, series, matrix, maxVal);
  }

  /** The canvas after a render: left blank when the range has no day, the
      "no data" message when the data has no token type, or the bars. */
  datatype Drawing = Blank | EmptyState | Bars(chart: Chart)

  /** The dropdowns of the chart filters. */
  datatype ChartDim = HouseDim | TokenDim | EventDim

  class DashboardView {
    var chartData: seq<ChartEntry>
    var selectedHouses: seq<string>
    var selectedTokenTypes: seq<string>
    var selectedEventTypes: seq<string>
    /** The date fields' text. */
    var startDate: string
    var endDate: string

    /** The initial filter state: granted accesses only, every house and
        token type, empty date fields. */
    constructor()
      ensures chartData == [] && selectedHouses == [] && selectedTokenTypes == []
      ensures selectedEventTypes == ["ACCESS_GRANTED"]
      ensures startDate == "" && endDate == ""
    {
      chartData := [];
      selectedHouses := [];
      selectedTokenTypes := [];
      selectedEventTypes := ["ACCESS_GRANTED"];
      startDate := "";
      endDate := "";
    }

    /** A checkbox change stores that dropdown's normalised selection. */
    method OnChange(dim: ChartDim, options: seq<string>, flags: seq<bool>)
      requires |flags| == |options|
      modifies this`selectedHouses, this`selectedTokenTypes, this`selectedEventTypes
      ensures selectedHouses == (if dim == HouseDim then MultiSelect.Normalise(options, flags) else old(selectedHouses))
      ensures selectedTokenTypes == (if dim == TokenDim then MultiSelect.Normalise(options, flags) else old(selectedTokenTypes))
      ensures selectedEventTypes == (if dim == EventDim then MultiSelect.Normalise(options, flags) else old(selectedEventTypes))
    {
      var checked := MultiSelect.Checked(options, flags);
      var sel := if |checked| == |options| then [] else checked;
      match dim {
        case HouseDim => selectedHouses := sel;
        case TokenDim => selectedTokenTypes := sel;
        case EventDim => selectedEventTypes := sel;
      }
    }

    /** Queries the chart with the current filters; a successful answer
        replaces the data (with nothing when it carries no list), any other
        answer leaves it as it was. */
    method LoadChartData(resp: ChartResponse) returns (filters: map<string, string>)
      modifies this`chartData
      ensures "house_ids" in filters <==> selectedHouses != []
      ensures "token_types" in filters <==> selectedTokenTypes != []
      ensures "event_types" in filters <==> selectedEventTypes != []
      ensures "start_date" in filters && filters["start_date"] == startDate
      ensures "end_date" in filters && filters["end_date"] == endDate
      ensures "house_ids" in filters ==> filters["house_ids"] == Join(selectedHouses, ",")
      ensures "token_types" in filters ==> filters["token_types"] == Join(selectedTokenTypes, ",")
      ensures "event_types" in filters ==> filters["event_types"] == Join(selectedEventTypes, ",")
      ensures filters.Keys <= {"start_date", "end_date", "house_ids", "token_types", "event_types"}
      ensures resp.Reply? && resp.success ==> chartData == resp.chartData.GetOr([])
      ensures !(resp.Reply? && resp.success) ==> chartData == old(chartData)
    {
      filters := BuildChartFilters(startDate, endDate, selectedHouses, selectedTokenTypes, selectedEventTypes);
      if resp.Reply? && resp.success {
        chartData := resp.chartData.GetOr([]);
      }
    }

    /** Draws the current data. `parseDay` reads a date field as a day
        number, or fails on text that is not a date. */
    method RenderChart(parseDay: string -> Option<int>) returns (d: Drawing)
      ensures var start, end := parseDay(startDate), parseDay(endDate);
              d.Blank? <==> start.None? || end.None? || start.value > end.value
      ensures d.EmptyState? <==> !d.Blank? && chartData == []
      ensures var start, end := parseDay(startDate), parseDay(endDate);
              d.Bars? ==> d.chart.dates == DayRange(start.value, end.value)
      ensures d.Bars? ==> d.chart.series == Series(chartData) && d.chart.matrix == MatrixOf(d.chart.dates, chartData)
      ensures d.Bars? ==> d.chart.maxVal >= 1 && ScaleFits(d.chart) && ScaleAttained(d.chart)
    {
      var start, end := parseDay(startDate), parseDay(endDate);
      var dates := BuildDateRange(start, end);
      if |dates| == 0 {
        return Blank;
      }
      DaysOfRange(dates, start.value, end.value);
      if |Series(chartData)| == 0 {
        NoSeriesNoData(chartData);
        return EmptyState;
      }
      var chart := DrawBars(dates, chartData);
      d := Bars(chart);
    }
  }
}
