/**
 * The report half of the download route: the chart pages, the daily peaks
 * table and the all-time block built from an aggregation result, and the
 * route itself (404 on no readings, otherwise aggregate then render).
 */
module Report {
  import opened Wrappers
  import opened ReadingRecord
  import opened PeakAggregation

  datatype Color = Blue | Green | Red | Purple | Orange | Teal

  /** A chart label: `Voltage P1`, `Power undefined` (a missing phase) or `Voltage L1–L2`. */
  datatype ChartTitle = PhaseTitle(quantity: Quantity, phase: Option<Phase>) | LineTitle(line: Line)

  /** The arguments of one `generateLineChart` call; a value read through a missing phase is `undefined`. */
  datatype Chart = Chart(title: ChartTitle, color: Color, labels: seq<DayKey>, data: seq<Option<real>>)

  /** One row of the daily table: the date and twelve values in the header's column order. */
  datatype Row = Row(date: DayKey, values: seq<real>)

  /** One line of the all-time block. */
  datatype AllTimeLine = PhaseSummary(phase: Phase, voltage: real, current: real, power: real) | LineSummary(line: Line, voltage: real)

  datatype Page =
    | TitlePage
    | PairPage(quantity: Quantity, first: Option<Phase>, second: Option<Phase>, left: Chart, right: Chart)
    | SinglePage(chart: Chart)
    | DailyTable(rows: seq<Row>)
    | AllTimeTable(lines: seq<AllTimeLine>)

  datatype Response = NotFound(message: string) | Pdf(pages: seq<Page>)

  const NoReadingsMessage: string := "No readings found in the last 30 days"

  /** `chartDefs`: the per-phase quantities and their colours, in page order. */
  const ChartDefs: seq<(Quantity, Color)> := [(Voltage, Blue), (Current, Green), (Power, Red)]

  /** `lineData`: the line-to-line voltages and their colours, in page order. */
  const LineDefs: seq<(Line, Color)> := [(L1L2, Purple), (L1L3, Orange), (L2L3, Teal)]

  /** The channels of the daily table's header: V(P1) A(P1) W(P1) || ... || L1L2 L1L3 L2L3. */
  const TableColumns: seq<Channel> := [
    PhaseChannel(Voltage, P1), PhaseChannel(Current, P1), PhaseChannel(Power, P1),
    PhaseChannel(Voltage, P2), PhaseChannel(Current, P2), PhaseChannel(Power, P2),
    PhaseChannel(Voltage, P3), PhaseChannel(Current, P3), PhaseChannel(Power, P3),
    LineChannel(L1L2), LineChannel(L1L3), LineChannel(L2L3)]

  predicate Covers(dates: seq<DayKey>, daily: map<DayKey, Peaks>) {
    forall d :: d in dates ==> d in daily
  }

  /** The channel a chart plots, if its title names one. */
  function TitleChannel(t: ChartTitle): Option<Channel> {
    match t
    case PhaseTitle(q, Some(p)) => Some(PhaseChannel(q, p))
    case PhaseTitle(_, None) => None
    case LineTitle(l) => Some(LineChannel(l))
  }

  /** `dates.map(d => dailyPeaks[d][field][phase])` (or `[key]` for a line). */
  function Series(dates: seq<DayKey>, daily: map<DayKey, Peaks>, t: ChartTitle): seq<Option<real>>
    requires Covers(dates, daily)
  {
    seq(|dates|, i requires 0 <= i < |dates| =>
      match TitleChannel(t)
      case Some(ch) => Some(daily[dates[i]].Get(ch))
      case None => None)
  }

  function MakeChart(dates: seq<DayKey>, daily: map<DayKey, Peaks>, t: ChartTitle, color: Color): Chart
    requires Covers(dates, daily)
  {
    Chart(t, color, dates, Series(dates, daily, t))
  }

  /** The pages of the pairing loop `for (i = i0; i < phases.length; i += 2)` for one quantity. */
  function PairPages(q: Quantity, color: Color, i: nat, dates: seq<DayKey>, daily: map<DayKey, Peaks>): seq<Page>
    requires Covers(dates, daily)
    decreases |Phases| - i
  {
    if i >= |Phases| then []
    else
      [PairPage(q, PhaseAt(i), PhaseAt(i + 1),
                MakeChart(dates, daily, PhaseTitle(q, PhaseAt(i)), color),
                MakeChart(dates, daily, PhaseTitle(q, PhaseAt(i + 1)), color))]
      + PairPages(q, color, i + 2, dates, daily)
  }

  /** All pages for one quantity: the pairs, then the third phase on a page of its own. */
  function QuantityPages(q: Quantity, color: Color, dates: seq<DayKey>, daily: map<DayKey, Peaks>): seq<Page>
    requires Covers(dates, daily)
  {
    PairPages(q, color, 0, dates, daily) + [SinglePage(MakeChart(dates, daily, PhaseTitle(q, Some(Phases[2])), color))]
  }

  function ChartPages(defs: seq<(Quantity, Color)>, dates: seq<DayKey>, daily: map<DayKey, Peaks>): seq<Page>
    requires Covers(dates, daily)
    decreases |defs|
  {
    if defs == [] then []
    else
      var last := defs[|defs| - 1];
      ChartPages(defs[..|defs| - 1], dates, daily) + QuantityPages(last.0, last.1, dates, daily)
  }

  function LinePages(defs: seq<(Line, Color)>, dates: seq<DayKey>, daily: map<DayKey, Peaks>): seq<Page>
    requires Covers(dates, daily)
    decreases |defs|
  {
    if defs == [] then []
    else
      var last := defs[|defs| - 1];
      LinePages(defs[..|defs| - 1], dates, daily) + [SinglePage(MakeChart(dates, daily, LineTitle(last.0), last.1))]
  }

  /** One line of the daily table, fields in the order of the template string. */
  function TableRow(date: DayKey, d: Peaks): Row {
    Row(date, [d.voltage.p1, d.current.p1, d.power.p1,
               d.voltage.p2, d.current.p2, d.power.p2,
               d.voltage.p3, d.current.p3, d.power.p3,
               d.l1l2, d.l1l3, d.l2l3])
  }

  function DailyRows(dates: seq<DayKey>, daily: map<DayKey, Peaks>): seq<Row>
    requires Covers(dates, daily)
  {
    seq(|dates|, i requires 0 <= i < |dates| => TableRow(dates[i], daily[dates[i]]))
  }

  function PhaseSummaryOf(allTime: Peaks, p: Phase): AllTimeLine {
    PhaseSummary(p, allTime.voltage.At(p), allTime.current.At(p), allTime.power.At(p))
  }

  function AllTimeLines(allTime: Peaks): seq<AllTimeLine> {
    [PhaseSummaryOf(allTime, P1), PhaseSummaryOf(allTime, P2), PhaseSummaryOf(allTime, P3),
     LineSummary(L1L2, allTime.l1l2), LineSummary(L1L3, allTime.l1l3), LineSummary(L2L3, allTime.l2l3)]
  }

  /** The whole document, page by page. */
  function ReportPages(dates: seq<DayKey>, daily: map<DayKey, Peaks>, allTime: Peaks): seq<Page>
    requires Covers(dates, daily)
  {
    [TitlePage]
    + ChartPages(ChartDefs, dates, daily)
    + LinePages(LineDefs, dates, daily)
    + [DailyTable(DailyRows(dates, daily)), AllTimeTable(AllTimeLines(allTime))]
  }

  /** The per-phase chart section: for each quantity, the pairing loop and then the third phase alone. */
  method RenderPhaseCharts(dates: seq<DayKey>, daily: map<DayKey, Peaks>) returns (pages: seq<Page>)
    requires Covers(dates, daily)
    ensures pages == ChartPages(ChartDefs, dates, daily)
  {
    pages := [];
    for k := 0 to |ChartDefs|
      invariant pages == ChartPages(ChartDefs[..k], dates, daily)
    {
      var (field, color) := ChartDefs[k];
      assert ChartDefs[..k + 1][..k] == ChartDefs[..k];
      ghost var before := pages;
      var i := 0;
      while i < |Phases|
        invariant i == 0 || i == 2 || i == 4
        invariant pages + PairPages(field, color, i, dates, daily) == before + PairPages(field, color, 0, dates, daily)
        decreases |Phases| - i
      {
        var phase1, phase2 := PhaseAt(i), PhaseAt(i + 1);
        var chart1 := MakeChart(dates, daily, PhaseTitle(field, phase1), color);
        var chart2 := MakeChart(dates, daily, PhaseTitle(field, phase2), color);
        pages := pages + [PairPage(field, phase1, phase2, chart1, chart2)];
        i := i + 2;
      }
      assert PairPages(field, color, i, dates, daily) == [];
      assert pages == before + PairPages(field, color, 0, dates, daily);
      var chart3 := MakeChart(dates, daily, PhaseTitle(field, Some(Phases[2])), color);
      pages := pages + [SinglePage(chart3)];
    }
    assert ChartDefs[..|ChartDefs|] == ChartDefs;
  }

  /** The line-to-line voltage section: one chart page per line pair. */
  method RenderLineCharts(dates: seq<DayKey>, daily: map<DayKey, Peaks>) returns (pages: seq<Page>)
    requires Covers(dates, daily)
    ensures pages == LinePages(LineDefs, dates, daily)
  {
    pages := [];
    for k := 0 to |LineDefs|
      invariant pages == LinePages(LineDefs[..k], dates, daily)
    {
      var (key, color) := LineDefs[k];
      assert LineDefs[..k + 1][..k] == LineDefs[..k];
      pages := pages + [SinglePage(MakeChart(dates, daily, LineTitle(key), color))];
    }
    assert LineDefs[..|LineDefs|] == LineDefs;
  }

  /** The daily peaks table: one row per date, in `dates` order. */
  method RenderDailyRows(dates: seq<DayKey>, daily: map<DayKey, Peaks>) returns (rows: seq<Row>)
    requires Covers(dates, daily)
    ensures rows == DailyRows(dates, daily)
  {
    rows := [];
    for n := 0 to |dates|
      invariant |rows| == n
      invariant forall m :: 0 <= m < n ==> rows[m] == TableRow(dates[m], daily[dates[m]])
    {
      rows := rows + [TableRow(dates[n], daily[dates[n]])];
    }
  }

  /** The all-time block: one line per phase, then the three line voltages. */
  method RenderAllTime(allTime: Peaks) returns (lines: seq<AllTimeLine>)
    ensures lines == AllTimeLines(allTime)
  {
    lines := [];
    for n := 0 to |Phases|
      invariant lines == seq(n, m requires 0 <= m < n => PhaseSummaryOf(allTime, Phases[m]))
    {
      lines := lines + [PhaseSummaryOf(allTime, Phases[n])];
    }
    lines := lines + [LineSummary(L1L2, allTime.l1l2), LineSummary(L1L3, allTime.l1l3), LineSummary(L2L3, allTime.l2l3)];
  }

  /** The emission of the whole document, from the title page to the all-time block. */
  method RenderReport(dates: seq<DayKey>, daily: map<DayKey, Peaks>, allTime: Peaks) returns (pages: seq<Page>)
    requires Covers(dates, daily)
    ensures pages == ReportPages(dates, daily, allTime)
  {
    var phaseCharts := RenderPhaseCharts(dates, daily);
    var lineCharts := RenderLineCharts(dates, daily);
    var rows := RenderDailyRows(dates, daily);
    var lines := RenderAllTime(allTime);
    pages := [TitlePage] + phaseCharts + lineCharts + [DailyTable(rows), AllTimeTable(lines)];
  }

  /**
   * The `/download` handler once the readings of the last 30 days are
   * fetched: 404 with no aggregation when there are none, otherwise the
   * aggregated report.
   */
  method Download(readings: seq<Reading>, dayOf: Timestamp -> DayKey) returns (resp: Response)
    ensures |readings| == 0 <==> resp == NotFound(NoReadingsMessage)
    ensures |readings| > 0 ==>
              resp == Pdf(ReportPages(FirstSeenDays(readings, dayOf), DailyPeaks(readings, dayOf), PeaksOf(readings)))
  {
    if |readings| == 0 {
      return NotFound(NoReadingsMessage);
    }
    var dates, dailyPeaks, allTime := Aggregate(readings, dayOf);
    var pages := RenderReport(dates, dailyPeaks, allTime);
    resp := Pdf(pages);
  }
}
