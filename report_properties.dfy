/**
 * What the report shows: its page plan (including the pairing loop that
 * pairs P3 with a missing fourth phase), that every chart and every table
 * row reads the daily peaks of `dates` in order, and that the all-time
 * block shows every channel.
 */
module ReportProperties {
  import opened Wrappers
  import opened ReadingRecord
  import opened PeakAggregation
  import opened Report

  function PageCharts(p: Page): seq<Chart> {
    match p
    case PairPage(_, _, _, left, right) => [left, right]
    case SinglePage(c) => [c]
    case _ => []
  }

  /** A chart is labelled by `dates` and its i-th point is the peak of its channel on `dates[i]` (undefined without a channel). */
  ghost predicate PlotsDailyPeaks(c: Chart, dates: seq<DayKey>, daily: map<DayKey, Peaks>)
    requires Covers(dates, daily)
  {
    && c.labels == dates
    && |c.data| == |dates|
    && forall i :: 0 <= i < |dates| ==>
         c.data[i] == match TitleChannel(c.title)
                      case Some(ch) => Some(daily[dates[i]].Get(ch))
                      case None => None
  }

  ghost predicate PagesPlotDailyPeaks(pages: seq<Page>, dates: seq<DayKey>, daily: map<DayKey, Peaks>)
    requires Covers(dates, daily)
  {
    forall p, c :: p in pages && c in PageCharts(p) ==> PlotsDailyPeaks(c, dates, daily)
  }

  lemma MakeChartPlots(dates: seq<DayKey>, daily: map<DayKey, Peaks>, t: ChartTitle, color: Color)
    requires Covers(dates, daily)
    ensures PlotsDailyPeaks(MakeChart(dates, daily, t, color), dates, daily)
  {
  }

  lemma {:induction false} PairPagesPlot(q: Quantity, color: Color, i: nat, dates: seq<DayKey>, daily: map<DayKey, Peaks>)
    requires Covers(dates, daily)
    ensures PagesPlotDailyPeaks(PairPages(q, color, i, dates, daily), dates, daily)
    decreases |Phases| - i
  {
    if i < |Phases| {
      MakeChartPlots(dates, daily, PhaseTitle(q, PhaseAt(i)), color);
      MakeChartPlots(dates, daily, PhaseTitle(q, PhaseAt(i + 1)), color);
      PairPagesPlot(q, color, i + 2, dates, daily);
    }
  }

  lemma {:induction false} ChartPagesPlot(defs: seq<(Quantity, Color)>, dates: seq<DayKey>, daily: map<DayKey, Peaks>)
    requires Covers(dates, daily)
    ensures PagesPlotDailyPeaks(ChartPages(defs, dates, daily), dates, daily)
    decreases |defs|
  {
    if defs != [] {
      var last := defs[|defs| - 1];
      ChartPagesPlot(defs[..|defs| - 1], dates, daily);
      PairPagesPlot(last.0, last.1, 0, dates, daily);
      MakeChartPlots(dates, daily, PhaseTitle(last.0, Some(Phases[2])), last.1);
    }
  }

  lemma {:induction false} LinePagesPlot(defs: seq<(Line, Color)>, dates: seq<DayKey>, daily: map<DayKey, Peaks>)
    requires Covers(dates, daily)
    ensures PagesPlotDailyPeaks(LinePages(defs, dates, daily), dates, daily)
    decreases |defs|
  {
    if defs != [] {
      var last := defs[|defs| - 1];
      LinePagesPlot(defs[..|defs| - 1], dates, daily);
      MakeChartPlots(dates, daily, LineTitle(last.0), last.1);
    }
  }

  /**
   * Every chart of the report has exactly `dates.length` points, labelled by
   * `dates`, and point i is the peak of the chart's channel on `dates[i]`.
   */
  lemma ChartsPlotDailyPeaks(dates: seq<DayKey>, daily: map<DayKey, Peaks>, allTime: Peaks)
    requires Covers(dates, daily)
    ensures PagesPlotDailyPeaks(ReportPages(dates, daily, allTime), dates, daily)
  {
    ChartPagesPlot(ChartDefs, dates, daily);
    LinePagesPlot(LineDefs, dates, daily);
  }

  /**
   * The three pages of one quantity: P1 paired with P2, P3 paired with the
   * missing `phases[3]` (a chart of undefined points), then P3 alone.
   */
  ghost predicate QuantityPlan(pages: seq<Page>, q: Quantity, dates: seq<DayKey>)
  {
    && |pages| == 3
    && pages[0].PairPage? && pages[0].quantity == q && pages[0].first == Some(P1) && pages[0].second == Some(P2)
    && pages[1].PairPage? && pages[1].quantity == q && pages[1].first == Some(P3) && pages[1].second == None
    && pages[1].right.data == seq(|dates|, _ => None)
    && pages[2].SinglePage? && pages[2].chart.title == PhaseTitle(q, Some(P3))
  }

  lemma QuantityPagesPlan(q: Quantity, color: Color, dates: seq<DayKey>, daily: map<DayKey, Peaks>)
    requires Covers(dates, daily)
    ensures QuantityPlan(QuantityPages(q, color, dates, daily), q, dates)
  {
    assert PairPages(q, color, 4, dates, daily) == [];
    assert PairPages(q, color, 2, dates, daily)[0].right.data == seq(|dates|, _ => None);
  }

  lemma ChartPagesUnfold(dates: seq<DayKey>, daily: map<DayKey, Peaks>)
    requires Covers(dates, daily)
    ensures ChartPages(ChartDefs, dates, daily)
         == QuantityPages(Voltage, Blue, dates, daily) + QuantityPages(Current, Green, dates, daily) + QuantityPages(Power, Red, dates, daily)
  {
    var v, c, w := QuantityPages(Voltage, Blue, dates, daily), QuantityPages(Current, Green, dates, daily), QuantityPages(Power, Red, dates, daily);
    assert ChartDefs[..1][..0] == [] && ChartDefs[..1][0] == (Voltage, Blue);
    assert ChartPages(ChartDefs[..1], dates, daily) == v;
    assert ChartDefs[..2][..1] == ChartDefs[..1] && ChartDefs[..2][1] == (Current, Green);
    assert ChartPages(ChartDefs[..2], dates, daily) == v + c;
    assert ChartDefs[..2] == ChartDefs[..|ChartDefs| - 1] && ChartDefs[2] == (Power, Red);
  }

  lemma LinePagesUnfold(dates: seq<DayKey>, daily: map<DayKey, Peaks>)
    requires Covers(dates, daily)
    ensures LinePages(LineDefs, dates, daily)
         == [SinglePage(MakeChart(dates, daily, LineTitle(L1L2), Purple)),
             SinglePage(MakeChart(dates, daily, LineTitle(L1L3), Orange)),
             SinglePage(MakeChart(dates, daily, LineTitle(L2L3), Teal))]
  {
    var a, b, c := MakeChart(dates, daily, LineTitle(L1L2), Purple), MakeChart(dates, daily, LineTitle(L1L3), Orange), MakeChart(dates, daily, LineTitle(L2L3), Teal);
    assert LineDefs[..1][..0] == [] && LineDefs[..1][0] == (L1L2, Purple);
    assert LinePages(LineDefs[..1], dates, daily) == [SinglePage(a)];
    assert LineDefs[..2][..1] == LineDefs[..1] && LineDefs[..2][1] == (L1L3, Orange);
    assert LinePages(LineDefs[..2], dates, daily) == [SinglePage(a), SinglePage(b)];
    assert LineDefs[..2] == LineDefs[..|LineDefs| - 1] && LineDefs[2] == (L2L3, Teal);
  }

  /**
   * The page plan: the title page; three pages each for voltage, current
   * and power (so P3 is charted twice per quantity); one page per line
   * voltage; the daily table; the all-time block.
   */
  lemma ReportLayout(dates: seq<DayKey>, daily: map<DayKey, Peaks>, allTime: Peaks)
    requires Covers(dates, daily)
    ensures var pages := ReportPages(dates, daily, allTime);
      && |pages| == 15
      && pages[0] == TitlePage
      && (forall k :: 0 <= k < 3 ==> QuantityPlan(pages[1 + 3 * k..4 + 3 * k], ChartDefs[k].0, dates))
      && (forall l :: 0 <= l < 3 ==> pages[10 + l].SinglePage? && pages[10 + l].chart.title == LineTitle(LineDefs[l].0))
      && pages[13] == DailyTable(DailyRows(dates, daily))
      && pages[14] == AllTimeTable(AllTimeLines(allTime))
  {
    var pages := ReportPages(dates, daily, allTime);
    var v, c, w := QuantityPages(Voltage, Blue, dates, daily), QuantityPages(Current, Green, dates, daily), QuantityPages(Power, Red, dates, daily);
    ChartPagesUnfold(dates, daily);
    LinePagesUnfold(dates, daily);
    QuantityPagesPlan(Voltage, Blue, dates, daily);
    QuantityPagesPlan(Current, Green, dates, daily);
    QuantityPagesPlan(Power, Red, dates, daily);
    assert pages[1..4] == v && pages[4..7] == c && pages[7..10] == w;
  }

  /**
   * The daily table has one row per entry of `dates`, in order, and column j
   * of a row is the day's peak of the header's j-th channel.
   */
  lemma DailyTableShowsDailyPeaks(dates: seq<DayKey>, daily: map<DayKey, Peaks>)
    requires Covers(dates, daily)
    ensures |DailyRows(dates, daily)| == |dates|
    ensures forall i :: 0 <= i < |dates| ==>
              var row := DailyRows(dates, daily)[i];
              row.date == dates[i] && |row.values| == |TableColumns|
              && forall j :: 0 <= j < |TableColumns| ==> row.values[j] == daily[dates[i]].Get(TableColumns[j])
  {
  }

  /** The value an all-time line prints for a channel, if it prints that channel. */
  function Shown(line: AllTimeLine, ch: Channel): Option<real> {
    match (line, ch)
    case (PhaseSummary(p, v, _, _), PhaseChannel(Voltage, p')) => if p == p' then Some(v) else None
    case (PhaseSummary(p, _, c, _), PhaseChannel(Current, p')) => if p == p' then Some(c) else None
    case (PhaseSummary(p, _, _, w), PhaseChannel(Power, p')) => if p == p' then Some(w) else None
    case (LineSummary(l, v), LineChannel(l')) => if l == l' then Some(v) else None
    case _ => None
  }

  /** The all-time block prints every channel exactly once, with its all-time peak. */
  lemma AllTimeBlockShowsEveryChannel(allTime: Peaks, ch: Channel)
    ensures var lines := AllTimeLines(allTime);
      && (exists n :: 0 <= n < |lines| && Shown(lines[n], ch) == Some(allTime.Get(ch)))
      && forall n, m :: 0 <= n < m < |lines| ==> Shown(lines[n], ch).None? || Shown(lines[m], ch).None?
  {
    var lines := AllTimeLines(allTime);
    match ch
    case PhaseChannel(_, p) =>
      assert Shown(lines[PhaseIndex(p)], ch) == Some(allTime.Get(ch));
    case LineChannel(L1L2) =>
      assert Shown(lines[3], ch) == Some(allTime.Get(ch));
    case LineChannel(L1L3) =>
      assert Shown(lines[4], ch) == Some(allTime.Get(ch));
    case LineChannel(L2L3) =>
      assert Shown(lines[5], ch) == Some(allTime.Get(ch));
  }
}
