# WattsWatch peak aggregation, in Dafny

WattsWatch stores electrical readings from a three-phase sensor. Each reading has a
timestamp and twelve optional numeric channels:

- voltage, current and power for each of phases P1, P2 and P3;
- the three line-to-line voltages L1L2, L1L3 and L2L3.

The server's `/download` route turns the readings of the last 30 days into a PDF
report. The live dashboard in the browser keeps a running map of peaks. This
project models both peak computations and proves what they compute.

Modules, leaves first:

- `Wrappers`: `Option`, standing for JavaScript's `undefined`/`null`.
- `Sequences`: the `NoDuplicates` predicate, for the distinct keys of `dates` and
  of the dashboard's field list.
- `ReadingRecord`: the reading record, its channels and the `phases` array. It is
  indexed as JavaScript indexes it, so `phases[3]` is `undefined`.
- `PeakAggregation`: the aggregation loop of the report route. It is written as
  imperative methods:
  - `Aggregate` is the loop over the readings;
  - `ObserveReading` is the loop body, including its inner loop over the phases.
  Each method is proved against specification functions that follow the loop's
  own order:
  - `PeaksOf` folds the readings into an accumulator;
  - `OnDay` gives the readings of one day;
  - `FirstSeenDays` gives the key order of `dailyPeaks`;
  - `DailyPeaks` gives the dictionary itself.
- `PeakAggregationProperties`: what an aggregation run means in terms of the readings.
  Peaks are maxima with a floor of 0. The keys are exactly the readings' days, in
  first-seen order. All-time peaks relate to the daily ones. The result ignores
  input order.
- `Report`: the report emission. The result is a sequence of page sections: the
  first page, then one section per `addPage` call. Some sections hold charts; each
  chart is given as the arguments of its chart-rendering call. Others hold the
  daily table and the all-time block. `Download` is the route
  after its database query: it answers 404 when there are no readings, and
  otherwise aggregates and renders.
- `ReportProperties`: the page plan, and the fact that every chart point and every
  table cell is the daily peak of its date.
- `Authentication`: the `authenticate` middleware. It takes the bearer token, then
  decides 401, 403 or success.
- `LiveDashboard` and `LiveDashboardProperties`: the dashboard's module-level
  state. It is a class with the `mode` toggle and the peak map that each refresh
  updates.

Notes on behaviour the model keeps from the code:

- The day key is taken from the reading's timestamp by a function passed in
  (`dayOf`). The code formats the timestamp with the default local time zone.
- `dates` and every chart series and table row follow the order in which days are
  first met. This is not ascending key order. The route's query returns the newest
  reading first, so the newest day comes first (`NewestDayFirst`). JavaScript keeps
  insertion order for these keys because `YYYY-MM-DD` is not an integer-like key.
- The pairing loop `for (i = 0; i < 3; i += 2)` makes, for each quantity, a page
  pairing P1 with P2. It also makes a page pairing P3 with `phases[3]`, which is
  `undefined`, so that chart's every point is undefined. A third page then charts
  P3 on its own. The model keeps all three pages (`ReportLayout`).
- Accumulators start at 0, so a channel whose values are all negative reports a
  peak of 0. The dashboard does the same on a field's first value.
- On the dashboard, a JSON `null` passes the `!isNaN` guard, because `null`
  converts to 0. It seeds the field's peak at 0. `parseFloat(null)` is NaN, which
  never compares greater, so it never raises the peak.

## Model

| member | source | states |
|---|---|---|
| `PeakAggregation.Observe` | server/routes/readings.js:116-132 | observing a reading sets every channel to the larger of its old peak and the reading's value, with absent values read as 0 |
| `PeakAggregation.RaisePhase` | server/routes/readings.js:117-125 | one pass of the per-phase loop raises exactly phase p's voltage, current and power to the larger of the old peak and the coalesced value, leaving every other channel as it was |
| `PeakAggregation.RaiseLines` | server/routes/readings.js:127-132 | the line-voltage statements raise exactly the three line channels, leaving every phase channel as it was |
| `PeakAggregation.ObserveReading` | server/routes/readings.js:116-132 | the loop body (the per-phase loop, then the three line voltages) raises the day's accumulator and the all-time accumulator exactly as `Observe` says |
| `PeakAggregation.DailyPeaksStep` | server/routes/readings.js:109-129 | one more reading changes only its own day's entry; a new day's entry starts at all zeros (`||=`) |
| `PeakAggregation.Aggregate` | server/routes/readings.js:99-135 | the loop yields `dates` = keys in first-seen order, `dailyPeaks` = each day's accumulator over that day's readings, and `allTime` = the accumulator over all readings |
| `PeakAggregationProperties.OnDayMembers` | server/routes/readings.js:108-110 | a day bucket holds exactly the readings whose timestamp maps to that day |
| `PeakAggregationProperties.FirstSeenDaysMembers` | server/routes/readings.js:110-135 | `dates` contains a key exactly when some reading falls on that day |
| `PeakAggregationProperties.FirstSeenDaysNoDuplicates` | server/routes/readings.js:110-135 | `dates` lists no day twice |
| `PeakAggregationProperties.FirstSeenOrder` | server/routes/readings.js:110-135 | if `dates[i]` precedes `dates[j]`, a reading of day `dates[i]` occurs before every reading of day `dates[j]` |
| `PeakAggregationProperties.NewestDayFirst` | server/routes/readings.js:87-135 | with readings sorted newest first, each listed day has a reading at least as new as every reading of any later-listed day |
| `PeakAggregationProperties.PeaksOfIsMax` | server/routes/readings.js:101-132 | each all-time channel is at least 0 and at least every reading's coalesced value, and equals 0 or one of those values |
| `PeakAggregationProperties.DailyPeakIsMax` | server/routes/readings.js:108-129 | each `dailyPeaks[key]` channel is the maximum of 0 and that channel's coalesced values over the readings of that day |
| `PeakAggregationProperties.AllTimeDominatesDaily` | server/routes/readings.js:101-132 | every all-time channel is at least that channel in every daily bucket |
| `PeakAggregationProperties.AllTimeIsMaxOfDaily` | server/routes/readings.js:101-132 | with at least one reading, every all-time channel equals that channel's peak on some day |
| `PeakAggregationProperties.PeakIgnoresOrder` | server/routes/readings.js:108-133 | a channel's peak depends only on which readings occur, not on their order or repetition |
| `PeakAggregationProperties.AggregationIgnoresOrder` | server/routes/readings.js:108-133 | any permutation of the readings gives the same `dailyPeaks`, the same set of days and the same `allTime`; only the order of `dates` can change |
| `Report.RenderPhaseCharts` | server/routes/readings.js:143-174 | the chart loop emits, per quantity, the pages of the pairing loop and then P3 alone, as the page plan defines |
| `Report.RenderLineCharts` | server/routes/readings.js:176-193 | one chart page per line voltage, in the order L1L2, L1L3, L2L3 |
| `Report.RenderDailyRows` | server/routes/readings.js:195-205 | one table row per date, in `dates` order |
| `Report.RenderAllTime` | server/routes/readings.js:207-214 | one line per phase, then the three line voltages, from `allTime` |
| `Report.RenderReport` | server/routes/readings.js:136-216 | the document is the title page, the phase charts, the line charts, the daily table and the all-time block |
| `Report.Download` | server/routes/readings.js:81-135 | no readings gives the 404 "No readings found in the last 30 days" and nothing else; otherwise the report of the aggregated readings |
| `ReportProperties.QuantityPagesPlan` | server/routes/readings.js:150-174 | a quantity gets three pages: P1 with P2; P3 with the undefined `phases[3]`, whose chart is all undefined; P3 alone |
| `ReportProperties.ReportLayout` | server/routes/readings.js:141-214 | the document has 15 page sections (the first page plus one per `addPage` call) in a fixed plan, and P3 is charted twice per quantity |
| `ReportProperties.ChartsPlotDailyPeaks` | server/routes/readings.js:150-193 | every chart has `dates.length` points labelled by `dates`, and point i is the chart's channel peak on `dates[i]` (undefined when there is no channel) |
| `ReportProperties.DailyTableShowsDailyPeaks` | server/routes/readings.js:200-205 | the table has `dates.length` rows; row i is `dates[i]`, and column j is that day's peak of the header's j-th channel |
| `ReportProperties.AllTimeBlockShowsEveryChannel` | server/routes/readings.js:208-214 | the all-time block prints every channel once, with its all-time peak |
| `Authentication.Split` | server/routes/readings.js:46 | `split(' ')` never returns an empty list, and no piece contains the separator |
| `Authentication.JoinSplit` | server/routes/readings.js:46 | joining the pieces of a split gives back the header |
| `Authentication.SplitJoin` | server/routes/readings.js:46 | splitting a join of separator-free pieces gives back the pieces |
| `Authentication.SpaceSplits` | server/routes/readings.js:46 | a header has a second word exactly when it contains a space |
| `Authentication.BearerToken` | server/routes/readings.js:46 | the token exists exactly when a header exists and contains a space, and it contains no space |
| `Authentication.TokenIsSecondWord` | server/routes/readings.js:46 | the token is the second space-separated word of the header |
| `Authentication.Authenticate` | server/routes/readings.js:45-56 | 401 exactly when the header is missing or its second word is missing or empty, whatever the verifier says; 403 "Invalid token" exactly when the verifier rejects the token; otherwise the verifier's user id |
| `LiveDashboard.PeakAfter` | client/dashboard.js:43-53 | a field's peak never decreases; it is unchanged when the value is undefined or the element is absent; it is set when a value is shown |
| `LiveDashboard.ObserveFieldStep` | client/dashboard.js:42-54 | the callback's seed-then-compare update of one field is exactly the per-field step `PeakAfter` describes |
| `LiveDashboard.Toggled` | client/dashboard.js:63-77 | a toggle always changes the mode |
| `LiveDashboard.TwoTogglesRestore` | client/dashboard.js:63-77 | two toggles give back the original mode |
| `LiveDashboard.Dashboard.constructor` | client/dashboard.js:12-13 | the mode starts as 1-phase and no peak is set |
| `LiveDashboard.Dashboard.Update` | client/dashboard.js:34-55 | the peak map becomes the fold of the per-field step over the twelve fields; only listed fields are kept, no peak is below 0, and the mode is unchanged |
| `LiveDashboard.Dashboard.Toggle` | client/dashboard.js:63-77 | the mode flips between 1-phase and 3-phase, and the peaks are unchanged |
| `LiveDashboardProperties.UpdatedPeaksAt` | client/dashboard.js:34-55 | after a refresh, a listed field holds its own per-field step result and every other key is unchanged |
| `LiveDashboardProperties.NumericValueRaisesPeak` | client/dashboard.js:43-51 | a shown numeric value gives max(old peak, or 0 when unset, value) |
| `LiveDashboardProperties.UndefinedValueKeepsPeak` | client/dashboard.js:42-53 | an undefined value, or a field without an element, leaves its peak unchanged |
| `LiveDashboardProperties.NullValueOnlySeeds` | client/dashboard.js:43-51 | a `null` value sets the peak to the old peak, or 0 when unset, and never raises it |
| `LiveDashboardProperties.UntrackedKeysUnchanged` | client/dashboard.js:34-41 | keys outside the twelve fields never change |
| `LiveDashboardProperties.PeaksNeverDecrease` | client/dashboard.js:48-51 | a refresh never lowers or removes a peak |
| `LiveDashboardProperties.NegativeFirstValueGivesZero` | client/dashboard.js:48-50 | a negative first value leaves the peak at 0 |

## Left out

- Database queries: the 30-day window (`setDate`), the owner filter and the
  newest-first sort. The readings are passed in as the query returns them.
  `NewestDayFirst` takes the sort as a hypothesis.
- Day formatting with dayjs and its time zone. The day key is the parameter
  `dayOf`, a function of the timestamp.
- `jwt.verify` and the secret. They are the parameter `verify`, which returns a
  user id or nothing.
- Express routing and response framing, and the 500 responses of the `catch`
  blocks. Rendering or writing failures are not modelled.
- The reading-ingestion `POST /readings` handler and the `GET /readings` and
  `GET /readings/latest` routes. They are storage I/O only.
- pdfkit's automatic page breaks. A section's text that runs past the bottom
  margin continues on further physical pages; a month-long daily table does. The
  page count of the real PDF therefore depends on the data, while the model
  counts `addPage` sections only.
- PDF text, fonts, page geometry and chart images. A page holds the arguments of
  each chart call (title, colour, labels, values). Label strings are kept as
  their parts (quantity and phase, or line).
- Floating point: NaN propagation through `Math.max`, `toFixed` display, and
  `parseFloat` of strings. Channel values are exact reals. Dashboard JSON values
  are numbers or `null`, as the server's JSON holds them.
- The dashboard's DOM writes (the text of each field and the rows shown or hidden
  by the toggle), its fetch, its timer, logout and PDF download. Element presence
  is the parameter `elements`.
- The reading's owner id. The aggregation never reads it.
