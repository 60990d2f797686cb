# Store-traffic forecasting dashboard — Dafny model

This project models the data pipeline of the Streamlit forecasting
dashboard in `pandora-forecasting-poc/app.py`. The dashboard covers three
stores: London, Copenhagen and Paris. For one selected date it:

- builds a synthetic traffic series per store, in hourly (09:00–20:00) or
  daily (Monday–Sunday) buckets. Each bucket holds predicted traffic, the
  actual traffic once the bucket's time has passed, flat legacy staffing and
  AI-recommended staffing (0.93 × traffic, truncated);
- applies the manager's per-bucket percentage adjustments;
- sums the stores into an aggregate table;
- derives the KPI cards: total traffic, potential revenue, staffing
  efficiency against the recorded staffing decisions, the revenue impact,
  the forecast-accuracy triple and the AI-adoption figures.

The session state is modelled as pure transitions:

- the adjustment maps (Apply, Reset All, view switch);
- the decision history (29 seeded days, recording today's decision);
- the history's readers (adoption summary, 30-day calendar, adoption windows).

Modelling choices:

- Every random draw is a unit real in [0, 1) taken from an explicit stream.
  `randint(lo, hi)` is `lo + floor((hi - lo)·u)` with `hi` excluded;
  `uniform(a, b)` is `a + (b - a)·u`.
- Each store's series reads its own stream, because the source re-seeds
  numpy from the store name before each series. The stream is consumed in
  the source's order: one `randint` per bucket, followed at once by one
  `uniform` when the bucket has elapsed.
- "Now" (today's day ordinal and the current hour) is a parameter. Dates
  are proleptic Gregorian day ordinals; the weekday is `(ordinal - 1) mod 7`.
- Python's `int(...)` is truncation toward zero (`Basics.TruncDiv`,
  `Basics.TruncReal`). `int(t·0.93)` is `(93·t) div 100`.
  `int(v·(1 + p/100))` is `(v·(100 + p)) div 100`.
- The efficiency ratio is `(100·realized) div forecast`; the `/50` FTE
  factors cancel.
- Accuracy values are exact reals.

Modules, one per file except where noted:

- `Basics`: stores, per-store tables, truncation, clipping, calendar, draws.
- `Generation` and `Fleet` (generation.dfy): series generation.
- `Adjustment`: applying adjustment maps.
- `Aggregation` and `Kpis` (kpis.dfy): aggregate table, KPIs, revenue impact.
- `Accuracy`: the forecast-accuracy triple.
- `Session`: adjustment-map transitions.
- `History`: the decision history and its readers.
- `Dashboard`: one full render.

Where the code behaves differently from what its own seeding, comments and
calls suggest, the model follows the code:

- Predicted traffic is not the same for every selected date, even though
  each store's generator re-seeds numpy from the store name alone
  (`app.py:259`, `app.py:335`). The actual traffic's `uniform` draw is taken
  from the same stream between two rows' `randint` draws. So a later row's
  prediction depends on how many earlier rows had elapsed.
  `Fleet.PredictionDependsOnDrawOrder` shows a stream on which London's 10:00
  prediction differs between a past and a future date.
- `randint(-8, 12)` and `randint(-50, 80)` exclude their upper bounds, so the
  offsets are -8..11 and -50..79.
- The code comments speak of showing "the current week" (`app.py:353`,
  `app.py:379`). But the test for it (`app.py:359`) is whether the selected
  date is today exactly. Any other date of today's week counts as past or
  future.
- The seeded history is not reproducible. The code calls `np.random.seed(42)`
  (`app.py:650`) but draws the decisions from Python's separate `random`
  module. The model takes the 87 decision coins as a parameter.

## Model

| member | source | states |
|---|---|---|
| Basics.RandInt | pandora-forecasting-poc/app.py:286 | a `randint(lo, hi)` draw lies in [lo, hi), upper bound excluded |
| Basics.UniformReal | pandora-forecasting-poc/app.py:299 | a `uniform(lo, hi)` draw lies in [lo, hi) |
| Basics.TruncDiv | pandora-forecasting-poc/app.py:311 | Python's `int(a / b)` truncates toward zero: the quotient brackets `a` from below for non-negative `a` and from above for negative `a` |
| Basics.StatusOf | pandora-forecasting-poc/app.py:273-277 | the selected date is past, today or future exactly when it is before, equal to or after today |
| Basics.WeekStart | pandora-forecasting-poc/app.py:459-460 | the week start is a Monday, at most six days before the selected date |
| Generation.AiStaffing | pandora-forecasting-poc/app.py:311 | AI staffing is 93% of the traffic, truncated: `100·s <= 93·t < 100·s + 100` |
| Generation.ActualFrom | pandora-forecasting-poc/app.py:299-300 | actual traffic is non-negative, at most 108% of the prediction and above 92% of it less one |
| Generation.HourLabels | pandora-forecasting-poc/app.py:262 | the hourly labels are exactly "09:00", "10:00", .., "20:00", twelve distinct strings |
| Generation.GenerateAt | pandora-forecasting-poc/app.py:282-305 | row `i` reads its draws right after every draw of the rows before it: one `randint` per row plus one `uniform` per elapsed row |
| Generation.HourlyConsumed | pandora-forecasting-poc/app.py:282-304 | the rows before hour `i` consume exactly `HourDrawIndex` draws: `2i` for a past date, `i` for a future one, `i` plus the elapsed hours among them today |
| Generation.HourlyRow | pandora-forecasting-poc/app.py:282-319 | hourly row `i`: label `09+i:00`; predicted = base + randint offset + peak boost on a peak hour + floor(4.5·i); actual iff elapsed; baseline base - 15; AI = trunc(0.93·predicted) |
| Generation.HourlyShape | pandora-forecasting-poc/app.py:262-319 | an hourly series has the twelve labels in order, a flat baseline of base - 15, consistent AI staffing, non-negative predictions, and an actual value exactly on the elapsed hours (every hour of a past date, the hours before the current hour today, none for a future date) |
| Generation.DailyConsumed | pandora-forecasting-poc/app.py:364-386 | the days before day `i` consume exactly `DayDrawIndex` draws |
| Generation.DailyRow | pandora-forecasting-poc/app.py:364-400 | daily row `i`: label the i-th day name; predicted = base + randint offset + weekend boost on a peak day; actual iff elapsed; baseline base - 120; AI = trunc(0.93·predicted) |
| Generation.DailyShape | pandora-forecasting-poc/app.py:338-400 | a daily series has Monday..Sunday in order, a flat baseline of base - 120, consistent AI staffing, non-negative predictions, and an actual value exactly on the elapsed days (all for a past date, up to and including today's weekday when the selected date is today, none for a future date) |
| Fleet.ModeLabels | pandora-forecasting-poc/app.py:799-806 | each granularity has distinct labels, 12 hourly or 7 daily |
| Fleet.GenerateAll | pandora-forecasting-poc/app.py:405-416 | every store's series is generated from its own name and its own stream; all carry the granularity's labels in order, with consistent AI staffing and non-negative predictions; each keeps its own legacy staffing level (hourly 95 / 65 / 75, daily 830 / 600 / 690 for London / Copenhagen / Paris) |
| Fleet.PredictionDependsOnDrawOrder | pandora-forecasting-poc/app.py:286-304 | the same stream gives London's 10:00 bucket different predictions for a past and a future date |
| Adjustment.AdjustedTraffic | pandora-forecasting-poc/app.py:626 | the adjusted value is `v·(1 + pct/100)` truncated, non-negative for non-negative `v` and `pct >= -100` |
| Adjustment.FirstMatch | pandora-forecasting-poc/app.py:622-625 | finds the first row carrying the label, or reports that none does |
| Adjustment.ApplyEntry | pandora-forecasting-poc/app.py:620-630 | one entry rewrites only rows carrying its label and keeps the labels |
| Adjustment.ApplyToSeries | pandora-forecasting-poc/app.py:612-634 | a store's map keeps row count, labels, actual and baseline values; rows without an entry are unchanged; AI consistency is preserved |
| Adjustment.AdjustmentEffect | pandora-forecasting-poc/app.py:622-630 | on distinct labels, an adjusted row gets its own traffic scaled by the percentage and its AI staffing recomputed; all other fields are kept |
| Adjustment.StaleEntriesIgnored | pandora-forecasting-poc/app.py:623 | entries whose label is on no row change nothing |
| Adjustment.SequentialIsOrderFree | pandora-forecasting-poc/app.py:619-631 | applying distinct-label entries one after another in any order equals applying the map at once |
| Adjustment.AdjustmentKeepsTrafficNonNegative | pandora-forecasting-poc/app.py:626 | percentages of at least -100% keep every prediction non-negative |
| Adjustment.ApplyAdjustments | pandora-forecasting-poc/app.py:600-634 | each store's series is rewritten by that store's own map and no other |
| Adjustment.AdjustmentExample | pandora-forecasting-poc/app.py:626-630 | +20% on 150 gives 180, with AI staffing 167 |
| Aggregation.Aggregate | pandora-forecasting-poc/app.py:419-433 | the aggregate table has London's labels and row count, each store's predicted traffic in its column, and their sum as the total; mismatched lengths are an error |
| Kpis.AggregateTotalIsFleetTraffic | pandora-forecasting-poc/app.py:431-440 | the summed total column equals the three stores' summed predictions |
| Kpis.Revenue | pandora-forecasting-poc/app.py:442 | revenue is `total·0.20·931.25` truncated: `4·r <= 745·t < 4·r + 4` |
| Kpis.DayIndex | pandora-forecasting-poc/app.py:463-464 | a label has an index exactly when it is a day name, and the index names that day |
| Kpis.RowDate | pandora-forecasting-poc/app.py:453-465 | an hourly row falls on the selected date; a daily row falls in the selected date's Monday-to-Sunday week, on the weekday its label names |
| Kpis.RealizedStaff | pandora-forecasting-poc/app.py:473-480 | a legacy day realizes the baseline; an AI day or a day without a decision realizes the AI staffing |
| Kpis.Efficiency | pandora-forecasting-poc/app.py:482 | efficiency is `100·realized/forecast` truncated, or 100 when nothing is forecast |
| Kpis.ComputeKpis | pandora-forecasting-poc/app.py:435-527 | the total is the scope's predicted traffic (for all stores, read off the aggregate table, it is the three stores' sum); revenue is 186.25 kr a visit truncated (`4·r <= 745·t < 4·r + 4`); efficiency `e` satisfies `e·F <= 100·R < e·F + F` for the scope's realized staffing `R` and forecast `F` (pooled for all stores), is 100 without forecast traffic, and is at most 93 when every row of the scope follows the AI |
| Kpis.ScopeAdoptionAtMost93 | pandora-forecasting-poc/app.py:444-482 | when every row of the scope follows the AI, the efficiency card shows at most 93, for one store and pooled over all stores |
| Kpis.FleetKpiTotals | pandora-forecasting-poc/app.py:439-442 | for all stores the KPI total equals the sum of the stores' predictions |
| Kpis.FollowingAiRealizes93 | pandora-forecasting-poc/app.py:469-480 | with no legacy day, the realized staffing is at most 93% of the forecast traffic |
| Kpis.FullAdoptionEfficiencyAtMost93 | pandora-forecasting-poc/app.py:469-482 | full AI adoption shows at most 93% efficiency when traffic is forecast, and 100% otherwise |
| Kpis.PooledEfficiencyBetweenStores | pandora-forecasting-poc/app.py:444-482 | the all-stores efficiency lies between the lowest and the highest per-store efficiency |
| Kpis.RevenueImpact | pandora-forecasting-poc/app.py:1486 | the impact is `total·0.05·0.20·931.25` truncated: `16·r <= 149·t < 16·r + 16` |
| Kpis.ImpactPerDay | pandora-forecasting-poc/app.py:1489-1494 | per day: the whole impact in the hourly view, its floor seventh in the daily view |
| Kpis.ImpactPerWeek | pandora-forecasting-poc/app.py:1489-1494 | a weekly figure exists exactly in the daily view and is the whole impact |
| Kpis.ImpactIsTwentiethOfRevenue | pandora-forecasting-poc/app.py:1480-1486 | the revenue impact is exactly the floor of a twentieth of the potential revenue |
| Accuracy.RowAccuracy | pandora-forecasting-poc/app.py:563 | a row's accuracy is in [0, 100], and 100 exactly when the actual equals the prediction; for a positive prediction `p` it is `100·(p - abs(p - a))/p` when the error is below `p` (prediction 100, actual 90 gives 90) and 0 otherwise |
| Accuracy.ForecastAccuracy | pandora-forecasting-poc/app.py:529-598 | a future date gives (0, 0, 0); otherwise each value is in [88, 98]; each value reads "N/A" exactly for a future date |
| Accuracy.ScopeSamplesInRange | pandora-forecasting-poc/app.py:555-573 | every collected per-row accuracy is in [0, 100] when predictions are non-negative |
| Accuracy.BaseInRange | pandora-forecasting-poc/app.py:576 | the base accuracy (mean, or 92 without samples) is in [0, 100] |
| Accuracy.ClampNonExpansive | pandora-forecasting-poc/app.py:594-596 | clipping never moves two values further apart |
| Accuracy.AccuracyNearBase | pandora-forecasting-poc/app.py:585-596 | each value lies within its jitter half-width (0.5, 0.3, 0.2) of the clipped base |
| Accuracy.NoObservationsDefaultTo92 | pandora-forecasting-poc/app.py:576-596 | without observed rows the values lie within their jitter of 92 |
| Accuracy.PerfectForecastShowsCeiling | pandora-forecasting-poc/app.py:576-596 | a perfect forecast shows 98 on all three values |
| Session.ApplyButton | pandora-forecasting-poc/app.py:851-860 | Apply stores a non-zero percentage under the bucket, removes the bucket on 0, and touches no other bucket or store |
| Session.ResetAll | pandora-forecasting-poc/app.py:862-866 | Reset All empties only the scope store's map |
| Session.SwitchView | pandora-forecasting-poc/app.py:757-764 | switching to the other view empties all three maps; choosing the current view changes nothing |
| Session.InitialWellFormed | pandora-forecasting-poc/app.py:639-646 | the initial session is well formed |
| Session.ApplyButtonPreservesWellFormed | pandora-forecasting-poc/app.py:809-822 | offered buckets and slider values keep every entry a non-zero slider value on a current bucket |
| Session.ResetAllPreservesWellFormed | pandora-forecasting-poc/app.py:862-866 | Reset All keeps the state well formed |
| Session.SwitchViewPreservesWellFormed | pandora-forecasting-poc/app.py:757-764 | a view switch keeps the state well formed |
| Session.WellFormedPercentages | pandora-forecasting-poc/app.py:817-822 | a stored percentage is never below -50 |
| Session.SetThenZeroRestores | pandora-forecasting-poc/app.py:851-860 | setting a fresh bucket and then applying 0 restores the state |
| Session.ApplyButtonIdempotent | pandora-forecasting-poc/app.py:851-860 | pressing Apply twice equals pressing it once |
| Session.ZeroEntryIsNoEntry | pandora-forecasting-poc/app.py:855-860 | on a generated series a 0% entry has the same effect as no entry |
| Session.ResetRestoresGeneratedSeries | pandora-forecasting-poc/app.py:862-866 | after Reset All the store shows its generated series |
| Session.SwitchShowsGeneratedSeries | pandora-forecasting-poc/app.py:757-764 | after a view switch every store shows its generated series |
| Session.SliderKeepsTrafficPositive | pandora-forecasting-poc/app.py:817-826 | no slider value takes traffic of 2 or more to zero |
| History.SeedLog | pandora-forecasting-poc/app.py:659-672 | seeding gives exactly the days `today-n .. today-1`, `n` entries, each decided by its own coin |
| History.SeedHistory | pandora-forecasting-poc/app.py:647-674 | every store gets 29 entries for today-29 .. today-1, each from its own coin against the store's probability, store by store |
| History.SeedLeavesTodayOpen | pandora-forecasting-poc/app.py:658-661 | the seeded history has no entry for today and one for yesterday |
| History.Decide | pandora-forecasting-poc/app.py:662-671 | a day follows the AI exactly when its coin is below the store's probability |
| History.Record | pandora-forecasting-poc/app.py:1319-1336 | recording sets today's entry of the scope store and changes nothing else |
| History.RecordLastWins | pandora-forecasting-poc/app.py:1319-1336 | the last decision recorded for today wins |
| History.StoreAdoption | pandora-forecasting-poc/app.py:719-737 | the rate is in [0, 100], 0 without recorded days, and otherwise the AI days as a percentage of the recorded days (`rate·totalDays = 100·aiDays`); it is 100 exactly when every recorded day followed the AI, and 0 exactly when none did |
| History.AdoptionSummary | pandora-forecasting-poc/app.py:711-738 | the summary holds each store's adoption figures |
| History.RecordNewDayCounts | pandora-forecasting-poc/app.py:721-727 | recording a new day adds one recorded day, and one AI day exactly when it follows the AI |
| History.OverwriteAiWithLegacyCounts | pandora-forecasting-poc/app.py:721-727 | overwriting an AI day with legacy removes one AI day and keeps the day count |
| History.RegionalAverage | pandora-forecasting-poc/app.py:1413 | the regional average lies between the lowest and the highest store rate, and equals the common rate when all three agree |
| History.NeedsSupport | pandora-forecasting-poc/app.py:1416-1425 | exactly the stores below 80% are listed, in summary order |
| History.Calendar | pandora-forecasting-poc/app.py:681-708 | 30 consecutive days ending today, each with its weekday abbreviation, its week number (0..4) and its recorded decision if any |
| History.SeededCalendar | pandora-forecasting-poc/app.py:681-708 | on a seeded history every day but today shows a decision |
| History.CalendarShowsRecord | pandora-forecasting-poc/app.py:1324 | after recording, the calendar's last cell shows the decision |
| History.AdoptionToday | pandora-forecasting-poc/app.py:1577-1578 | today's figure is 100 exactly when today's entry follows the AI, else 0 |
| History.AiWithinRecorded | pandora-forecasting-poc/app.py:1580-1586 | AI days in a window never exceed recorded days, with equality exactly when every recorded day followed the AI |
| History.AdoptionWindowAsWritten | pandora-forecasting-poc/app.py:1580-1586 | the source's window figure is in [0, 100] and is 100 exactly when every day of the window is recorded as AI |
| History.AdoptionWindow | pandora-forecasting-poc/app.py:1580-1586 | the intended window figure is in [0, 100], 0 without recorded days, and otherwise the AI days of the window as a percentage of its recorded days; it is 100 exactly when some day is recorded and every recorded day followed the AI |
| History.WindowsAgreeWhenComplete | pandora-forecasting-poc/app.py:1580-1586 | both window figures agree when every day of the window is recorded |
| History.Adoptions | pandora-forecasting-poc/app.py:1571-1591 | all stores show the fixed 85 / 81.7 / 83.3; for one store "Today" is 100 exactly when today's entry follows the AI and 0 otherwise, and the 3- and 7-day figures are the AI days over the whole window length (`3·r = 100·AI days`), in [0, 100] and 100 exactly when every day of the window is recorded as AI |
| History.AdoptionWindowCountsMissingDayAsLegacy | pandora-forecasting-poc/app.py:1581-1582 | an all-AI seeded history shows 66.7% for the 3-day window before today's decision, where 100% is intended |
| Dashboard.ShownSeries | pandora-forecasting-poc/app.py:781-784 | the shown series keep the view's labels, non-negative predictions and consistent AI staffing |
| Dashboard.Render | pandora-forecasting-poc/app.py:781-786 | aggregation cannot fail on the shown series; the KPI total is the revenue-impact box's traffic and non-negative; the weekly impact exists exactly in the daily view; accuracy shows "N/A" exactly for a future date; the adoption figures are the fixed ones for all stores, and for one store are percentages with "Today" at 100 exactly when today's decision follows the AI |
| Dashboard.ImpactMatchesRevenueCard | pandora-forecasting-poc/app.py:1480-1494 | in the daily view the weekly impact is a twentieth of the revenue card and the daily impact a seventh of that |

## Left out

- Page layout, CSS, HTML cards, Plotly figures, heatmap transposition and
  hover text: presentation only.
- PRNG internals: numpy's Mersenne Twister, the per-store seed
  `hash(store_name) % 10000` and the accuracy seed are not modelled. Python
  salts string hashes per process, so these seeds are not stable anyway. The
  draws are parameters.
- `@st.cache_data` memoisation is not modelled. The calendar and the
  adoption summary are cached without the history as an argument (the
  calendar is keyed by store name only, the summary by nothing), so the
  screen can show them stale after a decision is recorded. The model
  computes them fresh.
- The clock is a parameter. A day rollover during a render (several
  `datetime.now()` calls) is not modelled.
- Floating-point rounding is replaced by exact arithmetic: the FTE divisions
  by 50, the 0.93 factor, revenue, the adjustment factor `1 + pct/100`, the
  variance factor and the accuracy mean. A case where float truncation
  differs from exact truncation at a boundary is outside the model. For
  example, traffic 100 adjusted by +15%: in floating point `100 × 1.15` is
  just below 115 and truncates to 114, where the model gives 115.
- Accuracy.RowAccuracy: a zero prediction returns 0, where the source raises
  ZeroDivisionError. The case is unreachable: the lowest prediction is 36
  (Copenhagen at 09:00, 72 visits adjusted by -50%).
- The average-FTE recommendation text, the "Top Adopter" name, the data
  completeness constants and the model-info text: display-only.
- The sidebar preview (app.py lines 829 and 837): display-only arithmetic
  that undoes the stored adjustment by division.
- The source's check that a store is present in the history: it always is,
  because all three stores are seeded.

## Findings

| source | as written | input that shows it | evidently intended | confidence | as-written member | corrected member |
|---|---|---|---|---|---|---|
| pandora-forecasting-poc/app.py:1581-1586 | a missing day is read as `.get('decision', 0)`, so the `is not None` filter never removes anything; the denominator is always 3 (or 7), and a day without a decision counts as legacy | a history seeded with every day following the AI, before today's decision is recorded: the 3-day figure is 2/3 = 66.7% | the share of AI days among the days that have a decision: 100% here | medium, not executed | History.AdoptionWindowAsWritten (History.AdoptionWindowCountsMissingDayAsLegacy) | History.AdoptionWindow |

`History.Adoptions`, and with it `Dashboard.Render`, shows the window
figures as the code computes them. `History.AdoptionWindow` is the
corrected definition, and `History.WindowsAgreeWhenComplete` proves the two
agree whenever every day of the window has a decision.
