# Workpackage request estimation: the forecasting engine

This project models the forecasting engine of the Workpackage Request
Estimation app (`app.py`) and proves properties of it. The engine takes a
total scope of infoheaders (IH), a work start week, one truck with an
arrival and a departure week, the shares of pre-work and post-work, the
team's headcount and weekly rate, and the FDG, C-Build, FIG and RG
milestones. All weeks are YYWW integers. From these it computes:

- a window of weeks. It starts two weeks before the earliest date, or at
  week 50 of the previous year when the earliest week is 2 or less. It ends
  14 weeks after the latest date, or later when the 60-week floor applies;
- the YYWW timeline of that window, on a calendar where every year has 52
  weeks;
- the timeline positions of the work start, the truck arrival, the truck
  departure and RG. The run fails with a "Date Mismatch" if any of them is
  missing;
- the split of the scope into pre-work, post-work and truck volume;
- a weekly intake. Pre-work arrives at a flat rate from the work start up
  to the arrival. Post-work arrives at a flat rate after the departure, up
  to RG. The truck volume arrives along a bell curve centred on the truck
  window and normalised by its own sampled sum;
- a single-queue backlog simulation with a capacity of
  headcount × rate per week;
- the verdict at RG. The chart says MISSED when more than 1 IH is left.
  The metrics row reports "Missed at RG" when anything is left.

Modules, in the order the script runs them:

- `Util`: Option and Result, minimum, sums and their lemmas.
- `Calendar`: YYWW arithmetic, the window, the timeline generator
  (`GenerateTimeline`, proved against `Timeline`) and the lookup of a date
  on the timeline. `Ordinal(d) = year × 52 + week − 1` numbers the weeks,
  so a date's timeline index is its ordinal distance from the window start.
- `Demand`: the scope split, the guarded rates, the bell (the `RawBell`
  loop, proved against `Bell`) and the weekly intake profile.
- `Backlog`: one week of processing, the simulation (the `Simulate` loop,
  proved against `Simulation`) and its invariants.
- `Deadline`: the chart's verdict and the metrics row's headline.
- `Forecast`: the inputs and one whole run. `RunForecast` is proved against
  the value `Plan`, and `Plan` is what the end-to-end lemmas are about.

Python's `//` and `%` by a positive constant floor, which is exactly what
Dafny's `/` and `%` do on `int`, so the YYWW arithmetic needs no
adjustment. The script reads the normal density from SciPy. Here it is a
parameter `pdf(x, mean, spread)`, and the lemmas that need it assume only
that it is non-negative.

Pre-work is applied on every week from the start index to the arrival index
inclusive. That is dur_pre + 1 weeks, while the rate is demand_pre / dur_pre.
The model keeps this as written, and `Forecast.VolumeAccounting` proves
the consequence: with all three phases active, the run generates
total_scope + rate_pre, one week of pre-work more than the scope.

## Model

| member | source | states |
|---|---|---|
| Calendar.NextWeek | app.py:61-68 | one step of the generator lands on a later date that is a valid week (1..52), and from a valid week it is exactly one ordinal week later |
| Calendar.OrdinalOrder | app.py:61-68 | on valid weeks the YYWW integer order and equality agree with the ordinal order, in both directions |
| Calendar.OrdinalRoundTrip | app.py:61-68 | a valid week is recovered from its ordinal |
| Calendar.AdvanceOrdinal | app.py:59-68 | k generator steps from a valid week give a valid week exactly k ordinals later |
| Calendar.AdvanceClosedForm | app.py:59-68 | k generator steps from a valid week land on year (ordinal + k) / 52 and week (ordinal + k) % 52 + 1 |
| Calendar.AdvanceIncreasing | app.py:59-68 | the generator is strictly increasing |
| Calendar.GenerateTimeline | app.py:56-69 | the loop emits max(duration, 0) dates, and entry i is the start advanced i steps |
| Calendar.TimelineShape | app.py:56-69 | the timeline starts at the start date, each entry is the next week of the previous one, entries are strictly increasing, and from a valid start entry i is i ordinals after it |
| Calendar.FindIndex | app.py:77-80 | lookup fails exactly when the date is absent; otherwise it returns the first position holding the date |
| Calendar.LookupOnTimeline | app.py:77-80 | on a timeline from a valid week, a date is found iff it is a valid week inside the window, at index (year − start year) × 52 + week − start week |
| Calendar.StartWeek | app.py:42-45 | the window start is before the earliest date; weeks 1-2 move to week 50 of the previous year; otherwise it is 2 weeks earlier; validity is kept and the ordinal gap is stated |
| Calendar.WeeksToShow | app.py:51-54 | the window length is at least 60 and at least the ordinal distance plus the 15-week buffer, and it equals one of the two |
| Calendar.WindowCovers | app.py:49-71 | every valid week between the window start and the latest date is on the timeline, with at least 14 weeks after it (its index + 15 is at most the window length) |
| Demand.SplitScope | app.py:89-91 | the three volumes add up to the scope, pre and post are the given shares, and all are non-negative when the shares do not exceed the whole |
| Demand.GuardedRate | app.py:93-101 | the rate is 0 for a non-positive duration and otherwise spreads the demand exactly over the duration; it is non-negative for non-negative demand |
| Demand.RawBell | app.py:103-106 | the loop samples the density at every index, or 0 everywhere when the spread is not positive |
| Demand.BellNonNegative | app.py:103-107 | with a non-negative density, every sample and the total are non-negative |
| Demand.FlatBell | app.py:105-107 | a non-positive spread gives a bell whose total is 0 |
| Demand.IntakeNonNegative | app.py:112-116 | with non-negative rates, truck volume and bell, no week generates negative work |
| Demand.IntakeSplits | app.py:112-116 | the total intake is the sum of the pre-work, post-work and truck totals |
| Demand.PreWorkTotal | app.py:113 | pre-work totals rate_pre times the number of on-timeline weeks from start to arrival inclusive, i.e. dur_pre + 1 weeks |
| Demand.PostWorkTotal | app.py:115 | post-work totals rate_post times the number of weeks after departure up to RG inclusive, i.e. dur_post weeks |
| Demand.TruckVolumeConserved | app.py:116 | normalising by the sampled sum makes the truck's weekly shares add up to exactly demand_truck, or 0 when the bell sums to nothing |
| Demand.Arriving | app.py:112-116 | a week outside both the pre-work and the post-work range gets only the truck's share, and nothing when the bell sums to nothing; with non-negative rates, truck volume and bell sample, a week's arriving work is non-negative |
| Demand.PreWorkVolume | app.py:93-94 | with the guarded rate, pre-work yields demand_pre + rate_pre when dur_pre > 0 and nothing otherwise |
| Demand.PostWorkVolume | app.py:95-101 | with the guarded rate, post-work yields demand_post when dur_post > 0 and nothing otherwise |
| Demand.IntakeTotal | app.py:109-116 | the total generated work is the three phase volumes, each counted only when its phase is active |
| Backlog.Process | app.py:118-120 | one week sends min(pool, capacity) and carries max(0, pool − capacity); sent plus carried equals the pool; both are non-negative for a non-negative pool and capacity |
| Backlog.Simulation | app.py:109-121 | one row per week, with the row's index and its generated work |
| Backlog.Simulate | app.py:109-121 | the loop produces exactly the rows of Simulation on the profile's intake |
| Backlog.SimulationPrefix | app.py:109-121 | simulating a prefix of the weeks gives the prefix of the rows |
| Backlog.StepRecurrence | app.py:118-121 | row k is one week of processing on the backlog carried out of row k − 1, and 0 for the first row |
| Backlog.StepBounds | app.py:118-120 | with non-negative arrivals and capacity, every week sends between 0 and the capacity and leaves a non-negative backlog |
| Backlog.Conservation | app.py:118-121 | everything generated was either sent or is still in the final backlog |
| Backlog.CumulativeConservation | app.py:118-121 | conservation holds after every week, not only at the end |
| Backlog.CapacityMonotone | app.py:119 | a larger capacity never leaves a larger backlog at any week |
| Backlog.AmpleCapacity | app.py:118-120 | when every week's arrivals fit the capacity, nothing is carried and everything is sent the week it arrives |
| Deadline.Judge | app.py:151-158 | the chart says MISSED, with the backlog as the amount, iff more than 1 IH is left at RG |
| Deadline.HeadlineOf | app.py:173-176 | the metrics row reports a miss iff anything is left, with the backlog as the amount; it never says Success when the chart says MISSED; the two disagree exactly for a backlog in (0, 1] |
| Deadline.VerdictMonotone | app.py:151-152 | a larger capacity never turns ON TARGET into MISSED and never raises the amount missed |
| Deadline.AmpleCapacityOnTarget | app.py:151-158 | when every week's arrivals fit the capacity, RG is ON TARGET and the metric is Success |
| Forecast.Earliest | app.py:39-40 | the earliest date is one of work start, arrival, FDG, C-Build and 2530, and no later than any of them |
| Forecast.Latest | app.py:49 | the latest date is the later of RG and the truck departure |
| Forecast.Capacity | app.py:34 | the weekly capacity is headcount times the per-person rate; it is non-negative for a non-negative headcount and rate, and 0 when either is 0 |
| Forecast.Resolve | app.py:76-86 | resolution fails iff arrival, departure, RG or work start is absent from the timeline, and the error carries the timeline's first and last weeks; on success each index points at its date |
| Forecast.Center | app.py:82 | the bell's centre is equidistant from the arrival and departure indices, and lies between them when the truck does not leave before it arrives |
| Forecast.Spread | app.py:83 | the bell's spread is a fifth of the truck window's length, and it is positive exactly when the truck leaves after its arrival week; otherwise the bell is flat (`Demand.FlatBell`) and the truck's volume is not generated |
| Forecast.Compute | app.py:82-121 | after resolution, the steps from the split to the verdict compute exactly the run's report |
| Forecast.RunForecast | app.py:34-121 | the engine, step by step, returns exactly Plan: the error, or the report of the run |
| Forecast.ResolutionByOrdinal | app.py:76-86 | a run fails iff one of the four dates is not a valid week inside the window; the error names the window's first and last weeks; on success each index is the date's ordinal distance from the window start |
| Forecast.InputsInsideWindow | app.py:37-86 | valid weeks, a truck that leaves no earlier than it arrives, RG no earlier than the earliest date and a work start no later than the latest date make the run succeed, with at least 14 weeks after every resolved date (its index + 15 is at most the window length) |
| Forecast.SeriesBounds | app.py:109-121 | with a non-negative scope, shares within the whole, a non-negative capacity and density, every week generates non-negative work, sends between 0 and the capacity and leaves a non-negative backlog |
| Forecast.RunVolume | app.py:88-121 | the generated work of a resolved run is the three phase volumes: demand_pre + rate_pre, demand_post and demand_truck, each when its phase is active |
| Forecast.VolumeAccounting | app.py:88-121 | a successful run generates the three phase volumes, and total_scope + rate_pre when all three phases are active |
| Forecast.SameResolution | app.py:34-86 | headcount and rate do not affect the window or the date resolution |
| Forecast.RunCapacity | app.py:109-158 | on the same resolved dates, a larger capacity never raises any week's backlog and never worsens the verdict |
| Forecast.CapacityNeverHurts | app.py:34-158 | raising headcount or rate leaves success unchanged, never raises any week's backlog, never turns ON TARGET into MISSED and never raises the amount missed |

## Left out

- The page setup, sidebar widgets, title and markdown (app.py:1-31): these are the interface. Their values are the `Inputs` of a run.
- `st.error` and `st.stop` (app.py:85-86): the interface. The failure is the `DateMismatch` result, which carries the first and last weeks the message shows.
- SciPy's `norm.pdf` (app.py:105): foreign floating-point code. It is the `pdf` parameter.
- The pandas frames (app.py:72-74, 123-124): modelled as sequences indexed by timeline position. `Week_Str` is display only. The merge adds only the week to each row.
- Reading the RG backlog from the merged frame (app.py:151): it is the row at the first timeline position of RG, which is `rg_idx`, so the model reads `data[idx.rg]`.
- Plotting, the milestone markers and the tick labels (app.py:126-167): rendering only. The FIG week is only drawn and never reaches the engine.
- The metrics row's display of demand_pre and demand_truck and the `int(...)` truncation of shown amounts (app.py:153, 171-176): display only. The model keeps the exact amounts.
- Floating point: all real-valued quantities are exact reals. Rounding in the source's float arithmetic is not modelled.
- Several trucks, gap-filling post-work, rework feedback, an off-grid date fallback and a minimum spread for a collapsed truck window are not in this script. It has one truck and a trailing post-work window, and a collapsed window gives a flat bell (`Demand.FlatBell`).
- The window's latest date is the later of RG and the truck departure, and the buffer is 15 weeks, as the script computes them.
- Idempotence of a run holds by construction: `Plan` is a function of the inputs, and `RunForecast` returns exactly `Plan`.
