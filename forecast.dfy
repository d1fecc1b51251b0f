// One run of the forecasting engine, from the sidebar inputs to the backlog
// series and the RG verdict: window, timeline, date resolution, demand split,
// rates, bell, simulation and verdict, in the order the script performs them.
module Forecast {
  import opened Util
  import opened Calendar
  import opened Demand
  import opened Backlog
  import opened Deadline

  /** The sidebar inputs that reach the engine. FIG is only drawn, never used by the engine. */
  datatype Inputs = Inputs(
    totalScope: int,
    workStart: int, truckArrival: int, truckDeparture: int,
    prePct: real, postPct: real,
    seCount: int, ihPerSe: int,
    fdg: int, cBuild: int, fig: int, rg: int)

  /** The fixed date that always takes part in choosing the window start. */
  const SentinelWeek := 2530

  /** earliest_date: the least of work start, truck arrival, FDG, C-Build and the sentinel week. */
  function Earliest(inp: Inputs): (e: int)
    ensures e <= inp.workStart && e <= inp.truckArrival && e <= inp.fdg && e <= inp.cBuild
    ensures e <= SentinelWeek
    ensures e in {inp.workStart, inp.truckArrival, inp.fdg, inp.cBuild, SentinelWeek}
  {
    var dates := [inp.workStart, inp.truckArrival, inp.fdg, inp.cBuild, SentinelWeek];
    var e := MinOf(dates);
    assert e <= dates[0] && e <= dates[1] && e <= dates[2] && e <= dates[3] && e <= dates[4];
    e
  }

  /** latest_date: the later of the RG deadline and the truck departure. */
  function Latest(inp: Inputs): (l: int)
    ensures l >= inp.rg && l >= inp.truckDeparture
    ensures l == inp.rg || l == inp.truckDeparture
  {
    if inp.rg >= inp.truckDeparture then inp.rg else inp.truckDeparture
  }

  /** max_capacity = se_count * ih_per_se. */
  function Capacity(inp: Inputs): (c: real)
    ensures c == inp.seCount as real * inp.ihPerSe as real
    ensures inp.seCount >= 0 && inp.ihPerSe >= 0 ==> c >= 0.0
    ensures inp.seCount == 0 || inp.ihPerSe == 0 ==> c == 0.0
  {
    (inp.seCount * inp.ihPerSe) as real
  }

  function WindowStart(inp: Inputs): int
  {
    StartWeek(Earliest(inp))
  }

  function WindowLength(inp: Inputs): nat
  {
    WeeksToShow(WindowStart(inp), Latest(inp))
  }

  /** The timeline the script generates for these inputs. */
  function Weeks(inp: Inputs): seq<int>
  {
    Timeline(WindowStart(inp), WindowLength(inp))
  }

  /** A date that lands on the generated window. */
  predicate OnWindow(inp: Inputs, d: int)
  {
    IsWeekDate(d) && 0 <= Ordinal(d) - Ordinal(WindowStart(inp)) < WindowLength(inp)
  }

  /** arrival_idx, depart_idx, rg_idx and start_idx. */
  datatype Indices = Indices(arrival: nat, depart: nat, rg: nat, start: nat)

  /** The "Date Mismatch" error, which reports the timeline's first and last weeks. */
  datatype DateMismatch = DateMismatch(first: int, last: int)

  /** Resolve the four dates the engine needs to their timeline positions, failing if any is missing. */
  function Resolve(weeks: seq<int>, inp: Inputs): (r: Result<Indices, DateMismatch>)
    requires |weeks| > 0
    ensures r.Err? <==>
              inp.truckArrival !in weeks || inp.truckDeparture !in weeks ||
              inp.rg !in weeks || inp.workStart !in weeks
    ensures r.Err? ==> r.error == DateMismatch(weeks[0], weeks[|weeks| - 1])
    ensures r.Ok? ==>
              r.value.arrival < |weeks| && weeks[r.value.arrival] == inp.truckArrival &&
              r.value.depart < |weeks| && weeks[r.value.depart] == inp.truckDeparture &&
              r.value.rg < |weeks| && weeks[r.value.rg] == inp.rg &&
              r.value.start < |weeks| && weeks[r.value.start] == inp.workStart
  {
    match (FindIndex(weeks, inp.truckArrival), FindIndex(weeks, inp.truckDeparture),
           FindIndex(weeks, inp.rg), FindIndex(weeks, inp.workStart))
    case (Some(a), Some(d), Some(g), Some(s)) => Ok(Indices(a, d, g, s))
    case _ => Err(DateMismatch(weeks[0], weeks[|weeks| - 1]))
  }

  /** truck_center_idx: the midpoint of the truck window. */
  function Center(idx: Indices): (c: real)
    ensures c - idx.arrival as real == idx.depart as real - c
    ensures idx.arrival <= idx.depart ==> idx.arrival as real <= c <= idx.depart as real
  {
    (idx.arrival + idx.depart) as real / 2.0
  }

  /** sigma_idx: a fifth of the truck window's length. */
  function Spread(idx: Indices): (r: real)
    ensures r > 0.0 <==> idx.depart > idx.arrival
    ensures 5.0 * r == (idx.depart - idx.arrival) as real
  {
    (idx.depart - idx.arrival) as real / 5.0
  }

  /** The intake profile: rates from the split and the indices, and the sampled bell. */
  function ProfileOf(split: Split, idx: Indices, bell: seq<real>): Profile
  {
    Profile(idx.start, idx.arrival, idx.depart, idx.rg,
            GuardedRate(split.pre, idx.arrival - idx.start),
            GuardedRate(split.post, idx.rg - idx.depart),
            bell, Sum(bell), split.truck)
  }

  /** Everything one run hands to the chart and the metrics row. */
  datatype Report = Report(
    weeks: seq<int>, idx: Indices, split: Split, profile: Profile,
    data: seq<Step>, verdict: Verdict, headline: Headline)

  /** What one run computes once the four dates are resolved to idx on weeks. */
  function Run(inp: Inputs, weeks: seq<int>, idx: Indices, pdf: Density): Report
    requires idx.rg < |weeks|
  {
    var split := SplitScope(inp.totalScope as real, inp.prePct, inp.postPct);
    var profile := ProfileOf(split, idx, Bell(|weeks|, Center(idx), Spread(idx), pdf));
    var data := Simulation(Intake(profile), Capacity(inp));
    var missed := data[idx.rg].backlog;
    Report(weeks, idx, split, profile, data, Judge(missed), HeadlineOf(missed))
  }

  /** What one run computes, as a value. */
  function Plan(inp: Inputs, pdf: Density): Result<Report, DateMismatch>
  {
    var weeks := Weeks(inp);
    match Resolve(weeks, inp)
    case Err(e) => Err(e)
    case Ok(idx) => Ok(Run(inp, weeks, idx, pdf))
  }

  /** The script's engine, step by step. */
  method RunForecast(inp: Inputs, pdf: Density) returns (r: Result<Report, DateMismatch>)
    ensures r == Plan(inp, pdf)
  {
    var earliest := Earliest(inp);
    var start := StartWeek(earliest);
    var latest := Latest(inp);
    var weeksToShow := WeeksToShow(start, latest);
    var weeks := GenerateTimeline(start, weeksToShow);
    assert weeks == Weeks(inp);

    var resolved := Resolve(weeks, inp);
    if resolved.Err? {
      return Err(resolved.error);
    }
    var report := Compute(inp, weeks, resolved.value, pdf);
    r := Ok(report);
  }

  /** The engine after the dates are resolved: split, rates, bell, simulation and verdict. */
  method Compute(inp: Inputs, weeks: seq<int>, idx: Indices, pdf: Density) returns (rep: Report)
    requires idx.rg < |weeks|
    ensures rep == Run(inp, weeks, idx, pdf)
  {
    var capacity := Capacity(inp);
    var center := Center(idx);
    var sigma := Spread(idx);

    var split := SplitScope(inp.totalScope as real, inp.prePct, inp.postPct);
    var ratePre := GuardedRate(split.pre, idx.arrival - idx.start);
    var ratePost := GuardedRate(split.post, idx.rg - idx.depart);

    var rawBell := RawBell(|weeks|, center, sigma, pdf);
    var totalBell := Sum(rawBell);
    var profile := Profile(idx.start, idx.arrival, idx.depart, idx.rg,
                           ratePre, ratePost, rawBell, totalBell, split.truck);
    assert profile == ProfileOf(split, idx, Bell(|weeks|, center, sigma, pdf));
    var data := Simulate(profile, capacity);
    var missed := data[idx.rg].backlog;
    rep := Report(weeks, idx, split, profile, data, Judge(missed), HeadlineOf(missed));
  }

  /**
   * When the window starts on a week date, the run fails exactly when one of
   * work start, truck arrival, truck departure and RG is not a week date inside
   * the window; otherwise each index is the date's week distance from the
   * window start.
   */
  lemma ResolutionByOrdinal(inp: Inputs, pdf: Density)
    requires IsWeekDate(WindowStart(inp))
    ensures Plan(inp, pdf).Err? <==>
              !(OnWindow(inp, inp.workStart) && OnWindow(inp, inp.truckArrival) &&
                OnWindow(inp, inp.truckDeparture) && OnWindow(inp, inp.rg))
    ensures Plan(inp, pdf).Err? ==>
              Plan(inp, pdf).error == DateMismatch(WindowStart(inp), Advance(WindowStart(inp), WindowLength(inp) - 1))
    ensures Plan(inp, pdf).Ok? ==>
              var idx := Plan(inp, pdf).value.idx;
              var s := Ordinal(WindowStart(inp));
              idx.start == Ordinal(inp.workStart) - s && idx.arrival == Ordinal(inp.truckArrival) - s &&
              idx.depart == Ordinal(inp.truckDeparture) - s && idx.rg == Ordinal(inp.rg) - s
  {
    var start, n := WindowStart(inp), WindowLength(inp);
    LookupOnTimeline(start, n, inp.workStart);
    LookupOnTimeline(start, n, inp.truckArrival);
    LookupOnTimeline(start, n, inp.truckDeparture);
    LookupOnTimeline(start, n, inp.rg);
  }

  /**
   * With every date a week date, a truck that leaves no earlier than it
   * arrives, an RG deadline no earlier than the window's earliest date and a
   * work start no later than the latest date, the run succeeds, and every
   * resolved index leaves at least Buffer - 1 weeks of timeline after it
   * (index + Buffer <= length).
   */
  lemma InputsInsideWindow(inp: Inputs, pdf: Density)
    requires IsWeekDate(inp.workStart) && IsWeekDate(inp.truckArrival) && IsWeekDate(inp.truckDeparture)
    requires IsWeekDate(inp.rg) && IsWeekDate(inp.fdg) && IsWeekDate(inp.cBuild)
    requires inp.truckArrival <= inp.truckDeparture
    requires Earliest(inp) <= inp.rg
    requires inp.workStart <= Latest(inp)
    ensures Plan(inp, pdf).Ok?
    ensures var rep := Plan(inp, pdf).value;
            rep.idx.start + Buffer <= |rep.weeks| && rep.idx.arrival + Buffer <= |rep.weeks| &&
            rep.idx.depart + Buffer <= |rep.weeks| && rep.idx.rg + Buffer <= |rep.weeks|
  {
    var earliest, latest := Earliest(inp), Latest(inp);
    assert IsWeekDate(SentinelWeek);
    var start := StartWeek(earliest);
    WindowCovers(start, latest, inp.workStart);
    WindowCovers(start, latest, inp.truckArrival);
    WindowCovers(start, latest, inp.truckDeparture);
    WindowCovers(start, latest, inp.rg);
  }

  /**
   * With a non-negative scope, percentages that do not exceed the whole, a
   * non-negative capacity and a non-negative density, every week generates
   * non-negative work, sends between 0 and the capacity and leaves a
   * non-negative backlog.
   */
  lemma SeriesBounds(inp: Inputs, pdf: Density)
    requires inp.totalScope >= 0 && 0.0 <= inp.prePct && 0.0 <= inp.postPct && inp.prePct + inp.postPct <= 1.0
    requires Capacity(inp) >= 0.0
    requires forall x, m, s :: pdf(x, m, s) >= 0.0
    ensures Plan(inp, pdf).Ok? ==>
              var data := Plan(inp, pdf).value.data;
              forall k :: 0 <= k < |data| ==>
                data[k].gen >= 0.0 && 0.0 <= data[k].sent <= Capacity(inp) && data[k].backlog >= 0.0
  {
    if Plan(inp, pdf).Ok? {
      var rep := Plan(inp, pdf).value;
      var p := rep.profile;
      BellNonNegative(|rep.weeks|, Center(rep.idx), Spread(rep.idx), pdf);
      IntakeNonNegative(p);
      StepBounds(Intake(p), Capacity(inp));
    }
  }

  /**
   * Where the volume goes. Pre-work yields demand_pre plus one more week at
   * rate_pre, because rate_pre divides by dur_pre but is applied on
   * dur_pre + 1 weeks; post-work yields demand_post; the truck yields
   * demand_truck when its bell sums to something. A phase whose duration or
   * bell is empty yields nothing. So with all three phases active the run
   * generates total_scope + rate_pre, not total_scope.
   */
  lemma VolumeAccounting(inp: Inputs, pdf: Density)
    ensures Plan(inp, pdf).Ok? ==>
              var rep := Plan(inp, pdf).value;
              var durPre := rep.idx.arrival - rep.idx.start;
              var durPost := rep.idx.rg - rep.idx.depart;
              Sum(GenSeries(rep.data)) ==
                (if durPre > 0 then rep.split.pre + rep.profile.ratePre else 0.0) +
                (if durPost > 0 then rep.split.post else 0.0) +
                (if rep.profile.totalBell > 0.0 then rep.split.truck else 0.0)
    ensures Plan(inp, pdf).Ok? ==>
              var rep := Plan(inp, pdf).value;
              rep.idx.arrival > rep.idx.start && rep.idx.rg > rep.idx.depart && rep.profile.totalBell > 0.0 ==>
                Sum(GenSeries(rep.data)) == inp.totalScope as real + rep.profile.ratePre
  {
    if Plan(inp, pdf).Ok? {
      var rep := Plan(inp, pdf).value;
      RunVolume(inp, rep.weeks, rep.idx, pdf);
    }
  }

  lemma RunVolume(inp: Inputs, weeks: seq<int>, idx: Indices, pdf: Density)
    requires idx.start < |weeks| && idx.arrival < |weeks| && idx.depart < |weeks| && idx.rg < |weeks|
    ensures var rep := Run(inp, weeks, idx, pdf);
            Sum(GenSeries(rep.data)) ==
              (if idx.arrival > idx.start then rep.split.pre + rep.profile.ratePre else 0.0) +
              (if idx.rg > idx.depart then rep.split.post else 0.0) +
              (if rep.profile.totalBell > 0.0 then rep.split.truck else 0.0)
  {
    var rep := Run(inp, weeks, idx, pdf);
    assert GenSeries(rep.data) == Intake(rep.profile);
    IntakeTotal(rep.profile, rep.split.pre, rep.split.post);
  }

  /**
   * Raising the headcount or the per-person rate, everything else unchanged,
   * never raises the backlog at any week, never turns ON TARGET into MISSED
   * and never raises the amount missed.
   */
  lemma CapacityNeverHurts(inp: Inputs, seCount: int, ihPerSe: int, pdf: Density)
    requires Capacity(inp) <= Capacity(inp.(seCount := seCount, ihPerSe := ihPerSe))
    ensures var more := inp.(seCount := seCount, ihPerSe := ihPerSe);
            Plan(inp, pdf).Ok? <==> Plan(more, pdf).Ok?
    ensures var more := inp.(seCount := seCount, ihPerSe := ihPerSe);
            Plan(inp, pdf).Ok? ==>
              var before, after := Plan(inp, pdf).value, Plan(more, pdf).value;
              |after.data| == |before.data| &&
              (forall k :: 0 <= k < |after.data| ==> after.data[k].backlog <= before.data[k].backlog) &&
              (after.verdict.Missed? ==> before.verdict.Missed? && after.verdict.amount <= before.verdict.amount)
  {
    var more := inp.(seCount := seCount, ihPerSe := ihPerSe);
    SameResolution(inp, more);
    if Plan(inp, pdf).Ok? {
      var idx := Resolve(Weeks(inp), inp).value;
      RunCapacity(inp, more, Weeks(inp), idx, pdf);
    }
  }

  lemma RunCapacity(inp: Inputs, more: Inputs, weeks: seq<int>, idx: Indices, pdf: Density)
    requires more == inp.(seCount := more.seCount, ihPerSe := more.ihPerSe)
    requires Capacity(inp) <= Capacity(more)
    requires idx.rg < |weeks|
    ensures var before, after := Run(inp, weeks, idx, pdf), Run(more, weeks, idx, pdf);
            |after.data| == |before.data| &&
            (forall k :: 0 <= k < |after.data| ==> after.data[k].backlog <= before.data[k].backlog) &&
            (after.verdict.Missed? ==> before.verdict.Missed? && after.verdict.amount <= before.verdict.amount)
  {
    var before := Run(inp, weeks, idx, pdf);
    var gen := Intake(before.profile);
    assert Run(more, weeks, idx, pdf).profile == before.profile;
    CapacityMonotone(gen, Capacity(inp), Capacity(more));
    VerdictMonotone(gen, Capacity(inp), Capacity(more), idx.rg);
  }

  /** Headcount and rate take no part in the window or the date resolution. */
  lemma SameResolution(inp: Inputs, more: Inputs)
    requires more == inp.(seCount := more.seCount, ihPerSe := more.ihPerSe)
    ensures Weeks(more) == Weeks(inp)
    ensures Resolve(Weeks(more), more) == Resolve(Weeks(inp), inp)
  {
  }
}
