// The deadline verdict: the backlog left at the RG week decides whether the
// RG milestone is missed. The chart and the metrics row read the same value
// with different thresholds.
module Deadline {
  import opened Backlog

  /** The chart's annotation at the RG week. */
  datatype Verdict = OnTarget | Missed(amount: real)

  /** The third metric of the metrics row. */
  datatype Headline = Success | MissedAtRg(amount: real)

  /** The chart says MISSED, with the backlog as its amount, only when more than one item is left at RG. */
  function Judge(missed: real): (v: Verdict)
    ensures v.Missed? <==> missed > 1.0
    ensures v.Missed? ==> v.amount == missed
  {
    if missed > 1.0 then Missed(missed) else OnTarget
  }

  /**
   * The metrics row reports a miss as soon as anything is left at RG. It never
   * reports Success when the chart says MISSED, but a backlog in (0, 1] is
   * ON TARGET on the chart and a miss in the metrics row.
   */
  function HeadlineOf(missed: real): (h: Headline)
    ensures h.MissedAtRg? <==> missed > 0.0
    ensures h.MissedAtRg? ==> h.amount == missed
    ensures Judge(missed).Missed? ==> h == MissedAtRg(missed)
    ensures (Judge(missed) == OnTarget && h.MissedAtRg?) <==> 0.0 < missed <= 1.0
  {
    if missed > 0.0 then MissedAtRg(missed) else Success
  }

  /**
   * With the same generated work, a larger capacity never turns an ON TARGET
   * verdict into MISSED and never raises the amount missed.
   */
  lemma VerdictMonotone(gen: seq<real>, small: real, large: real, rgIdx: nat)
    requires small <= large
    requires rgIdx < |gen|
    ensures Judge(Simulation(gen, large)[rgIdx].backlog).Missed? ==>
              Judge(Simulation(gen, small)[rgIdx].backlog).Missed? &&
              Judge(Simulation(gen, large)[rgIdx].backlog).amount
                <= Judge(Simulation(gen, small)[rgIdx].backlog).amount
  {
    CapacityMonotone(gen, small, large);
  }

  /** When every week's work fits within the capacity, the RG week is always ON TARGET and the metric is Success. */
  lemma AmpleCapacityOnTarget(gen: seq<real>, capacity: real, rgIdx: nat)
    requires forall k :: 0 <= k < |gen| ==> 0.0 <= gen[k] <= capacity
    requires rgIdx < |gen|
    ensures Judge(Simulation(gen, capacity)[rgIdx].backlog) == OnTarget
    ensures HeadlineOf(Simulation(gen, capacity)[rgIdx].backlog) == Success
  {
    AmpleCapacity(gen, capacity);
  }
}
