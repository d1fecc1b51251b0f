// The backlog simulator: a single queue with a fixed weekly capacity. Each
// week the pool is what arrives plus what was left over; the team sends at
// most the capacity and the rest is carried to the next week.
module Backlog {
  import opened Util
  import opened Demand

  /** One row of the simulation output: Index, Gen, Sent, Backlog. */
  datatype Step = Step(index: nat, gen: real, sent: real, backlog: real)

  /** One week: pool = arriving + backlog, sent = min(pool, max_capacity), backlog = pool - sent. */
  function Process(index: nat, arriving: real, backlog: real, capacity: real): (s: Step)
    ensures s.index == index && s.gen == arriving
    ensures s.sent + s.backlog == arriving + backlog
    ensures s.backlog == Max(0.0, arriving + backlog - capacity)
    ensures s.sent <= capacity && s.sent <= arriving + backlog
    ensures arriving + backlog >= 0.0 && capacity >= 0.0 ==> s.sent >= 0.0 && s.backlog >= 0.0
  {
    var pool := arriving + backlog;
    var sent := Min(pool, capacity);
    Step(index, arriving, sent, pool - sent)
  }

  /** The backlog carried into the next week: 0 before the first one. */
  function Carried(data: seq<Step>): real
  {
    if |data| == 0 then 0.0 else data[|data| - 1].backlog
  }

  /** The rows the loop produces for the generated series gen. */
  function Simulation(gen: seq<real>, capacity: real): (data: seq<Step>)
    ensures |data| == |gen|
    ensures forall k :: 0 <= k < |gen| ==> data[k].index == k && data[k].gen == gen[k]
    decreases |gen|
  {
    if |gen| == 0 then []
    else
      var before := Simulation(gen[..|gen| - 1], capacity);
      before + [Process(|gen| - 1, gen[|gen| - 1], Carried(before), capacity)]
  }

  function GenSeries(data: seq<Step>): seq<real>
  {
    seq(|data|, k requires 0 <= k < |data| => data[k].gen)
  }

  function SentSeries(data: seq<Step>): seq<real>
  {
    seq(|data|, k requires 0 <= k < |data| => data[k].sent)
  }

  /** The simulation loop: builds each week's arriving work and folds the backlog through it. */
  method Simulate(p: Profile, capacity: real) returns (data: seq<Step>)
    ensures data == Simulation(Intake(p), capacity)
  {
    ghost var gen := Intake(p);
    data := [];
    var backlog := 0.0;
    var i := 0;
    while i < |p.bell|
      invariant 0 <= i <= |p.bell|
      invariant data == Simulation(gen[..i], capacity)
      invariant backlog == Carried(data)
    {
      var arriving := Arriving(p, i);

      var pool := arriving + backlog;
      var sent := Min(pool, capacity);
      backlog := pool - sent;
      SimulationExtends(gen, capacity, i);
      data := data + [Step(i, arriving, sent, backlog)];
      i := i + 1;
    }
    assert gen[..i] == gen;
  }

  /** One more week of the series adds exactly one processed row. */
  lemma SimulationExtends(gen: seq<real>, capacity: real, i: nat)
    requires i < |gen|
    ensures var before := Simulation(gen[..i], capacity);
            Simulation(gen[..i + 1], capacity) == before + [Process(i, gen[i], Carried(before), capacity)]
  {
    assert gen[..i + 1][..i] == gen[..i];
  }

  /** Running the simulation on a prefix of the series gives the prefix of the rows. */
  lemma {:induction false} SimulationPrefix(gen: seq<real>, capacity: real, k: nat)
    requires k <= |gen|
    ensures Simulation(gen, capacity)[..k] == Simulation(gen[..k], capacity)
    decreases |gen|
  {
    if k < |gen| {
      var n := |gen| - 1;
      SimulationPrefix(gen[..n], capacity, k);
      assert gen[..n][..k] == gen[..k];
    } else {
      assert gen[..k] == gen;
    }
  }

  /** Row k is one week of processing applied to the backlog carried out of row k - 1 (0 for the first row). */
  lemma StepRecurrence(gen: seq<real>, capacity: real, k: nat)
    requires k < |gen|
    ensures var data := Simulation(gen, capacity);
            data[k] == Process(k, gen[k], if k == 0 then 0.0 else data[k - 1].backlog, capacity)
  {
    var data := Simulation(gen, capacity);
    SimulationPrefix(gen, capacity, k + 1);
    SimulationPrefix(gen, capacity, k);
    assert gen[..k + 1][..k] == gen[..k];
    assert data[..k + 1] == data[..k] + [data[k]];
  }

  /**
   * With non-negative arrivals and capacity, every week sends between 0 and the
   * capacity and leaves a non-negative backlog.
   */
  lemma {:induction false} StepBounds(gen: seq<real>, capacity: real)
    requires capacity >= 0.0
    requires forall k :: 0 <= k < |gen| ==> gen[k] >= 0.0
    ensures forall k :: 0 <= k < |gen| ==>
              0.0 <= Simulation(gen, capacity)[k].sent <= capacity &&
              Simulation(gen, capacity)[k].backlog >= 0.0
    decreases |gen|
  {
    if |gen| > 0 {
      StepBounds(gen[..|gen| - 1], capacity);
    }
  }

  /** Volume is conserved: everything generated so far was either sent or is still in the backlog. */
  lemma {:induction false} Conservation(gen: seq<real>, capacity: real)
    ensures var data := Simulation(gen, capacity);
            Sum(gen) == Sum(SentSeries(data)) + Carried(data)
    decreases |gen|
  {
    if |gen| > 0 {
      var n := |gen| - 1;
      var data := Simulation(gen, capacity);
      var before := Simulation(gen[..n], capacity);
      Conservation(gen[..n], capacity);
      assert SentSeries(data)[..n] == SentSeries(before);
    }
  }

  /** Conservation holds after every week, not only at the end. */
  lemma CumulativeConservation(gen: seq<real>, capacity: real, k: nat)
    requires k <= |gen|
    ensures var data := Simulation(gen, capacity);
            Sum(gen[..k]) == Sum(SentSeries(data[..k])) + Carried(data[..k])
  {
    SimulationPrefix(gen, capacity, k);
    Conservation(gen[..k], capacity);
  }

  /** A larger capacity never leaves a larger backlog, at any week. */
  lemma {:induction false} CapacityMonotone(gen: seq<real>, small: real, large: real)
    requires small <= large
    ensures forall k :: 0 <= k < |gen| ==>
              Simulation(gen, large)[k].backlog <= Simulation(gen, small)[k].backlog
    decreases |gen|
  {
    if |gen| > 0 {
      CapacityMonotone(gen[..|gen| - 1], small, large);
    }
  }

  /** When every week's arrivals fit within the capacity, everything is sent the week it arrives. */
  lemma {:induction false} AmpleCapacity(gen: seq<real>, capacity: real)
    requires forall k :: 0 <= k < |gen| ==> 0.0 <= gen[k] <= capacity
    ensures forall k :: 0 <= k < |gen| ==>
              Simulation(gen, capacity)[k].backlog == 0.0 && Simulation(gen, capacity)[k].sent == gen[k]
    decreases |gen|
  {
    if |gen| > 0 {
      AmpleCapacity(gen[..|gen| - 1], capacity);
    }
  }
}
