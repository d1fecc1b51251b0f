// The demand allocator: total scope is split into a pre-work ramp before the
// truck, a post-work ramp between the truck's departure and the RG deadline,
// and the truck's own volume, spread over the timeline by a bell curve
// normalised by its own sampled sum.
//
// The bell curve is scipy's normal density, which is foreign floating-point
// code; here it is a parameter `pdf`, read as pdf(x, mean, spread).
module Demand {
  import opened Util

  type Density = (int, real, real) -> real

  datatype Split = Split(pre: real, post: real, truck: real)

  /** demand_pre, demand_post and demand_truck. */
  function SplitScope(totalScope: real, prePct: real, postPct: real): (s: Split)
    ensures s.pre + s.post + s.truck == totalScope
    ensures s.pre == totalScope * prePct && s.post == totalScope * postPct
    ensures 0.0 <= totalScope && 0.0 <= prePct && 0.0 <= postPct && prePct + postPct <= 1.0 ==>
              0.0 <= s.pre && 0.0 <= s.post && 0.0 <= s.truck
  {
    var pre := totalScope * prePct;
    var post := totalScope * postPct;
    assert totalScope - (pre + post) == totalScope * (1.0 - prePct - postPct);
    Split(pre, post, totalScope - (pre + post))
  }

  /** rate_pre and rate_post: a volume spread evenly over a duration, and 0 when the duration is not positive. */
  function GuardedRate(demand: real, duration: int): (r: real)
    ensures duration <= 0 ==> r == 0.0
    ensures duration > 0 ==> r * duration as real == demand
    ensures demand >= 0.0 ==> r >= 0.0
  {
    if duration > 0 then demand / duration as real else 0.0
  }

  /** raw_bell as a value: the density sampled at every index, or 0 everywhere when the spread is not positive. */
  function Bell(n: nat, center: real, sigma: real, pdf: Density): seq<real>
  {
    seq(n, i requires 0 <= i < n => if sigma > 0.0 then pdf(i, center, sigma) else 0.0)
  }

  /** The raw_bell loop. */
  method RawBell(n: nat, center: real, sigma: real, pdf: Density) returns (rawBell: seq<real>)
    ensures rawBell == Bell(n, center, sigma, pdf)
  {
    rawBell := [];
    var i := 0;
    while i < n
      invariant 0 <= i <= n
      invariant rawBell == Bell(i, center, sigma, pdf)
    {
      var prob := if sigma > 0.0 then pdf(i, center, sigma) else 0.0;
      rawBell := rawBell + [prob];
      i := i + 1;
    }
  }

  lemma BellNonNegative(n: nat, center: real, sigma: real, pdf: Density)
    requires forall x, m, s :: pdf(x, m, s) >= 0.0
    ensures forall i :: 0 <= i < n ==> Bell(n, center, sigma, pdf)[i] >= 0.0
    ensures Sum(Bell(n, center, sigma, pdf)) >= 0.0
  {
    SumNonNegative(Bell(n, center, sigma, pdf));
  }

  /** A collapsed or inverted truck window gives a bell that sums to 0. */
  lemma FlatBell(n: nat, center: real, sigma: real, pdf: Density)
    requires sigma <= 0.0
    ensures Sum(Bell(n, center, sigma, pdf)) == 0.0
  {
    SumOfZeros(Bell(n, center, sigma, pdf));
  }

  /** Everything the intake loop needs, by timeline index. */
  datatype Profile = Profile(
    startIdx: int, arrivalIdx: int, departIdx: int, rgIdx: int,
    ratePre: real, ratePost: real,
    bell: seq<real>, totalBell: real, demandTruck: real)

  /** Pre-work: rate_pre on start_idx .. arrival_idx inclusive. */
  function PreAt(p: Profile, i: int): real
  {
    if p.startIdx <= i <= p.arrivalIdx then p.ratePre else 0.0
  }

  /** Post-work: rate_post after the departure, up to and including the RG week. */
  function PostAt(p: Profile, i: int): real
  {
    if p.departIdx < i <= p.rgIdx then p.ratePost else 0.0
  }

  /** Truck: the bell's share at i of demand_truck, omitted when the bell sums to nothing. */
  function TruckAt(p: Profile, i: int): real
    requires 0 <= i < |p.bell|
  {
    if p.totalBell > 0.0 then (p.bell[i] / p.totalBell) * p.demandTruck else 0.0
  }

  /**
   * `arriving` at index i: it starts at 0 and receives the pre-work rate, the
   * post-work rate and the truck's share, each when its condition holds.
   */
  function Arriving(p: Profile, i: int): (r: real)
    requires 0 <= i < |p.bell|
    ensures !(p.startIdx <= i <= p.arrivalIdx) && !(p.departIdx < i <= p.rgIdx) ==> r == TruckAt(p, i)
    ensures !(p.startIdx <= i <= p.arrivalIdx) && !(p.departIdx < i <= p.rgIdx) && p.totalBell <= 0.0 ==> r == 0.0
    ensures p.ratePre >= 0.0 && p.ratePost >= 0.0 && p.demandTruck >= 0.0 && p.bell[i] >= 0.0 ==> r >= 0.0
  {
    PreAt(p, i) + PostAt(p, i) + TruckAt(p, i)
  }

  /** The generated work (Gen) at every timeline index. */
  function Intake(p: Profile): seq<real>
  {
    seq(|p.bell|, i requires 0 <= i < |p.bell| => Arriving(p, i))
  }

  function PreSeries(p: Profile): seq<real>
  {
    seq(|p.bell|, i requires 0 <= i < |p.bell| => PreAt(p, i))
  }

  function PostSeries(p: Profile): seq<real>
  {
    seq(|p.bell|, i requires 0 <= i < |p.bell| => PostAt(p, i))
  }

  function TruckSeries(p: Profile): seq<real>
  {
    seq(|p.bell|, i requires 0 <= i < |p.bell| => TruckAt(p, i))
  }

  /** With non-negative rates, truck volume and bell, no index generates negative work. */
  lemma IntakeNonNegative(p: Profile)
    requires p.ratePre >= 0.0 && p.ratePost >= 0.0 && p.demandTruck >= 0.0
    requires forall i :: 0 <= i < |p.bell| ==> p.bell[i] >= 0.0
    ensures forall i :: 0 <= i < |p.bell| ==> Intake(p)[i] >= 0.0
  {
    forall i | 0 <= i < |p.bell|
      ensures TruckAt(p, i) >= 0.0
    {
      if p.totalBell > 0.0 {
        assert p.bell[i] / p.totalBell >= 0.0;
      }
    }
  }

  /** The intake is the sum of its three phases. */
  lemma IntakeSplits(p: Profile)
    ensures Sum(Intake(p)) == Sum(PreSeries(p)) + Sum(PostSeries(p)) + Sum(TruckSeries(p))
  {
    SumOfThree(PreSeries(p), PostSeries(p), TruckSeries(p), Intake(p));
  }

  /**
   * Pre-work delivers rate_pre on every index of start_idx .. arrival_idx that
   * lies on the timeline: dur_pre + 1 indices when both ends are on it.
   */
  lemma PreWorkTotal(p: Profile)
    ensures Sum(PreSeries(p)) == p.ratePre * Overlap(p.startIdx, p.arrivalIdx, |p.bell|) as real
    ensures 0 <= p.startIdx <= p.arrivalIdx < |p.bell| ==>
              Sum(PreSeries(p)) == p.ratePre * (p.arrivalIdx - p.startIdx + 1) as real
  {
    SumOfWindow(PreSeries(p), p.startIdx, p.arrivalIdx, p.ratePre);
  }

  /** Post-work delivers rate_post on depart_idx + 1 .. rg_idx: dur_post indices when both ends are on the timeline. */
  lemma PostWorkTotal(p: Profile)
    ensures Sum(PostSeries(p)) == p.ratePost * Overlap(p.departIdx + 1, p.rgIdx, |p.bell|) as real
    ensures 0 <= p.departIdx <= p.rgIdx < |p.bell| ==>
              Sum(PostSeries(p)) == p.ratePost * (p.rgIdx - p.departIdx) as real
  {
    SumOfWindow(PostSeries(p), p.departIdx + 1, p.rgIdx, p.ratePost);
  }

  /**
   * Normalising the bell by its own sampled sum makes the truck's contributions
   * add up to exactly demand_truck, however the tails are cut by the window;
   * when the bell sums to nothing the truck contributes nothing.
   */
  lemma TruckVolumeConserved(p: Profile)
    requires p.totalBell == Sum(p.bell)
    ensures Sum(TruckSeries(p)) == if p.totalBell > 0.0 then p.demandTruck else 0.0
  {
    var t := TruckSeries(p);
    if p.totalBell > 0.0 {
      var c := p.demandTruck / p.totalBell;
      forall i | 0 <= i < |t|
        ensures t[i] == p.bell[i] * c
      {
        assert t[i] == (p.bell[i] / p.totalBell) * p.demandTruck;
      }
      SumScaled(p.bell, t, c);
      assert Sum(p.bell) * c == p.demandTruck;
    } else {
      SumOfZeros(t);
    }
  }

  /** With rate_pre from GuardedRate, pre-work yields demand_pre + rate_pre when dur_pre > 0, and nothing otherwise. */
  lemma PreWorkVolume(p: Profile, demandPre: real)
    requires 0 <= p.startIdx < |p.bell| && 0 <= p.arrivalIdx < |p.bell|
    requires p.ratePre == GuardedRate(demandPre, p.arrivalIdx - p.startIdx)
    ensures Sum(PreSeries(p)) == if p.arrivalIdx > p.startIdx then demandPre + p.ratePre else 0.0
  {
    PreWorkTotal(p);
    var dur := p.arrivalIdx - p.startIdx;
    if dur > 0 {
      var d := dur as real;
      assert (dur + 1) as real == d + 1.0;
      assert p.ratePre * (d + 1.0) == p.ratePre * d + p.ratePre;
    }
  }

  /** With rate_post from GuardedRate, post-work yields demand_post when dur_post > 0, and nothing otherwise. */
  lemma PostWorkVolume(p: Profile, demandPost: real)
    requires 0 <= p.departIdx < |p.bell| && 0 <= p.rgIdx < |p.bell|
    requires p.ratePost == GuardedRate(demandPost, p.rgIdx - p.departIdx)
    ensures Sum(PostSeries(p)) == if p.rgIdx > p.departIdx then demandPost else 0.0
  {
    PostWorkTotal(p);
  }

  /**
   * The total generated work of a profile whose rates come from GuardedRate
   * and whose indices are on the timeline: pre-work contributes
   * demand_pre + rate_pre when dur_pre > 0, post-work demand_post when
   * dur_post > 0, and the truck demand_truck when its bell sums to something.
   */
  lemma IntakeTotal(p: Profile, demandPre: real, demandPost: real)
    requires 0 <= p.startIdx < |p.bell| && 0 <= p.arrivalIdx < |p.bell|
    requires 0 <= p.departIdx < |p.bell| && 0 <= p.rgIdx < |p.bell|
    requires p.ratePre == GuardedRate(demandPre, p.arrivalIdx - p.startIdx)
    requires p.ratePost == GuardedRate(demandPost, p.rgIdx - p.departIdx)
    requires p.totalBell == Sum(p.bell)
    ensures Sum(Intake(p)) ==
              (if p.arrivalIdx > p.startIdx then demandPre + p.ratePre else 0.0) +
              (if p.rgIdx > p.departIdx then demandPost else 0.0) +
              (if p.totalBell > 0.0 then p.demandTruck else 0.0)
  {
    IntakeSplits(p);
    PreWorkVolume(p, demandPre);
    PostWorkVolume(p, demandPost);
    TruckVolumeConserved(p);
  }
}
