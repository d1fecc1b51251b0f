// The YYWW calendar: a date is the integer year * 100 + week, on a scheme in
// which every year has exactly 52 weeks and week 52 is followed by week 1 of
// the next year. The script's window arithmetic and its timeline generator
// live here, with the lookup that resolves a date to its timeline position.
//
// The script divides by the positive constant 100 with Python's // and %,
// which floor; for a positive divisor that is exactly Dafny's Euclidean / and %.
module Calendar {
  import opened Util

  function Year(d: int): int { d / 100 }

  function Week(d: int): int { d % 100 }

  /** A date whose week lies in [1, 52]: the dates the timeline is made of. */
  predicate IsWeekDate(d: int) { 1 <= Week(d) <= 52 }

  /** Weeks elapsed since week 1 of year 0 on the 52-week calendar. */
  function Ordinal(d: int): int { Year(d) * 52 + Week(d) - 1 }

  lemma Digits(year: int, week: int)
    requires 0 <= week < 100
    ensures Year(year * 100 + week) == year && Week(year * 100 + week) == week
  {
    var d := year * 100 + week;
    assert d == Year(d) * 100 + Week(d);
    assert 100 * (Year(d) - year) == week - Week(d);
  }

  lemma Quotient52(q: int, r: int)
    requires 0 <= r < 52
    ensures (q * 52 + r) / 52 == q && (q * 52 + r) % 52 == r
  {
    var o := q * 52 + r;
    assert o == (o / 52) * 52 + o % 52;
    assert 52 * (o / 52 - q) == r - o % 52;
  }

  /** The week date with the given ordinal. */
  function FromOrdinal(o: int): (d: int)
    ensures IsWeekDate(d)
    ensures Ordinal(d) == o
  {
    Digits(o / 52, o % 52 + 1);
    (o / 52) * 100 + o % 52 + 1
  }

  lemma OrdinalRoundTrip(d: int)
    requires IsWeekDate(d)
    ensures FromOrdinal(Ordinal(d)) == d
  {
    Quotient52(Year(d), Week(d) - 1);
  }

  /** On week dates, the integer order of the encoding is the calendar order. */
  lemma OrdinalOrder(a: int, b: int)
    requires IsWeekDate(a) && IsWeekDate(b)
    ensures a <= b <==> Ordinal(a) <= Ordinal(b)
    ensures a == b <==> Ordinal(a) == Ordinal(b)
  {
    assert a == Year(a) * 100 + Week(a);
    assert b == Year(b) * 100 + Week(b);
    if Year(a) < Year(b) {
      assert Year(a) * 100 + 100 <= Year(b) * 100;
      assert Year(a) * 52 + 52 <= Year(b) * 52;
    } else if Year(b) < Year(a) {
      assert Year(b) * 100 + 100 <= Year(a) * 100;
      assert Year(b) * 52 + 52 <= Year(a) * 52;
    }
  }

  /** One step of the generator: week 52 (or any later week number) rolls over to week 1 of the next year. */
  function NextWeek(d: int): (r: int)
    ensures d < r
    ensures IsWeekDate(r)
    ensures IsWeekDate(d) ==> Ordinal(r) == Ordinal(d) + 1
  {
    var year := Year(d);
    var week := Week(d);
    if week >= 52 then
      Digits(year + 1, 1);
      (year + 1) * 100 + 1
    else
      Digits(year, week + 1);
      year * 100 + week + 1
  }

  /** The date k steps of the generator after d. */
  function Advance(d: int, k: nat): int
  {
    if k == 0 then d else NextWeek(Advance(d, k - 1))
  }

  /** The timeline of n entries starting at start, entry i being Advance(start, i). */
  function Timeline(start: int, n: nat): seq<int>
  {
    seq(n, i requires 0 <= i < n => Advance(start, i))
  }

  lemma {:induction false} AdvanceOrdinal(start: int, k: nat)
    requires IsWeekDate(start)
    ensures IsWeekDate(Advance(start, k))
    ensures Ordinal(Advance(start, k)) == Ordinal(start) + k
  {
    if k > 0 {
      AdvanceOrdinal(start, k - 1);
    }
  }

  /** Closed form: from a week date, k steps land on the date whose ordinal is k further on. */
  lemma AdvanceClosedForm(start: int, k: nat)
    requires IsWeekDate(start)
    ensures Advance(start, k) == FromOrdinal(Ordinal(start) + k)
    ensures Year(Advance(start, k)) == (Ordinal(start) + k) / 52
    ensures Week(Advance(start, k)) == (Ordinal(start) + k) % 52 + 1
  {
    AdvanceOrdinal(start, k);
    OrdinalRoundTrip(Advance(start, k));
    var o := Ordinal(start) + k;
    Digits(o / 52, o % 52 + 1);
  }

  lemma {:induction false} AdvanceIncreasing(start: int, i: nat, j: nat)
    requires i < j
    ensures Advance(start, i) < Advance(start, j)
  {
    if i < j - 1 {
      AdvanceIncreasing(start, i, j - 1);
    }
  }

  /** What the generator promises of the timeline it builds. */
  lemma TimelineShape(start: int, n: nat)
    ensures n > 0 ==> Timeline(start, n)[0] == start
    ensures forall i :: 1 <= i < n ==> Timeline(start, n)[i] == NextWeek(Timeline(start, n)[i - 1])
    ensures forall i :: 1 <= i < n ==> IsWeekDate(Timeline(start, n)[i])
    ensures forall i, j :: 0 <= i < j < n ==> Timeline(start, n)[i] < Timeline(start, n)[j]
    ensures IsWeekDate(start) ==>
              forall i :: 0 <= i < n ==>
                IsWeekDate(Timeline(start, n)[i]) && Ordinal(Timeline(start, n)[i]) == Ordinal(start) + i
  {
    var t := Timeline(start, n);
    forall i, j | 0 <= i < j < n
      ensures t[i] < t[j]
    {
      AdvanceIncreasing(start, i, j);
    }
    if IsWeekDate(start) {
      forall i | 0 <= i < n
        ensures IsWeekDate(t[i]) && Ordinal(t[i]) == Ordinal(start) + i
      {
        AdvanceOrdinal(start, i);
      }
    }
  }

  /** generate_yyww_timeline: emit the current date, then advance it one week, duration times. */
  method GenerateTimeline(start: int, duration: int) returns (timeline: seq<int>)
    ensures |timeline| == if duration > 0 then duration else 0
    ensures timeline == Timeline(start, |timeline|)
  {
    timeline := [];
    var current := start;
    var k := 0;
    while k < duration
      invariant 0 <= k <= (if duration > 0 then duration else 0)
      invariant |timeline| == k
      invariant forall i {:trigger timeline[i]} :: 0 <= i < k ==> timeline[i] == Advance(start, i)
      invariant current == Advance(start, k)
    {
      timeline := timeline + [current];
      var year := current / 100;
      var week := current % 100;
      if week >= 52 {
        year := year + 1;
        week := 1;
      } else {
        week := week + 1;
      }
      current := year * 100 + week;
      k := k + 1;
    }
    assert forall i :: 0 <= i < |timeline| ==> timeline[i] == Timeline(start, |timeline|)[i];
  }

  /** The first position of d in t (pandas' `df[df['Week'] == d].index[0]`), None when d is absent. */
  function FindIndex(t: seq<int>, d: int): (r: Option<nat>)
    ensures r.None? <==> d !in t
    ensures r.Some? ==> r.value < |t| && t[r.value] == d && d !in t[..r.value]
  {
    if |t| == 0 then None
    else if t[0] == d then Some(0)
    else match FindIndex(t[1..], d)
      case None => None
      case Some(k) =>
        assert t[..k + 1] == [t[0]] + t[1..][..k];
        Some(k + 1)
  }

  /**
   * On a timeline that starts at a week date, d is found exactly when it is a
   * week date within the window, and its index is
   * (Year(d) - Year(start)) * 52 + Week(d) - Week(start).
   */
  lemma LookupOnTimeline(start: int, n: nat, d: int)
    requires IsWeekDate(start)
    ensures FindIndex(Timeline(start, n), d).Some? <==>
              IsWeekDate(d) && 0 <= Ordinal(d) - Ordinal(start) < n
    ensures FindIndex(Timeline(start, n), d).Some? ==>
              FindIndex(Timeline(start, n), d).value
                == (Year(d) - Year(start)) * 52 + Week(d) - Week(start)
  {
    var t := Timeline(start, n);
    var k := Ordinal(d) - Ordinal(start);
    if IsWeekDate(d) && 0 <= k < n {
      AdvanceOrdinal(start, k);
      OrdinalOrder(t[k], d);
      assert d in t;
    }
    match FindIndex(t, d)
    case None =>
    case Some(j) =>
      AdvanceOrdinal(start, j);
  }

  /** start_week: two weeks before the earliest date, or week 50 of the previous year when that would cross a year. */
  function StartWeek(earliest: int): (s: int)
    ensures s < earliest
    ensures Week(earliest) <= 2 ==> Year(s) == Year(earliest) - 1 && Week(s) == 50
    ensures IsWeekDate(earliest) ==> IsWeekDate(s)
    ensures IsWeekDate(earliest) ==>
              Ordinal(earliest) - Ordinal(s) == if Week(earliest) <= 2 then Week(earliest) + 2 else 2
  {
    if earliest % 100 <= 2 then
      Digits(Year(earliest) - 1, 50);
      ((earliest / 100) - 1) * 100 + 50
    else
      Digits(Year(earliest), Week(earliest) - 2);
      earliest - 2
  }

  /** The 15 weeks the window adds beyond the latest date's distance from its start. */
  const Buffer: nat := 15

  /** The shortest window the script ever draws. */
  const MinWeeks: nat := 60

  /** weeks_to_show: the year-and-week distance from start to latest plus the buffer, but never under 60. */
  function WeeksToShow(start: int, latest: int): (n: int)
    ensures n >= MinWeeks
    ensures n >= Ordinal(latest) - Ordinal(start) + Buffer
    ensures n == MinWeeks || n == Ordinal(latest) - Ordinal(start) + Buffer
  {
    var endYearDiff := Year(latest) - Year(start);
    var endWeekDiff := Week(latest) - Week(start);
    var totalDuration := endYearDiff * 52 + endWeekDiff + 15;
    if 60 >= totalDuration then 60 else totalDuration
  }

  /** Every week date from start up to latest is on the window, with at least Buffer - 1 entries after it (index + Buffer <= length). */
  lemma WindowCovers(start: int, latest: int, d: int)
    requires IsWeekDate(start) && IsWeekDate(latest) && IsWeekDate(d)
    requires start <= d <= latest
    ensures var t := Timeline(start, WeeksToShow(start, latest));
            FindIndex(t, d).Some? && FindIndex(t, d).value + Buffer <= |t|
  {
    OrdinalOrder(start, d);
    OrdinalOrder(d, latest);
    LookupOnTimeline(start, WeeksToShow(start, latest), d);
  }
}
