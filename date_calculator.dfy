/** The day reconciler: per-year day counts from a list of travel periods, each
    calendar day counted once however many periods cover it.

    The source remembers counted days in a Set of "year-month-day" keys shared by
    every call of its helper. A key names one calendar day of the window it was
    made for, so the set here holds the days themselves (as `DayNumber` ordinals),
    passed into the helper and handed back with the newly counted days added. */
module DateCalculator {
  import opened Calendar
  import opened Periods

  datatype DayCounts = DayCounts(currentYearDays: nat, firstPriorYearDays: nat, secondPriorYearDays: nat)

  /** `new Date(`${year}-01-01`)` */
  function WindowStart(year: int): int {
    Ordinal(year, 1, 1)
  }

  /** `new Date(`${year}-12-31`)` */
  function WindowEnd(year: int): int {
    Ordinal(year, 12, 31)
  }

  function MaxInt(a: int, b: int): int {
    if a < b then b else a
  }

  function MinInt(a: int, b: int): int {
    if a < b then a else b
  }

  /** The first and last day a period stands for once its open ends are filled in:
      a missing arrival is 1 January of the second prior year, a missing departure
      is today or 31 December of the tax year, whichever is earlier. A period with
      neither date stands for nothing. */
  function ResolveOpenEnds(r: DateRange, taxYear: int, today: int): Option<(int, int)> {
    match (r.arrivalDate, r.departureDate)
    case (None, None) => None
    case (None, Some(d)) => Some((WindowStart(taxYear - 2), DayNumber(d)))
    case (Some(a), None) => Some((DayNumber(a), MinInt(today, WindowEnd(taxYear))))
    case (Some(a), Some(d)) => Some((DayNumber(a), DayNumber(d)))
  }

  /** The resolved day range of every period, in list order. */
  function ResolvedRanges(ranges: seq<DateRange>, taxYear: int, today: int): (ivs: seq<Option<(int, int)>>)
    ensures |ivs| == |ranges|
  {
    if ranges == [] then []
    else ResolvedRanges(ranges[..|ranges| - 1], taxYear, today) + [ResolveOpenEnds(ranges[|ranges| - 1], taxYear, today)]
  }

  lemma {:induction false} ResolvedAt(ranges: seq<DateRange>, taxYear: int, today: int, i: int)
    requires 0 <= i < |ranges|
    ensures ResolvedRanges(ranges, taxYear, today)[i] == ResolveOpenEnds(ranges[i], taxYear, today)
    decreases |ranges|
  {
    if i < |ranges| - 1 {
      ResolvedAt(ranges[..|ranges| - 1], taxYear, today, i);
    }
  }

  /** Day x lies in the resolved range iv. */
  predicate InRange(iv: Option<(int, int)>, x: int) {
    iv.Some? && iv.value.0 <= x <= iv.value.1
  }

  /** Some resolved range covers day x. */
  predicate CoveredBy(ivs: seq<Option<(int, int)>>, x: int) {
    exists i :: 0 <= i < |ivs| && InRange(ivs[i], x)
  }

  /** The days of lo..hi covered by some resolved range. */
  function CoveredDays(ivs: seq<Option<(int, int)>>, lo: int, hi: int): set<int> {
    set x | lo <= x <= hi && CoveredBy(ivs, x)
  }

  /** The days of year `year` on which some period has the person present. */
  function PresentDays(ranges: seq<DateRange>, taxYear: int, today: int, year: int): set<int> {
    CoveredDays(ResolvedRanges(ranges, taxYear, today), WindowStart(year), WindowEnd(year))
  }

  /** What the reconciler is meant to compute: for each of the three years, the
      number of distinct days of that year covered by some period. */
  function Counts(ranges: seq<DateRange>, taxYear: int, today: int): DayCounts {
    DayCounts(|PresentDays(ranges, taxYear, today, taxYear)|,
              |PresentDays(ranges, taxYear, today, taxYear - 1)|,
              |PresentDays(ranges, taxYear, today, taxYear - 2)|)
  }

  /** The days one resolved range contributes to lo..hi: the range clipped to it. */
  function Clipped(iv: Option<(int, int)>, lo: int, hi: int): set<int> {
    match iv
    case None => {}
    case Some((a, d)) => Days(MaxInt(a, lo), MinInt(d, hi))
  }

  // ---------------------------------------------------------------------------
  // The two routines

  /** countDaysInRangeWithoutDuplicates: walks the days of arrival..departure that
      fall in yearStart..yearEnd and counts those not counted before. */
  method CountDaysInRangeWithoutDuplicates(arrival: int, departure: int, yearStart: int, yearEnd: int,
                                           countedDays: set<int>)
    returns (daysCount: nat, countedAfter: set<int>)
    ensures countedAfter == countedDays + Days(MaxInt(arrival, yearStart), MinInt(departure, yearEnd))
    ensures daysCount == |Days(MaxInt(arrival, yearStart), MinInt(departure, yearEnd)) - countedDays|
  {
    if departure < yearStart || arrival > yearEnd {
      DaysEmpty(MaxInt(arrival, yearStart), MinInt(departure, yearEnd));
      return 0, countedDays;
    }
    var effectiveArrival := MaxInt(arrival, yearStart);
    var effectiveDeparture := MinInt(departure, yearEnd);
    daysCount, countedAfter := 0, countedDays;
    var currentDate := effectiveArrival;
    DaysEmpty(effectiveArrival, currentDate - 1);
    while currentDate <= effectiveDeparture
      invariant effectiveArrival <= currentDate
      invariant currentDate <= effectiveDeparture + 1 || currentDate == effectiveArrival
      invariant Walked(effectiveArrival, currentDate, countedDays, daysCount, countedAfter)
      decreases effectiveDeparture - currentDate
    {
      daysCount, countedAfter := CountDay(effectiveArrival, currentDate, countedDays, daysCount, countedAfter);
      currentDate := currentDate + 1;
    }
    WalkDone(effectiveArrival, effectiveDeparture, currentDate, Days(effectiveArrival, currentDate - 1));
  }

  /** What the day walk keeps true: the walked days lo..day-1 have all been added to
      the set, and the counter holds those of them that were not in it before. */
  predicate Walked(lo: int, day: int, countedDays: set<int>, daysCount: nat, countedAfter: set<int>) {
    && countedAfter == countedDays + Days(lo, day - 1)
    && daysCount == |Days(lo, day - 1) - countedDays|
  }

  /** One turn of the day walk: the day is counted and added unless it was counted
      already. */
  method CountDay(lo: int, day: int, countedDays: set<int>, daysCount: nat, countedAfter: set<int>)
    returns (countAfter: nat, setAfter: set<int>)
    requires lo <= day
    requires Walked(lo, day, countedDays, daysCount, countedAfter)
    ensures Walked(lo, day + 1, countedDays, countAfter, setAfter)
  {
    NextDay(lo, day, countedDays, Days(lo, day - 1), countedAfter);
    countAfter, setAfter := daysCount, countedAfter;
    if day !in countedAfter {
      countAfter := countAfter + 1;
      setAfter := setAfter + {day};
    }
  }

  /** What the reconciler's loop keeps true: each year's counter is the number of
      days of that year covered by the ranges seen so far, and the set of counted
      days is the union of those days over the three years. */
  predicate Tally(seen: seq<Option<(int, int)>>, lo0: int, hi0: int, lo1: int, hi1: int, lo2: int, hi2: int,
                  n0: nat, n1: nat, n2: nat, countedDays: set<int>)
  {
    && n0 == |CoveredDays(seen, lo0, hi0)|
    && n1 == |CoveredDays(seen, lo1, hi1)|
    && n2 == |CoveredDays(seen, lo2, hi2)|
    && countedDays == CoveredDays(seen, lo0, hi0) + CoveredDays(seen, lo1, hi1) + CoveredDays(seen, lo2, hi2)
  }

  /** One turn of the reconciler's loop: a period with neither date is skipped;
      otherwise its open ends are filled in and its days are counted in the current
      year, then the first prior year, then the second prior year, each day only if
      it has not been counted before. */
  method CountPeriod(range: DateRange, taxYear: int, today: int,
                     lo0: int, hi0: int, lo1: int, hi1: int, lo2: int, hi2: int,
                     n0: nat, n1: nat, n2: nat, countedDays: set<int>, ghost seen: seq<Option<(int, int)>>)
    returns (m0: nat, m1: nat, m2: nat, countedAfter: set<int>)
    requires hi2 < lo1 <= hi1 < lo0
    requires Tally(seen, lo0, hi0, lo1, hi1, lo2, hi2, n0, n1, n2, countedDays)
    ensures Tally(seen + [ResolveOpenEnds(range, taxYear, today)], lo0, hi0, lo1, hi1, lo2, hi2,
                  m0, m1, m2, countedAfter)
  {
    var resolved := ResolveOpenEnds(range, taxYear, today);
    ghost var p0, p1, p2 := CoveredDays(seen, lo0, hi0), CoveredDays(seen, lo1, hi1), CoveredDays(seen, lo2, hi2);
    CoveredAppend(seen, resolved, lo0, hi0);
    CoveredAppend(seen, resolved, lo1, hi1);
    CoveredAppend(seen, resolved, lo2, hi2);
    if resolved.None? {
      return n0, n1, n2, countedDays;
    }
    var (arrival, departure) := resolved.value;
    ghost var c0 := Days(MaxInt(arrival, lo0), MinInt(departure, hi0));
    ghost var c1 := Days(MaxInt(arrival, lo1), MinInt(departure, hi1));
    ghost var c2 := Days(MaxInt(arrival, lo2), MinInt(departure, hi2));
    ThreeWindows(p0, p1, p2, c0, c1, c2, lo0, hi0, lo1, hi1, lo2, hi2);
    var added0, added1, added2;
    added0, countedAfter := CountDaysInRangeWithoutDuplicates(arrival, departure, lo0, hi0, countedDays);
    added1, countedAfter := CountDaysInRangeWithoutDuplicates(arrival, departure, lo1, hi1, countedAfter);
    added2, countedAfter := CountDaysInRangeWithoutDuplicates(arrival, departure, lo2, hi2, countedAfter);
    m0, m1, m2 := n0 + added0, n1 + added1, n2 + added2;
  }

  /** calculateDaysFromDateRanges, with today's date as a parameter. */
  method CalculateDaysFromDateRanges(dateRanges: seq<DateRange>, taxYear: int, today: int)
    returns (counts: DayCounts)
    ensures counts == Counts(dateRanges, taxYear, today)
  {
    var currentYearDays, firstPriorYearDays, secondPriorYearDays := 0, 0, 0;
    var currentYearStart, currentYearEnd := WindowStart(taxYear), WindowEnd(taxYear);
    var firstPriorYearStart, firstPriorYearEnd := WindowStart(taxYear - 1), WindowEnd(taxYear - 1);
    var secondPriorYearStart, secondPriorYearEnd := WindowStart(taxYear - 2), WindowEnd(taxYear - 2);
    WindowsApart(taxYear);
    var countedDays: set<int> := {};
    NothingCovered(currentYearStart, currentYearEnd);
    NothingCovered(firstPriorYearStart, firstPriorYearEnd);
    NothingCovered(secondPriorYearStart, secondPriorYearEnd);
    var i := 0;
    while i < |dateRanges|
      invariant 0 <= i <= |dateRanges|
      invariant Tally(ResolvedRanges(dateRanges[..i], taxYear, today),
                      currentYearStart, currentYearEnd, firstPriorYearStart, firstPriorYearEnd,
                      secondPriorYearStart, secondPriorYearEnd,
                      currentYearDays, firstPriorYearDays, secondPriorYearDays, countedDays)
    {
      assert dateRanges[..i + 1][..i] == dateRanges[..i];
      currentYearDays, firstPriorYearDays, secondPriorYearDays, countedDays :=
        CountPeriod(dateRanges[i], taxYear, today, currentYearStart, currentYearEnd,
                    firstPriorYearStart, firstPriorYearEnd, secondPriorYearStart, secondPriorYearEnd,
                    currentYearDays, firstPriorYearDays, secondPriorYearDays, countedDays,
                    ResolvedRanges(dateRanges[..i], taxYear, today));
      i := i + 1;
    }
    assert dateRanges[..i] == dateRanges;
    counts := DayCounts(currentYearDays, firstPriorYearDays, secondPriorYearDays);
  }

  // ---------------------------------------------------------------------------
  // Helper lemmas for the loop

  /** The three windows lie one after the other, separated from each other. */
  lemma WindowsApart(taxYear: int)
    ensures WindowEnd(taxYear - 2) < WindowStart(taxYear - 1)
    ensures WindowEnd(taxYear - 1) < WindowStart(taxYear)
    ensures WindowStart(taxYear - 1) <= WindowEnd(taxYear - 1)
  {
    YearBounds(taxYear - 2);
    YearBounds(taxYear - 1);
    YearBounds(taxYear);
  }

  lemma NothingCovered(lo: int, hi: int)
    ensures CoveredDays([], lo, hi) == {}
  {
  }

  /** Taking one more range into account adds exactly its clipped days. */
  lemma CoveredAppend(seen: seq<Option<(int, int)>>, iv: Option<(int, int)>, lo: int, hi: int)
    ensures CoveredDays(seen + [iv], lo, hi) == CoveredDays(seen, lo, hi) + Clipped(iv, lo, hi)
    ensures CoveredDays(seen, lo, hi) <= Days(lo, hi) && Clipped(iv, lo, hi) <= Days(lo, hi)
    ensures iv.None? ==> CoveredDays(seen + [iv], lo, hi) == CoveredDays(seen, lo, hi)
  {
    var after := seen + [iv];
    forall x | lo <= x <= hi
      ensures CoveredBy(after, x) <==> CoveredBy(seen, x) || InRange(iv, x)
    {
      if CoveredBy(after, x) {
        var j :| 0 <= j < |after| && InRange(after[j], x);
        if j < |seen| {
          assert seen[j] == after[j];
        }
      }
      if CoveredBy(seen, x) {
        var j :| 0 <= j < |seen| && InRange(seen[j], x);
        assert after[j] == seen[j];
      }
      if InRange(iv, x) {
        assert after[|seen|] == iv;
      }
    }
  }

  /** When the walk stops it has covered the whole run, or none of it when the run
      is reversed. */
  lemma WalkDone(lo: int, hi: int, day: int, walked: set<int>)
    requires lo <= day && hi < day && (day <= hi + 1 || day == lo)
    requires walked == Days(lo, day - 1)
    ensures walked == Days(lo, hi)
  {
    if day == lo {
      DaysEmpty(lo, hi);
      DaysEmpty(lo, day - 1);
    }
  }

  /** One more day of the walk: it extends the walked run, and it is new to the
      count exactly when it was not counted before the walk began. */
  lemma NextDay(lo: int, day: int, countedDays: set<int>, walked: set<int>, countedAfter: set<int>)
    requires lo <= day
    requires walked == Days(lo, day - 1) && countedAfter == countedDays + walked
    ensures walked + {day} == Days(lo, day)
    ensures (day in countedAfter) == (day in countedDays)
    ensures day in countedAfter ==> countedAfter == countedDays + (walked + {day})
    ensures day !in countedAfter ==> countedAfter + {day} == countedDays + (walked + {day})
    ensures |(walked + {day}) - countedDays|
         == |walked - countedDays| + (if day in countedDays then 0 else 1)
  {
    DaysExtend(lo, day - 1);
    if day in countedDays {
      assert (walked + {day}) - countedDays == walked - countedDays;
    } else {
      assert (walked + {day}) - countedDays == (walked - countedDays) + {day};
    }
  }

  /** Sets drawn from two runs of days that lie apart are disjoint. */
  lemma RunsDisjoint(a: set<int>, b: set<int>, lo1: int, hi1: int, lo2: int, hi2: int)
    requires a <= Days(lo1, hi1) && b <= Days(lo2, hi2) && hi1 < lo2
    ensures a !! b
  {
    forall x | x in a ensures x !in b {
      assert x in Days(lo1, hi1);
    }
  }

  /** Counting one window's new days against the days counted in all three windows
      is counting them against that window's own days: the windows lie apart. */
  lemma ThreeWindows(p0: set<int>, p1: set<int>, p2: set<int>, c0: set<int>, c1: set<int>, c2: set<int>,
                     lo0: int, hi0: int, lo1: int, hi1: int, lo2: int, hi2: int)
    requires p0 <= Days(lo0, hi0) && c0 <= Days(lo0, hi0)
    requires p1 <= Days(lo1, hi1) && c1 <= Days(lo1, hi1)
    requires p2 <= Days(lo2, hi2) && c2 <= Days(lo2, hi2)
    requires hi2 < lo1 <= hi1 < lo0
    ensures |p0 + c0| == |p0| + |c0 - (p0 + p1 + p2)|
    ensures |p1 + c1| == |p1| + |c1 - (p0 + p1 + p2 + c0)|
    ensures |p2 + c2| == |p2| + |c2 - (p0 + p1 + p2 + c0 + c1)|
    ensures p0 + p1 + p2 + c0 + c1 + c2 == (p0 + c0) + (p1 + c1) + (p2 + c2)
  {
    var q0, q1, q2 := p0 + c0, p1 + c1, p2 + c2;
    assert q0 <= Days(lo0, hi0) && q1 <= Days(lo1, hi1) && q2 <= Days(lo2, hi2);
    RunsDisjoint(q1, q0, lo1, hi1, lo0, hi0);
    RunsDisjoint(q2, q0, lo2, hi2, lo0, hi0);
    RunsDisjoint(q2, q1, lo2, hi2, lo1, hi1);
    assert c0 - (p0 + p1 + p2) == c0 - p0;
    assert c1 - (p0 + p1 + p2 + c0) == c1 - p1;
    assert c2 - (p0 + p1 + p2 + c0 + c1) == c2 - p2;
    NewPart(p0, c0);
    NewPart(p1, c1);
    NewPart(p2, c2);
  }

  lemma NewPart(p: set<int>, c: set<int>)
    ensures |p + c| == |p| + |c - p|
  {
    assert p + c == p + (c - p);
  }

  // ---------------------------------------------------------------------------
  // What the counts mean

  /** A day is covered exactly when some period of the list, with its open ends
      filled in, contains it: the position of a period in the list plays no part. */
  lemma {:induction false} CoveredByMeaning(ranges: seq<DateRange>, taxYear: int, today: int, x: int)
    ensures CoveredBy(ResolvedRanges(ranges, taxYear, today), x)
        <==> exists r :: r in ranges && InRange(ResolveOpenEnds(r, taxYear, today), x)
  {
    var ivs := ResolvedRanges(ranges, taxYear, today);
    if CoveredBy(ivs, x) {
      var i :| 0 <= i < |ivs| && InRange(ivs[i], x);
      ResolvedAt(ranges, taxYear, today, i);
      assert ranges[i] in ranges;
    }
    if exists r :: r in ranges && InRange(ResolveOpenEnds(r, taxYear, today), x) {
      var r :| r in ranges && InRange(ResolveOpenEnds(r, taxYear, today), x);
      var i :| 0 <= i < |ranges| && ranges[i] == r;
      ResolvedAt(ranges, taxYear, today, i);
      assert InRange(ivs[i], x);
    }
  }

  /** The counts depend only on which periods the list holds: reordering the list,
      or repeating a period in it, changes nothing. */
  lemma CountsOrderIndependent(a: seq<DateRange>, b: seq<DateRange>, taxYear: int, today: int)
    requires forall r :: r in a <==> r in b
    ensures Counts(a, taxYear, today) == Counts(b, taxYear, today)
  {
    forall year, x | x in PresentDays(a, taxYear, today, year) || x in PresentDays(b, taxYear, today, year)
      ensures x in PresentDays(a, taxYear, today, year) && x in PresentDays(b, taxYear, today, year)
    {
      CoveredByMeaning(a, taxYear, today, x);
      CoveredByMeaning(b, taxYear, today, x);
    }
    assert forall year :: PresentDays(a, taxYear, today, year) == PresentDays(b, taxYear, today, year);
  }

  /** Appending a period adds exactly its days in the year, with its open ends
      filled in and clipped to the year. */
  lemma PresentDaysAppend(ranges: seq<DateRange>, r: DateRange, taxYear: int, today: int, year: int)
    ensures PresentDays(ranges + [r], taxYear, today, year)
         == PresentDays(ranges, taxYear, today, year)
            + Clipped(ResolveOpenEnds(r, taxYear, today), WindowStart(year), WindowEnd(year))
  {
    assert (ranges + [r])[..|ranges|] == ranges;
    CoveredAppend(ResolvedRanges(ranges, taxYear, today), ResolveOpenEnds(r, taxYear, today),
                  WindowStart(year), WindowEnd(year));
  }

  /** A period with neither an arrival nor a departure date counts for nothing. */
  lemma NoDatesCountsNothing(ranges: seq<DateRange>, id: string, taxYear: int, today: int)
    ensures Counts(ranges + [DateRange(id, None, None)], taxYear, today) == Counts(ranges, taxYear, today)
  {
    var r := DateRange(id, None, None);
    PresentDaysAppend(ranges, r, taxYear, today, taxYear);
    PresentDaysAppend(ranges, r, taxYear, today, taxYear - 1);
    PresentDaysAppend(ranges, r, taxYear, today, taxYear - 2);
  }

  /** No year counts more days than it has: at most 366 in a leap year, 365 otherwise. */
  lemma CountsBounded(ranges: seq<DateRange>, taxYear: int, today: int)
    ensures Counts(ranges, taxYear, today).currentYearDays <= DaysInYear(taxYear)
    ensures Counts(ranges, taxYear, today).firstPriorYearDays <= DaysInYear(taxYear - 1)
    ensures Counts(ranges, taxYear, today).secondPriorYearDays <= DaysInYear(taxYear - 2)
  {
    PresentDaysBounded(ranges, taxYear, today, taxYear);
    PresentDaysBounded(ranges, taxYear, today, taxYear - 1);
    PresentDaysBounded(ranges, taxYear, today, taxYear - 2);
  }

  lemma PresentDaysBounded(ranges: seq<DateRange>, taxYear: int, today: int, year: int)
    ensures |PresentDays(ranges, taxYear, today, year)| <= DaysInYear(year)
  {
    var present, all := PresentDays(ranges, taxYear, today, year), Days(WindowStart(year), WindowEnd(year));
    assert present <= all;
    assert all == present + (all - present);
    YearBounds(year);
    YearLength(year);
    DaysCount(WindowStart(year), WindowEnd(year));
  }

  /** A period without an arrival date counts in each of the three years from that
      year's first day: it stands for a stay that began before the records do. */
  lemma OpenArrival(r: DateRange, taxYear: int, today: int, year: int)
    requires r.arrivalDate.None? && r.departureDate.Some?
    requires taxYear - 2 <= year <= taxYear
    ensures Clipped(ResolveOpenEnds(r, taxYear, today), WindowStart(year), WindowEnd(year))
         == Days(WindowStart(year), MinInt(DayNumber(r.departureDate.value), WindowEnd(year)))
  {
    YearBounds(taxYear - 2);
    YearBounds(year);
    YearStartMonotone(taxYear - 2, year);
  }

  /** A period without a departure date counts as a stay that goes on until today,
      cut at the end of each year, and never beyond the end of the tax year. */
  lemma OpenDeparture(r: DateRange, taxYear: int, today: int, year: int)
    requires r.arrivalDate.Some? && r.departureDate.None?
    requires year <= taxYear
    ensures Clipped(ResolveOpenEnds(r, taxYear, today), WindowStart(year), WindowEnd(year))
         == Days(MaxInt(DayNumber(r.arrivalDate.value), WindowStart(year)), MinInt(today, WindowEnd(year)))
  {
    YearBounds(year);
    YearBounds(taxYear);
    YearStartMonotone(year + 1, taxYear + 1);
  }

  /** A period that ends before a year begins, or begins after it ends, or whose
      departure precedes its arrival, counts no day of that year. */
  lemma OutsideCountsNothing(r: DateRange, taxYear: int, today: int, year: int)
    requires ResolveOpenEnds(r, taxYear, today).Some?
    requires var (a, d) := ResolveOpenEnds(r, taxYear, today).value;
             d < WindowStart(year) || a > WindowEnd(year) || d < a
    ensures Clipped(ResolveOpenEnds(r, taxYear, today), WindowStart(year), WindowEnd(year)) == {}
  {
    var (a, d) := ResolveOpenEnds(r, taxYear, today).value;
    DaysEmpty(MaxInt(a, WindowStart(year)), MinInt(d, WindowEnd(year)));
  }

  // ---------------------------------------------------------------------------
  // Worked examples

  /** The day numbers of the dates the examples use. */
  lemma ExampleDays()
    ensures WindowStart(2022) == 738155 && WindowEnd(2022) == 738519
    ensures WindowStart(2023) == 738520 && WindowEnd(2023) == 738884
    ensures WindowStart(2024) == 738885 && WindowEnd(2024) == 739250
    ensures DayNumber("2024-01-01") == 738885 && DayNumber("2024-12-31") == 739250
    ensures DayNumber("2023-11-01") == 738824 && DayNumber("2024-02-01") == 738916
    ensures DayNumber("2024-06-30") == 739066
  {
  }

  /** A list of one period counts, in each year, that period's days in the year. */
  lemma SinglePeriod(r: DateRange, taxYear: int, today: int, a: int, d: int, year: int)
    requires ResolveOpenEnds(r, taxYear, today) == Some((a, d))
    ensures |PresentDays([r], taxYear, today, year)|
         == if MaxInt(a, WindowStart(year)) <= MinInt(d, WindowEnd(year))
            then MinInt(d, WindowEnd(year)) - MaxInt(a, WindowStart(year)) + 1 else 0
  {
    PresentDaysAppend([], r, taxYear, today, year);
    assert [] + [r] == [r];
    NothingCovered(WindowStart(year), WindowEnd(year));
    DaysCount(MaxInt(a, WindowStart(year)), MinInt(d, WindowEnd(year)));
  }

  /** One stay from 1 January to 31 December 2024 counts all 366 days of the leap
      year 2024 and none of the two years before. */
  lemma FullLeapYearExample(today: int)
    ensures Counts([DateRange("1", Some("2024-01-01"), Some("2024-12-31"))], 2024, today) == DayCounts(366, 0, 0)
  {
    var r := DateRange("1", Some("2024-01-01"), Some("2024-12-31"));
    ExampleDays();
    SinglePeriod(r, 2024, today, 738885, 739250, 2024);
    SinglePeriod(r, 2024, today, 738885, 739250, 2023);
    SinglePeriod(r, 2024, today, 738885, 739250, 2022);
  }

  /** A stay from 1 November 2023 to 1 February 2024 counts 32 days of 2024 and 61 of
      2023: each year counts only its own part of the stay. */
  lemma AcrossYearEndExample(today: int)
    ensures Counts([DateRange("1", Some("2023-11-01"), Some("2024-02-01"))], 2024, today) == DayCounts(32, 61, 0)
  {
    var r := DateRange("1", Some("2023-11-01"), Some("2024-02-01"));
    ExampleDays();
    SinglePeriod(r, 2024, today, 738824, 738916, 2024);
    SinglePeriod(r, 2024, today, 738824, 738916, 2023);
    SinglePeriod(r, 2024, today, 738824, 738916, 2022);
  }

  /** Two stays that meet on 30 June 2024, the day of departure and re-arrival,
      count that day once: together they make the 366 days of 2024. */
  lemma TurnaroundDayOnceExample(today: int)
    ensures Counts([DateRange("1", Some("2024-01-01"), Some("2024-06-30")),
                    DateRange("2", Some("2024-06-30"), Some("2024-12-31"))], 2024, today).currentYearDays == 366
  {
    TurnaroundDays(today);
    DaysCount(738885, 739250);
  }

  /** The two stays of `TurnaroundDayOnceExample` cover every day of 2024. */
  lemma TurnaroundDays(today: int)
    ensures PresentDays([DateRange("1", Some("2024-01-01"), Some("2024-06-30")),
                         DateRange("2", Some("2024-06-30"), Some("2024-12-31"))], 2024, today, 2024)
         == Days(738885, 739250)
  {
    var r1 := DateRange("1", Some("2024-01-01"), Some("2024-06-30"));
    var r2 := DateRange("2", Some("2024-06-30"), Some("2024-12-31"));
    ExampleDays();
    PresentDaysAppend([], r1, 2024, today, 2024);
    PresentDaysAppend([r1], r2, 2024, today, 2024);
    NothingCovered(738885, 739250);
    assert [] + [r1] == [r1] && [r1] + [r2] == [r1, r2];
    DaysJoin(738885, 739066, 739250);
  }
}
