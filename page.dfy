/** The calculator page: the limits of the manual day-count form, the rules for
    adding a travel period to the list, removal by id, the day count shown for
    each period, and the component state those handlers update. */
module Page {
  import opened Calendar
  import opened Periods
  import opened Sorting
  import opened Spt
  import DateCalculator

  // ---------------------------------------------------------------------------
  // The manual day-count form

  /** The message for a day count out of range in `year`. */
  function RangeText(year: int): string {
    "Days must be between 0 and " + if IsLeapYear(year) then "366" else "365"
  }

  /** A field's value as `Number` reads it (None when it reads as NaN) lies in
      0..max. */
  predicate InBounds(v: Option<real>, max: int) {
    v.Some? && 0.0 <= v.value <= max as real
  }

  /** The errors validateManualInputs finds, by field name, each year checked against
      its own length. */
  function ManualInputErrors(taxYear: int, current: Option<real>, firstPrior: Option<real>,
                             secondPrior: Option<real>): (errs: map<string, string>)
    ensures "currentYearDays" in errs <==> !InBounds(current, DaysInYear(taxYear))
    ensures "firstPriorYearDays" in errs <==> !InBounds(firstPrior, DaysInYear(taxYear - 1))
    ensures "secondPriorYearDays" in errs <==> !InBounds(secondPrior, DaysInYear(taxYear - 2))
    ensures "currentYearDays" in errs ==> errs["currentYearDays"] == RangeText(taxYear)
    ensures "firstPriorYearDays" in errs ==> errs["firstPriorYearDays"] == RangeText(taxYear - 1)
    ensures "secondPriorYearDays" in errs ==> errs["secondPriorYearDays"] == RangeText(taxYear - 2)
    ensures forall k :: k in errs ==> k == "currentYearDays" || k == "firstPriorYearDays" || k == "secondPriorYearDays"
  {
    var e0: map<string, string> := map[];
    var e1 := if InBounds(current, DaysInYear(taxYear)) then e0
              else e0["currentYearDays" := RangeText(taxYear)];
    var e2 := if InBounds(firstPrior, DaysInYear(taxYear - 1)) then e1
              else e1["firstPriorYearDays" := RangeText(taxYear - 1)];
    if InBounds(secondPrior, DaysInYear(taxYear - 2)) then e2
    else e2["secondPriorYearDays" := RangeText(taxYear - 2)]
  }

  /** The manual input is accepted exactly when each count lies between 0 and the
      number of days of its own year. */
  lemma ManualInputAccepted(taxYear: int, current: Option<real>, firstPrior: Option<real>, secondPrior: Option<real>)
    ensures ManualInputErrors(taxYear, current, firstPrior, secondPrior) == map[]
        <==> && InBounds(current, DaysInYear(taxYear))
             && InBounds(firstPrior, DaysInYear(taxYear - 1))
             && InBounds(secondPrior, DaysInYear(taxYear - 2))
  {
    var errs := ManualInputErrors(taxYear, current, firstPrior, secondPrior);
    if errs != map[] {
      var k :| k in errs;
    }
  }

  /** 366 days are accepted for the leap year 2024 and refused for 2023. */
  lemma LeapYearLimitExample()
    ensures "currentYearDays" !in ManualInputErrors(2024, Some(366.0), Some(0.0), Some(0.0))
    ensures "firstPriorYearDays" in ManualInputErrors(2024, Some(0.0), Some(366.0), Some(0.0))
    ensures ManualInputErrors(2024, Some(0.0), Some(366.0), Some(0.0))["firstPriorYearDays"]
        == "Days must be between 0 and 365"
  {
  }

  // ---------------------------------------------------------------------------
  // Adding a period

  /** The add-period form: the two date inputs (None while empty) and the two
      checkboxes. */
  datatype PeriodForm = PeriodForm(newArrivalDate: Option<IsoDate>, newDepartureDate: Option<IsoDate>,
                                   noArrival: bool, noDeparture: bool)

  /** Ticking a checkbox empties its date input and disables it, so a ticked box
      comes with an empty input. */
  predicate FormConsistent(form: PeriodForm) {
    (form.noArrival ==> form.newArrivalDate.None?) && (form.noDeparture ==> form.newDepartureDate.None?)
  }

  const EmptyForm := PeriodForm(None, None, false, false)

  datatype AddError =
    | MissingArrival | MissingDeparture | ArrivalAfterDeparture | BothOpen
    | OpenArrivalNotEarliest | OpenDepartureNotLatest | Overlapping

  function ErrorMessage(e: AddError): string {
    match e
    case MissingArrival => "Please select an arrival date or check 'No arrival'"
    case MissingDeparture => "Please select a departure date or check 'No departure'"
    case ArrivalAfterDeparture => "Arrival date must be before departure date"
    case BothOpen => "Cannot have both 'No arrival' and 'No departure'"
    case OpenArrivalNotEarliest => "'No arrival' can only be used for the earliest period"
    case OpenDepartureNotLatest => "'No departure' can only be used for the latest period"
    case Overlapping => "This period overlaps with an existing period. Travel periods cannot overlap."
  }

  datatype AddResult = Rejected(error: AddError) | Added(ranges: seq<DateRange>)

  /** A listed period departs before the new departure. */
  predicate EarlierDeparture(r: DateRange, form: PeriodForm) {
    form.newDepartureDate.Some? && r.departureDate.Some?
    && DateKey(r.departureDate.value) < DateKey(form.newDepartureDate.value)
  }

  /** A listed period arrives after the new arrival. */
  predicate LaterArrival(r: DateRange, form: PeriodForm) {
    form.newArrivalDate.Some? && r.arrivalDate.Some?
    && DateKey(r.arrivalDate.value) > DateKey(form.newArrivalDate.value)
  }

  predicate HasEarlierDates(existing: seq<DateRange>, form: PeriodForm) {
    exists k :: 0 <= k < |existing| && EarlierDeparture(existing[k], form)
  }

  predicate HasLaterDates(existing: seq<DateRange>, form: PeriodForm) {
    exists k :: 0 <= k < |existing| && LaterArrival(existing[k], form)
  }

  /** A listed period overlaps the form's dates, by the intended test. */
  predicate ConflictsWith(r: DateRange, form: PeriodForm) {
    OverlapsCorrected(StartBound(form.newArrivalDate), EndBound(form.newDepartureDate),
                      StartBound(r.arrivalDate), EndBound(r.departureDate))
  }

  /** The same, by the test as the source writes it. */
  predicate ConflictsWithAsWritten(r: DateRange, form: PeriodForm) {
    Overlaps(StartBound(form.newArrivalDate), EndBound(form.newDepartureDate),
             StartBound(r.arrivalDate), EndBound(r.departureDate))
  }

  predicate HasOverlap(existing: seq<DateRange>, form: PeriodForm) {
    exists k :: 0 <= k < |existing| && ConflictsWith(existing[k], form)
  }

  predicate HasOverlapAsWritten(existing: seq<DateRange>, form: PeriodForm) {
    exists k :: 0 <= k < |existing| && ConflictsWithAsWritten(existing[k], form)
  }

  /** The period the form describes; the checkboxes decide which ends are open. */
  function NewPeriod(form: PeriodForm, id: string): DateRange {
    DateRange(id, if form.noArrival then None else form.newArrivalDate,
              if form.noDeparture then None else form.newDepartureDate)
  }

  /** Newest first: the period's arrival, else its departure, else the epoch, each at
      midnight; negated so that the ascending sort puts the latest first. */
  function DisplayKey(r: DateRange): int {
    -(match (r.arrivalDate, r.departureDate)
      case (Some(a), _) => DateKey(a)
      case (None, Some(d)) => DateKey(d)
      case (None, None) => EpochKey)
  }

  /** The validation chain of handleAddPeriod, checked in the source's order, and
      the list it then stores. */
  function AddPeriod(existing: seq<DateRange>, form: PeriodForm, freshId: string): (r: AddResult)
    ensures r.Added? <==>
      && (form.noArrival || form.newArrivalDate.Some?)
      && (form.noDeparture || form.newDepartureDate.Some?)
      && !(form.newArrivalDate.Some? && form.newDepartureDate.Some?
           && DateKey(form.newArrivalDate.value) > DateKey(form.newDepartureDate.value))
      && !(form.noArrival && form.noDeparture)
      && !(form.noArrival && HasEarlierDates(existing, form))
      && !(form.noDeparture && HasLaterDates(existing, form))
      && !HasOverlap(existing, form)
    ensures r.Added? ==> var p := NewPeriod(form, freshId);
      && (p.arrivalDate.Some? || p.departureDate.Some?)
      && (p.arrivalDate.Some? && p.departureDate.Some? ==>
            DateKey(p.arrivalDate.value) <= DateKey(p.departureDate.value))
      && (forall k :: 0 <= k < |existing| ==> !ConflictsWith(existing[k], form))
    ensures r.Rejected? && r.error == Overlapping ==>
      exists k :: 0 <= k < |existing| && ConflictsWith(existing[k], form)
  {
    if !form.noArrival && form.newArrivalDate.None? then Rejected(MissingArrival)
    else if !form.noDeparture && form.newDepartureDate.None? then Rejected(MissingDeparture)
    else if form.newArrivalDate.Some? && form.newDepartureDate.Some?
            && DateKey(form.newArrivalDate.value) > DateKey(form.newDepartureDate.value)
    then Rejected(ArrivalAfterDeparture)
    else if form.noArrival && form.noDeparture then Rejected(BothOpen)
    else if form.noArrival && |existing| > 0 && HasEarlierDates(existing, form) then Rejected(OpenArrivalNotEarliest)
    else if form.noDeparture && |existing| > 0 && HasLaterDates(existing, form) then Rejected(OpenDepartureNotLatest)
    else if HasOverlap(existing, form) then Rejected(Overlapping)
    else Added(SortBy(existing + [NewPeriod(form, freshId)], DisplayKey))
  }

  /** A successful add stores the old list and exactly one new period, newest first,
      periods with the same key keeping their order. */
  lemma AddPeriodStores(existing: seq<DateRange>, form: PeriodForm, freshId: string, k: int)
    requires AddPeriod(existing, form, freshId).Added?
    ensures var rs := AddPeriod(existing, form, freshId).ranges;
      && multiset(rs) == multiset(existing) + multiset{NewPeriod(form, freshId)}
      && SortedBy(rs, DisplayKey)
      && WithKey(rs, DisplayKey, k) == WithKey(existing + [NewPeriod(form, freshId)], DisplayKey, k)
  {
    var all := existing + [NewPeriod(form, freshId)];
    SortByPermutes(all, DisplayKey);
    SortBySorted(all, DisplayKey);
    SortByStable(all, DisplayKey, k);
  }

  // ---------------------------------------------------------------------------
  // The list keeps its periods apart

  /** Two listed periods do not overlap, by the intended test. */
  predicate Apart(p: DateRange, q: DateRange) {
    !OverlapsCorrected(StartBound(p.arrivalDate), EndBound(p.departureDate),
                       StartBound(q.arrivalDate), EndBound(q.departureDate))
  }

  lemma ApartSymmetric()
    ensures forall p, q :: Apart(p, q) == Apart(q, p)
  {
    forall p, q ensures Apart(p, q) == Apart(q, p) {
      OverlapsSymmetric(StartBound(p.arrivalDate), EndBound(p.departureDate),
                        StartBound(q.arrivalDate), EndBound(q.departureDate));
    }
  }

  /** Adding a period from a consistent form to a list of periods that are pairwise
      apart gives a list of periods that are pairwise apart. */
  lemma AddPeriodKeepsApart(existing: seq<DateRange>, form: PeriodForm, freshId: string)
    requires FormConsistent(form) && Pairwise(existing, Apart)
    requires AddPeriod(existing, form, freshId).Added?
    ensures Pairwise(AddPeriod(existing, form, freshId).ranges, Apart)
  {
    var p := NewPeriod(form, freshId);
    assert StartBound(p.arrivalDate) == StartBound(form.newArrivalDate);
    assert EndBound(p.departureDate) == EndBound(form.newDepartureDate);
    ApartSymmetric();
    assert AgreesWithAll(p, existing, Apart) by {
      forall k | 0 <= k < |existing| ensures Apart(p, existing[k]) && Apart(existing[k], p) {
        assert !ConflictsWith(existing[k], form);
      }
    }
    PairwiseAppend(existing, p, Apart);
    SortByPairwise(existing + [p], DisplayKey, Apart);
  }

  /** A stay from 1 June to 31 July 2024 cannot be added beside one covering all of
      2024. */
  lemma OverlapRejectedExample()
    ensures AddPeriod([DateRange("1", Some("2024-01-01"), Some("2024-12-31"))],
                      PeriodForm(Some("2024-06-01"), Some("2024-07-31"), false, false), "2")
            == Rejected(Overlapping)
  {
    var existing := [DateRange("1", Some("2024-01-01"), Some("2024-12-31"))];
    var form := PeriodForm(Some("2024-06-01"), Some("2024-07-31"), false, false);
    OverlapExampleKeys();
    assert ConflictsWith(existing[0], form);
    assert HasOverlap(existing, form);
  }

  lemma OverlapExampleKeys()
    ensures DateKey("2024-01-01") == 20240101 && DateKey("2024-12-31") == 20241231
    ensures DateKey("2024-06-01") == 20240601 && DateKey("2024-07-31") == 20240731
  {
  }

  /** A stay may begin on the day another ends. */
  lemma TurnaroundAcceptedExample()
    ensures AddPeriod([DateRange("1", Some("2024-01-01"), Some("2024-06-30"))],
                      PeriodForm(Some("2024-06-30"), Some("2024-12-31"), false, false), "2").Added?
  {
  }

  /** The written overlap test lets a one-day stay on 15 June 2024 join a stay
      covering all of 2024; the intended test refuses it. */
  lemma SingleDayAdmittedAsWritten()
    ensures var existing := [DateRange("1", Some("2024-01-01"), Some("2024-12-31"))];
      var form := PeriodForm(Some("2024-06-15"), Some("2024-06-15"), false, false);
      && !HasOverlapAsWritten(existing, form)
      && HasOverlap(existing, form)
  {
    var existing := [DateRange("1", Some("2024-01-01"), Some("2024-12-31"))];
    var form := PeriodForm(Some("2024-06-15"), Some("2024-06-15"), false, false);
    SingleDayInsideMissed(20240101, 20240615, 20241231);
    assert ConflictsWith(existing[0], form);
  }

  // ---------------------------------------------------------------------------
  // Removing a period

  /** removeDateRange: the entries whose id differs, in their order. */
  function RemoveById(ranges: seq<DateRange>, id: string): (rs: seq<DateRange>)
    ensures |rs| <= |ranges|
    ensures forall k :: 0 <= k < |rs| ==> rs[k].id != id
  {
    if ranges == [] then []
    else if ranges[0].id == id then RemoveById(ranges[1..], id)
    else [ranges[0]] + RemoveById(ranges[1..], id)
  }

  /** Removal keeps every entry with another id, as often as it was listed, and drops
      every entry with the id. */
  lemma {:induction false} RemoveByIdKeeps(ranges: seq<DateRange>, id: string, x: DateRange)
    ensures multiset(RemoveById(ranges, id))[x] == if x.id == id then 0 else multiset(ranges)[x]
    decreases |ranges|
  {
    if ranges != [] {
      RemoveByIdKeeps(ranges[1..], id, x);
      assert ranges == [ranges[0]] + ranges[1..];
    }
  }

  /** Removal from a list of one entry keeps it exactly when its id differs. */
  lemma RemoveByIdOne(x: DateRange, id: string)
    ensures RemoveById([x], id) == if x.id == id then [] else [x]
  {
    assert [x][1..] == [];
  }

  /** Removal works piece by piece: the kept entries of a list are the kept entries
      of its front followed by those of its back, so they stay in their order. */
  lemma {:induction false} RemoveByIdAppend(xs: seq<DateRange>, ys: seq<DateRange>, id: string)
    ensures RemoveById(xs + ys, id) == RemoveById(xs, id) + RemoveById(ys, id)
    decreases |xs|
  {
    if xs == [] {
      assert xs + ys == ys;
    } else {
      assert (xs + ys)[0] == xs[0] && (xs + ys)[1..] == xs[1..] + ys;
      RemoveByIdAppend(xs[1..], ys, id);
    }
  }

  /** Removing an id no entry has changes nothing. */
  lemma {:induction false} RemoveAbsentId(ranges: seq<DateRange>, id: string)
    requires forall k :: 0 <= k < |ranges| ==> ranges[k].id != id
    ensures RemoveById(ranges, id) == ranges
    decreases |ranges|
  {
    if ranges != [] {
      RemoveAbsentId(ranges[1..], id);
      assert ranges == [ranges[0]] + ranges[1..];
    }
  }

  /** Removal keeps the periods of a list pairwise apart. */
  lemma {:induction false} RemoveKeepsApart(ranges: seq<DateRange>, id: string)
    requires Pairwise(ranges, Apart)
    ensures Pairwise(RemoveById(ranges, id), Apart)
    decreases |ranges|
  {
    if ranges != [] {
      var tail := ranges[1..];
      assert Pairwise(tail, Apart) by {
        forall i, j | 0 <= i < j < |tail| ensures Apart(tail[i], tail[j]) {
          assert tail[i] == ranges[i + 1] && tail[j] == ranges[j + 1];
        }
      }
      RemoveKeepsApart(tail, id);
      if ranges[0].id != id {
        var rest := RemoveById(tail, id);
        ApartSymmetric();
        assert AgreesWithAll(ranges[0], rest, Apart) by {
          forall k | 0 <= k < |rest| ensures Apart(ranges[0], rest[k]) && Apart(rest[k], ranges[0]) {
            RemoveByIdKeeps(tail, id, rest[k]);
            assert rest[k] in multiset(rest);
            assert rest[k] in multiset(tail);
            var m :| 0 <= m < |tail| && tail[m] == rest[k];
            assert ranges[m + 1] == rest[k];
          }
        }
        PairwiseCons(ranges[0], rest, Apart);
      }
    }
  }

  // ---------------------------------------------------------------------------
  // The day count shown for a period

  datatype DayCount = NotApplicable | Count(days: int)

  /** calculateDays: both dates read at noon UTC, so the difference is a whole
      number of days; "N/A" when either date is missing. */
  function CalculateDays(arrivalDate: Option<IsoDate>, departureDate: Option<IsoDate>): (r: DayCount)
    ensures r.Count? <==> arrivalDate.Some? && departureDate.Some?
  {
    match (arrivalDate, departureDate)
    case (Some(a), Some(d)) => Count(DayNumber(d) - DayNumber(a) + 1)
    case _ => NotApplicable
  }

  /** For a period in order, the count shown is the number of days the period
      covers, both ends included; it is at least one exactly when the period is in
      order. */
  lemma CalculateDaysCounts(a: IsoDate, d: IsoDate)
    requires IsCalendarDate(a) && IsCalendarDate(d)
    ensures DateKey(a) <= DateKey(d) ==> CalculateDays(Some(a), Some(d)).days == |Days(DayNumber(a), DayNumber(d))|
    ensures CalculateDays(Some(a), Some(d)).days >= 1 <==> DateKey(a) <= DateKey(d)
  {
    DateKeyOrder(a, d);
    DateKeyOrder(d, a);
    DaysCount(DayNumber(a), DayNumber(d));
  }

  // ---------------------------------------------------------------------------
  // The component

  /** The results panel: the test's result, the tax year, and the periods it was
      computed from when it came from the travel-period tab. */
  datatype Results = Results(spt: SptResult, taxYear: int, dateRanges: Option<seq<DateRange>>)

  const DateRangesRequired := "At least one travel period is required"

  /** The state of the calculator page that its handlers update. */
  class SptCalculator {
    var taxYear: int
    var errors: map<string, string>
    var dateRanges: seq<DateRange>
    var form: PeriodForm
    var addPeriodError: string
    var results: Option<Results>

    /** The form is consistent and the listed periods are pairwise apart. */
    predicate Valid()
      reads this
    {
      FormConsistent(form) && Pairwise(dateRanges, Apart)
    }

    /** The page opens on the year before the current one, with nothing entered. */
    constructor(currentYear: int)
      ensures Valid()
      ensures taxYear == currentYear - 1 && errors == map[] && dateRanges == []
      ensures form == EmptyForm && addPeriodError == "" && results == None
    {
      taxYear := currentYear - 1;
      errors := map[];
      dateRanges := [];
      form := EmptyForm;
      addPeriodError := "";
      results := None;
    }

    method HandleTaxYearChange(year: int)
      modifies this
      requires Valid()
      ensures Valid()
      ensures taxYear == year
      ensures errors == old(errors) && dateRanges == old(dateRanges) && form == old(form)
      ensures addPeriodError == old(addPeriodError) && results == old(results)
    {
      taxYear := year;
    }

    /** The "No arrival" checkbox: ticking it empties the arrival input. */
    method SetNoArrival(checked: bool)
      modifies this
      requires Valid()
      ensures Valid()
      ensures form == old(form).(noArrival := checked,
                                 newArrivalDate := if checked then None else old(form).newArrivalDate)
      ensures taxYear == old(taxYear) && errors == old(errors) && dateRanges == old(dateRanges)
      ensures addPeriodError == old(addPeriodError) && results == old(results)
    {
      form := form.(noArrival := checked);
      if checked {
        form := form.(newArrivalDate := None);
      }
    }

    /** The "No departure" checkbox: ticking it empties the departure input. */
    method SetNoDeparture(checked: bool)
      modifies this
      requires Valid()
      ensures Valid()
      ensures form == old(form).(noDeparture := checked,
                                 newDepartureDate := if checked then None else old(form).newDepartureDate)
      ensures taxYear == old(taxYear) && errors == old(errors) && dateRanges == old(dateRanges)
      ensures addPeriodError == old(addPeriodError) && results == old(results)
    {
      form := form.(noDeparture := checked);
      if checked {
        form := form.(newDepartureDate := None);
      }
    }

    /** The arrival input changes; it is disabled while "No arrival" is ticked. */
    method SetNewArrivalDate(date: Option<IsoDate>)
      modifies this
      requires Valid() && !form.noArrival
      ensures Valid()
      ensures form == old(form).(newArrivalDate := date)
      ensures taxYear == old(taxYear) && errors == old(errors) && dateRanges == old(dateRanges)
      ensures addPeriodError == old(addPeriodError) && results == old(results)
    {
      form := form.(newArrivalDate := date);
    }

    /** The departure input changes; it is disabled while "No departure" is ticked. */
    method SetNewDepartureDate(date: Option<IsoDate>)
      modifies this
      requires Valid() && !form.noDeparture
      ensures Valid()
      ensures form == old(form).(newDepartureDate := date)
      ensures taxYear == old(taxYear) && errors == old(errors) && dateRanges == old(dateRanges)
      ensures addPeriodError == old(addPeriodError) && results == old(results)
    {
      form := form.(newDepartureDate := date);
    }

    /** handleAddPeriod, with the new period's id given. A rejected period leaves
        the list and the form as they were and shows the reason; an accepted one is
        stored and the form is reset. */
    method HandleAddPeriod(freshId: string)
      modifies this
      requires Valid()
      ensures Valid()
      ensures match AddPeriod(old(dateRanges), old(form), freshId)
        case Rejected(e) => addPeriodError == ErrorMessage(e) && dateRanges == old(dateRanges) && form == old(form)
        case Added(rs) => addPeriodError == "" && dateRanges == rs && form == EmptyForm
      ensures taxYear == old(taxYear) && errors == old(errors) && results == old(results)
    {
      addPeriodError := "";
      var outcome := AddPeriod(dateRanges, form, freshId);
      match outcome
      case Rejected(e) =>
        addPeriodError := ErrorMessage(e);
      case Added(rs) =>
        AddPeriodKeepsApart(dateRanges, form, freshId);
        dateRanges := rs;
        form := EmptyForm;
    }

    /** removeDateRange */
    method RemoveDateRange(id: string)
      modifies this
      requires Valid()
      ensures Valid()
      ensures dateRanges == RemoveById(old(dateRanges), id)
      ensures taxYear == old(taxYear) && errors == old(errors) && form == old(form)
      ensures addPeriodError == old(addPeriodError) && results == old(results)
    {
      RemoveKeepsApart(dateRanges, id);
      dateRanges := RemoveById(dateRanges, id);
    }

    /** validateManualInputs: this run's errors are merged over the previous ones,
        and the input is accepted when this run found none. */
    method ValidateManualInputs(current: Option<real>, firstPrior: Option<real>, secondPrior: Option<real>)
      returns (ok: bool)
      modifies this
      requires Valid()
      ensures Valid()
      ensures errors == old(errors) + ManualInputErrors(taxYear, current, firstPrior, secondPrior)
      ensures ok <==> ManualInputErrors(taxYear, current, firstPrior, secondPrior) == map[]
      ensures taxYear == old(taxYear) && dateRanges == old(dateRanges) && form == old(form)
      ensures addPeriodError == old(addPeriodError) && results == old(results)
    {
      var newErrors := ManualInputErrors(taxYear, current, firstPrior, secondPrior);
      errors := errors + newErrors;
      ok := |newErrors| == 0;
    }

    /** validateDateRanges: an empty list is refused with an error; otherwise the
        error is cleared. */
    method ValidateDateRanges() returns (ok: bool)
      modifies this
      requires Valid()
      ensures Valid()
      ensures ok <==> dateRanges != []
      ensures errors == if ok then old(errors) - {"dateRanges"} else old(errors)["dateRanges" := DateRangesRequired]
      ensures taxYear == old(taxYear) && dateRanges == old(dateRanges) && form == old(form)
      ensures addPeriodError == old(addPeriodError) && results == old(results)
    {
      if |dateRanges| == 0 {
        errors := errors["dateRanges" := DateRangesRequired];
        ok := false;
      } else {
        errors := errors - {"dateRanges"};
        ok := true;
      }
    }

    /** handleManualSubmit: the test run on the three counts entered, once they are
        accepted. */
    method HandleManualSubmit(current: Option<real>, firstPrior: Option<real>, secondPrior: Option<real>)
      modifies this
      requires Valid()
      ensures Valid()
      ensures errors == old(errors) + ManualInputErrors(taxYear, current, firstPrior, secondPrior)
      ensures results == if ManualInputErrors(taxYear, current, firstPrior, secondPrior) == map[]
        then Some(Results(CalculateSpt(SptInput(current.value, firstPrior.value, secondPrior.value)), taxYear, None))
        else old(results)
      ensures taxYear == old(taxYear) && dateRanges == old(dateRanges) && form == old(form)
      ensures addPeriodError == old(addPeriodError)
    {
      var ok := ValidateManualInputs(current, firstPrior, secondPrior);
      if ok {
        ManualInputAccepted(taxYear, current, firstPrior, secondPrior);
        var result := CalculateSpt(SptInput(current.value, firstPrior.value, secondPrior.value));
        results := Some(Results(result, taxYear, None));
      }
    }

    /** handleDurationSubmit, with today's day number given: the days of each year
        are counted from the listed periods and the test is run on them. */
    method HandleDurationSubmit(today: int)
      modifies this
      requires Valid()
      ensures Valid()
      ensures errors == if dateRanges != [] then old(errors) - {"dateRanges"}
                        else old(errors)["dateRanges" := DateRangesRequired]
      ensures results == if dateRanges != []
        then var c := DateCalculator.Counts(dateRanges, taxYear, today);
          Some(Results(CalculateSpt(SptInput(c.currentYearDays as real, c.firstPriorYearDays as real,
                                             c.secondPriorYearDays as real)), taxYear, Some(dateRanges)))
        else old(results)
      ensures taxYear == old(taxYear) && dateRanges == old(dateRanges) && form == old(form)
      ensures addPeriodError == old(addPeriodError)
    {
      var ok := ValidateDateRanges();
      if ok {
        var counts := DateCalculator.CalculateDaysFromDateRanges(dateRanges, taxYear, today);
        var result := CalculateSpt(SptInput(counts.currentYearDays as real, counts.firstPriorYearDays as real,
                                            counts.secondPriorYearDays as real));
        results := Some(Results(result, taxYear, Some(dateRanges)));
      }
    }
  }
}
