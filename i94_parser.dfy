/** The I-94 travel-history reader: tab-separated records of arrivals and
    departures become travel periods, with warnings about records that do not pair
    up.

    Each record line is "row <TAB> date <TAB> Arrival|Departure <TAB> location". The
    reader keeps the well-formed records, orders them by date, pairs each arrival
    with the record that follows it, checks the periods for overlaps and returns
    them newest first. */
module I94Parser {
  import opened Calendar
  import opened Periods
  import opened Text
  import opened Sorting

  datatype EntryType = Arrival | Departure

  /** One travel record (its location column is not kept: nothing reads it). */
  datatype Entry = Entry(date: IsoDate, kind: EntryType)

  datatype Warning =
    | ConsecutiveArrivals(first: IsoDate, second: IsoDate)
    | DepartureWithoutArrival(date: IsoDate)
    | OverlappingPeriods(range1: Period, range2: Period)

  datatype ParseResult = ParseResult(dateRanges: seq<Period>, warnings: seq<Warning>)

  function KindName(kind: EntryType): string {
    match kind
    case Arrival => "Arrival"
    case Departure => "Departure"
  }

  /** formatRangeForWarning */
  function FormatRangeForWarning(range: Period): string {
    match (range.arrivalDate, range.departureDate)
    case (Some(a), Some(d)) => a + " to " + d
    case (Some(a), None) => a + " to present (no departure)"
    case (None, Some(d)) => "unknown arrival to " + d + " (no arrival)"
    case (None, None) => "invalid range"
  }

  /** The text of each warning, as the user reads it. */
  function WarningText(w: Warning): string {
    match w
    case ConsecutiveArrivals(a, b) =>
      "Found two consecutive arrivals without a departure in between: " + a + " and " + b
      + ". The first arrival has been treated as if you departed on the same day as the second arrival."
    case DepartureWithoutArrival(d) =>
      "Found a departure on " + d + " without a matching arrival. This may indicate missing data."
    case OverlappingPeriods(r1, r2) =>
      "Found overlapping travel periods: " + FormatRangeForWarning(r1) + " and " + FormatRangeForWarning(r2)
      + ". This may result in incorrect calculations."
  }

  // ---------------------------------------------------------------------------
  // Reading the records

  /** The header heuristic: a line beginning "Row", or mentioning "date" or "type"
      in any letter case, is taken for a header. */
  predicate LooksLikeHeader(line: string) {
    StartsWith(line, "Row") || Contains(Lower(line), "date") || Contains(Lower(line), "type")
  }

  /** One pass of the line loop: the record the line holds, if it is one. */
  function ParseLine(line: string): Option<Entry> {
    if LooksLikeHeader(line) then None
    else
      var parts := Split(line, '\t');
      if |parts| < 3 then None
      else
        var date, kind := Trim(parts[1]), Trim(parts[2]);
        if date == "" || !IsIsoPattern(date) then None
        else if kind == "Arrival" then Some(Entry(date, Arrival))
        else if kind == "Departure" then Some(Entry(date, Departure))
        else None
  }

  /** The records of the lines, in line order. */
  function Entries(lines: seq<string>): seq<Entry> {
    if lines == [] then []
    else
      Entries(lines[..|lines| - 1])
      + match ParseLine(lines[|lines| - 1]) { case Some(e) => [e] case None => [] }
  }

  /** The lines of the input: the input trimmed, then split at line feeds. */
  function Lines(data: string): seq<string> {
    Split(Trim(data), '\n')
  }

  /** The records are processed in date order (the sort is stable: records of one
      day keep their line order). */
  function EntryKey(e: Entry): int {
    DateKey(e.date)
  }

  function SortedEntries(data: string): seq<Entry> {
    SortBy(Entries(Lines(data)), EntryKey)
  }

  /** The loop over the lines. */
  method CollectEntries(lines: seq<string>) returns (entries: seq<Entry>)
    ensures entries == Entries(lines)
  {
    entries := [];
    var i := 0;
    while i < |lines|
      invariant 0 <= i <= |lines|
      invariant entries == Entries(lines[..i])
    {
      assert lines[..i + 1][..i] == lines[..i];
      var entry := ParseLine(lines[i]);
      if entry.Some? {
        entries := entries + [entry.value];
      }
      i := i + 1;
    }
    assert lines[..i] == lines;
  }

  // ---------------------------------------------------------------------------
  // Pairing

  /** A first record that is a departure stands for a stay that began before the
      records do. */
  function Lead(e: seq<Entry>): seq<Period> {
    if |e| > 0 && e[0].kind == Departure then [Period(None, Some(e[0].date))] else []
  }

  /** The period each arrival among the first n records opens: it is closed by the
      record that follows it, departure or arrival alike, or stays open when it is
      the last record. */
  function Closed(e: seq<Entry>, n: nat): seq<Period>
    requires n <= |e|
  {
    if n == 0 then [] else Closed(e, n - 1) + Opened(e, n - 1)
  }

  /** The period record j opens, if it is an arrival. */
  function Opened(e: seq<Entry>, j: nat): seq<Period>
    requires j < |e|
  {
    if e[j].kind == Arrival
    then [Period(Some(e[j].date), if j + 1 < |e| then Some(e[j + 1].date) else None)]
    else []
  }

  /** The periods the pairing produces from the records e. */
  function Pairs(e: seq<Entry>): seq<Period> {
    Lead(e) + Closed(e, |e|)
  }

  /** One warning for every arrival among the first n records that directly follows
      another arrival. */
  function ArrivalWarnings(e: seq<Entry>, n: nat): seq<Warning>
    requires n <= |e|
  {
    if n <= 1 then []
    else
      ArrivalWarnings(e, n - 1)
      + if e[n - 2].kind == Arrival && e[n - 1].kind == Arrival
        then [ConsecutiveArrivals(e[n - 2].date, e[n - 1].date)]
        else []
  }

  /** The pairing warns only of consecutive arrivals: the warning for a departure
      without a matching arrival never appears. */
  lemma {:induction false} OnlyConsecutiveArrivals(e: seq<Entry>, n: nat)
    requires n <= |e|
    ensures forall k :: 0 <= k < |ArrivalWarnings(e, n)| ==> ArrivalWarnings(e, n)[k].ConsecutiveArrivals?
  {
    if n > 1 {
      OnlyConsecutiveArrivals(e, n - 1);
    }
  }

  /** What record i adds: an arrival before it is closed by it, with a warning when
      record i is an arrival too. */
  lemma PairStep(e: seq<Entry>, i: nat)
    requires 0 < i < |e|
    ensures Closed(e, i) == Closed(e, i - 1)
      + if e[i - 1].kind == Arrival then [Period(Some(e[i - 1].date), Some(e[i].date))] else []
    ensures ArrivalWarnings(e, i + 1) == ArrivalWarnings(e, i)
      + if e[i - 1].kind == Arrival && e[i].kind == Arrival then [ConsecutiveArrivals(e[i - 1].date, e[i].date)] else []
  {
  }

  /** The state of the pairing loop before record i: the last record handled is
      i - 1, the pending arrival is that record when it is an arrival, and every
      arrival before it has been closed. */
  predicate PairState(e: seq<Entry>, i: nat, currentArrival: Option<Entry>, lastProcessedIndex: int,
                      dateRanges: seq<Period>, warnings: seq<Warning>)
  {
    && i <= |e|
    && lastProcessedIndex == i - 1
    && currentArrival == (if i > 0 && e[i - 1].kind == Arrival then Some(e[i - 1]) else None)
    && dateRanges == Lead(e) + Closed(e, if i == 0 then 0 else i - 1)
    && warnings == ArrivalWarnings(e, i)
  }

  /** One pass of the pairing loop, on record i. */
  method PairRecord(entries: seq<Entry>, i: nat, currentArrival: Option<Entry>, lastProcessedIndex: int,
                    dateRanges: seq<Period>, warnings: seq<Warning>)
    returns (arrivalAfter: Option<Entry>, lastAfter: int, rangesAfter: seq<Period>, warningsAfter: seq<Warning>)
    requires i < |entries|
    requires PairState(entries, i, currentArrival, lastProcessedIndex, dateRanges, warnings)
    ensures PairState(entries, i + 1, arrivalAfter, lastAfter, rangesAfter, warningsAfter)
  {
    if i > 0 {
      PairStep(entries, i);
    }
    arrivalAfter, lastAfter, rangesAfter, warningsAfter := currentArrival, lastProcessedIndex, dateRanges, warnings;
    var entry := entries[i];
    if entry.kind == Arrival {
      if arrivalAfter.Some? {
        warningsAfter := warningsAfter + [ConsecutiveArrivals(arrivalAfter.value.date, entry.date)];
        rangesAfter := rangesAfter + [Period(Some(arrivalAfter.value.date), Some(entry.date))];
      }
      arrivalAfter := Some(entry);
      lastAfter := i;
    } else {
      if arrivalAfter.Some? {
        rangesAfter := rangesAfter + [Period(Some(arrivalAfter.value.date), Some(entry.date))];
        arrivalAfter := None;
      } else if i > 0 && lastAfter != i - 1 {
        warningsAfter := warningsAfter + [DepartureWithoutArrival(entry.date)];
      }
      lastAfter := i;
    }
  }

  /** The pairing loop with its two pieces of state: the pending arrival and the
      index of the last record handled. The index is set in every pass, so the
      warning for a departure without a matching arrival is never given. */
  method PairEntries(entries: seq<Entry>) returns (dateRanges: seq<Period>, warnings: seq<Warning>)
    ensures dateRanges == Pairs(entries)
    ensures warnings == ArrivalWarnings(entries, |entries|)
  {
    dateRanges, warnings := [], [];
    if |entries| > 0 && entries[0].kind == Departure {
      dateRanges := dateRanges + [Period(None, Some(entries[0].date))];
    }
    var currentArrival: Option<Entry> := None;
    var lastProcessedIndex := -1;
    var i := 0;
    while i < |entries|
      invariant PairState(entries, i, currentArrival, lastProcessedIndex, dateRanges, warnings)
    {
      currentArrival, lastProcessedIndex, dateRanges, warnings :=
        PairRecord(entries, i, currentArrival, lastProcessedIndex, dateRanges, warnings);
      i := i + 1;
    }
    PairFinish(entries, currentArrival, lastProcessedIndex, dateRanges, warnings);
    if currentArrival.Some? {
      dateRanges := dateRanges + [Period(Some(currentArrival.value.date), None)];
    }
  }

  /** After the last record, closing the pending arrival, if any, with no departure
      completes the periods. */
  lemma PairFinish(e: seq<Entry>, currentArrival: Option<Entry>, lastProcessedIndex: int,
                   dateRanges: seq<Period>, warnings: seq<Warning>)
    requires PairState(e, |e|, currentArrival, lastProcessedIndex, dateRanges, warnings)
    ensures currentArrival.Some? ==> dateRanges + [Period(Some(currentArrival.value.date), None)] == Pairs(e)
    ensures currentArrival.None? ==> dateRanges == Pairs(e)
  {
    if |e| > 0 {
      var lead, closed := Lead(e), Closed(e, |e| - 1);
      assert Closed(e, |e|) == closed + Opened(e, |e| - 1);
      assert lead + (closed + Opened(e, |e| - 1)) == (lead + closed) + Opened(e, |e| - 1);
    } else {
      assert Lead(e) + Closed(e, 0) == Lead(e);
    }
  }

  // ---------------------------------------------------------------------------
  // Overlap warnings

  predicate NoDates(p: Period) {
    p.arrivalDate.None? && p.departureDate.None?
  }

  /** The pair of periods the overlap pass warns about, by the intended overlap
      test (see `Periods.OverlapsCorrected`). */
  predicate Flagged(p: Period, q: Period) {
    && !NoDates(p) && !NoDates(q)
    && OverlapsCorrected(StartBound(p.arrivalDate), EndBound(p.departureDate),
                         StartBound(q.arrivalDate), EndBound(q.departureDate))
  }

  /** The warnings for the pairs (i, k) with i < k < j. */
  function RowWarnings(r: seq<Period>, i: nat, j: nat): seq<Warning>
    requires i < j <= |r|
    decreases j
  {
    if j == i + 1 then []
    else RowWarnings(r, i, j - 1) + if Flagged(r[i], r[j - 1]) then [OverlappingPeriods(r[i], r[j - 1])] else []
  }

  /** The warnings for the pairs whose first period is among the first n. */
  function PairWarnings(r: seq<Period>, n: nat): seq<Warning>
    requires n <= |r|
  {
    if n == 0 then [] else PairWarnings(r, n - 1) + RowWarnings(r, n - 1, |r|)
  }

  /** The overlap pass: every pair of periods, in order, checked once. It only adds
      warnings. */
  method OverlapPass(dateRanges: seq<Period>, warnings: seq<Warning>) returns (warningsAfter: seq<Warning>)
    ensures warningsAfter == warnings + PairWarnings(dateRanges, |dateRanges|)
  {
    warningsAfter := warnings;
    var i := 0;
    while i < |dateRanges|
      invariant 0 <= i <= |dateRanges|
      invariant warningsAfter == warnings + PairWarnings(dateRanges, i)
    {
      var j := i + 1;
      ghost var before := warningsAfter;
      while j < |dateRanges|
        invariant i + 1 <= j <= |dateRanges|
        invariant warningsAfter == before + RowWarnings(dateRanges, i, j)
      {
        var range1, range2 := dateRanges[i], dateRanges[j];
        if NoDates(range1) || NoDates(range2) {
          j := j + 1;
          continue;
        }
        var range1Start, range1End := StartBound(range1.arrivalDate), EndBound(range1.departureDate);
        var range2Start, range2End := StartBound(range2.arrivalDate), EndBound(range2.departureDate);
        if range1End == range2Start || range2End == range1Start {
          j := j + 1;
          continue;
        }
        // The source tests max(starts) < min(ends) here, which misses a shared single day.
        if AtMost(Max(range1Start, range2Start), Min(range1End, range2End)) {
          warningsAfter := warningsAfter + [OverlappingPeriods(range1, range2)];
        }
        j := j + 1;
      }
      i := i + 1;
    }
  }

  // ---------------------------------------------------------------------------
  // The whole reader

  /** Newest first: the day a period begins, or ends when it has no arrival, taken
      at noon (twice the date key, plus one); a period with neither date sorts as
      the midnight that begins 1970-01-01, the epoch. The key is negated so that the ascending sort
      returns the newest period first. */
  function RangeKey(p: Period): int {
    -(match (p.arrivalDate, p.departureDate)
      case (Some(a), _) => 2 * DateKey(a) + 1
      case (None, Some(d)) => 2 * DateKey(d) + 1
      case (None, None) => 2 * EpochKey)
  }

  /** parseI94Data */
  method ParseI94Data(data: string) returns (result: ParseResult)
    ensures result.dateRanges == SortBy(Pairs(SortedEntries(data)), RangeKey)
    ensures result.warnings == ArrivalWarnings(SortedEntries(data), |SortedEntries(data)|)
  {
    var lines := Split(Trim(data), '\n');
    var entries := CollectEntries(lines);
    entries := SortBy(entries, EntryKey);
    var dateRanges, warnings := PairEntries(entries);
    SortBySorted(Entries(lines), EntryKey);
    OverlapPassSilent(entries);
    warnings := OverlapPass(dateRanges, warnings);
    var sortedRanges := SortBy(dateRanges, RangeKey);
    result := ParseResult(sortedRanges, warnings);
  }

  // ---------------------------------------------------------------------------
  // Lemmas: the records

  /** The row, date and type columns of a record line as the I-94 site writes it. */
  function RecordFields(row: string, e: Entry): string {
    row + "\t" + e.date + "\t" + KindName(e.kind)
  }

  /** A record line as the I-94 site writes it: row, date, type and location. */
  function FormatLine(row: string, e: Entry, loc: string): string {
    RecordFields(row, e) + "\t" + loc
  }

  predicate AllDigits(s: string) {
    forall i :: 0 <= i < |s| ==> IsDigit(s[i])
  }

  /** The first three columns of a written record line never look like a header. */
  lemma FieldsNoHeader(row: string, e: Entry)
    requires AllDigits(row)
    ensures |RecordFields(row, e)| >= 3
    ensures !LooksLikeHeader(RecordFields(row, e))
  {
    var line := RecordFields(row, e);
    assert line[..3] != "Row" by {
      LineChar(row, e, 0);
    }
    var low := Lower(line);
    NameLetters(e.kind);
    forall i | 0 <= i < |low| - 1 && (low[i] == 'd' || low[i] == 't')
      ensures low[i + 1] != 'a' && low[i + 1] != 'y'
    {
      LineChar(row, e, i);
      LineChar(row, e, i + 1);
    }
    NotContains(low, "date");
    NotContains(low, "type");
  }

  /** A written record line looks like a header exactly when its location mentions
      "date" or "type" in some letter case. */
  lemma FormatLineHeader(row: string, e: Entry, loc: string)
    requires AllDigits(row)
    ensures LooksLikeHeader(FormatLine(row, e, loc))
        <==> Contains(Lower(loc), "date") || Contains(Lower(loc), "type")
  {
    var fields := RecordFields(row, e);
    FieldsNoHeader(row, e);
    assert FormatLine(row, e, loc) == fields + ['\t'] + loc;
    LowerAppend(fields + ['\t'], loc);
    LowerAppend(fields, ['\t']);
    assert Lower(['\t']) == ['\t'];
    ContainsAcross(Lower(fields), '\t', Lower(loc), "date");
    ContainsAcross(Lower(fields), '\t', Lower(loc), "type");
    assert (fields + ['\t'] + loc)[..3] == fields[..3];
  }

  /** Each character of the first three columns is a digit, a hyphen or a tab, or
      else a character of the record's type, at that position. */
  lemma LineChar(row: string, e: Entry, i: int)
    requires AllDigits(row) && 0 <= i < |RecordFields(row, e)|
    ensures var line, off := RecordFields(row, e), |row| + 12;
      || IsDigit(line[i]) || line[i] == '-' || line[i] == '\t'
      || (off <= i && line[i] == KindName(e.kind)[i - off])
  {
    var line, off := RecordFields(row, e), |row| + 12;
    assert line == (row + "\t" + e.date + "\t") + KindName(e.kind);
    if i < |row| {
      assert line[i] == row[i];
    } else if i < off {
      assert line[i] == ("\t" + e.date + "\t")[i - |row|];
    }
  }

  /** In "Arrival" and "Departure", a 'd' or 't' in either case is never followed
      by an 'a' or a 'y'. */
  lemma NameLetters(kind: EntryType)
    ensures var name := KindName(kind);
      forall k :: 0 <= k < |name| - 1 && (LowerChar(name[k]) == 'd' || LowerChar(name[k]) == 't')
        ==> LowerChar(name[k + 1]) != 'a' && LowerChar(name[k + 1]) != 'y'
  {
  }

  /** A written record line splits at its tabs into the row, the date, the type and
      the location. */
  lemma SplitFormatLine(row: string, e: Entry, loc: string)
    requires AllDigits(row) && '\t' !in loc
    ensures Split(FormatLine(row, e, loc), '\t') == [row, e.date, KindName(e.kind), loc]
  {
    assert '\t' !in row by {
      assert forall i | 0 <= i < |row| :: row[i] != '\t';
    }
    assert '\t' !in e.date by {
      assert forall i | 0 <= i < |e.date| :: e.date[i] != '\t';
    }
    SplitFour(row, e.date, KindName(e.kind), loc, '\t');
    assert FormatLine(row, e, loc) == row + ['\t'] + e.date + ['\t'] + KindName(e.kind) + ['\t'] + loc;
  }

  /** Reading back a written record line gives the record, provided its location
      holds no tab and mentions neither "date" nor "type". */
  lemma ParseFormatLine(row: string, e: Entry, loc: string)
    requires AllDigits(row) && '\t' !in loc
    requires !Contains(Lower(loc), "date") && !Contains(Lower(loc), "type")
    ensures ParseLine(FormatLine(row, e, loc)) == Some(e)
  {
    FormatLineHeader(row, e, loc);
    SplitFormatLine(row, e, loc);
    ParseColumns(FormatLine(row, e, loc), e);
  }

  /** A line that is no header and whose second and third columns are a record's
      date and type name reads as that record. */
  lemma ParseColumns(line: string, e: Entry)
    requires !LooksLikeHeader(line)
    requires var parts := Split(line, '\t');
      |parts| >= 3 && parts[1] == e.date && parts[2] == KindName(e.kind)
    ensures ParseLine(line) == Some(e)
  {
    TrimUnchanged(e.date);
    TrimUnchanged(KindName(e.kind));
  }

  /** A written line with an ordinary port code reads back as its record. */
  lemma FormatLineExample()
    ensures ParseLine(FormatLine("1", Entry("2024-09-15", Arrival), "SFO"))
         == Some(Entry("2024-09-15", Arrival))
  {
    var low := Lower("SFO");
    assert low == "sfo";
    NotContains(low, "date");
    NotContains(low, "type");
    ParseFormatLine("1", Entry("2024-09-15", Arrival), "SFO");
  }

  /** A location that mentions "date" or "type" makes the reader drop the record. */
  lemma LocationDropsRecord(row: string, e: Entry, loc: string)
    requires AllDigits(row)
    requires Contains(Lower(loc), "date") || Contains(Lower(loc), "type")
    ensures ParseLine(FormatLine(row, e, loc)) == None
  {
    FormatLineHeader(row, e, loc);
  }

  /** A line is dropped, without a warning, when it looks like a header, has fewer
      than three tab-separated fields, holds no date of the form YYYY-MM-DD in its
      second field, or neither "Arrival" nor "Departure" in its third. */
  lemma ParseLineDrops(line: string)
    ensures LooksLikeHeader(line) ==> ParseLine(line).None?
    ensures |Split(line, '\t')| < 3 ==> ParseLine(line).None?
    ensures |Split(line, '\t')| >= 3 && !IsIsoPattern(Trim(Split(line, '\t')[1])) ==> ParseLine(line).None?
    ensures (|Split(line, '\t')| >= 3 && Trim(Split(line, '\t')[2]) != "Arrival"
             && Trim(Split(line, '\t')[2]) != "Departure") ==> ParseLine(line).None?
    ensures ParseLine(line).Some? ==> ParseLine(line).value.date == Trim(Split(line, '\t')[1])
  {
  }

  /** Input with no record line gives no periods and no warnings. */
  lemma {:induction false} NoRecordsNothing(data: string)
    requires forall i :: 0 <= i < |Lines(data)| ==> ParseLine(Lines(data)[i]).None?
    ensures SortBy(Pairs(SortedEntries(data)), RangeKey) == []
    ensures ArrivalWarnings(SortedEntries(data), |SortedEntries(data)|) == []
  {
    NoRecordsNoEntries(Lines(data));
  }

  lemma {:induction false} NoRecordsNoEntries(lines: seq<string>)
    requires forall i :: 0 <= i < |lines| ==> ParseLine(lines[i]).None?
    ensures Entries(lines) == []
    decreases |lines|
  {
    if lines != [] {
      NoRecordsNoEntries(lines[..|lines| - 1]);
    }
  }

  /** The records are handled in date order, and every record read is handled. */
  lemma RecordsInDateOrder(data: string)
    ensures SortedBy(SortedEntries(data), EntryKey)
    ensures multiset(SortedEntries(data)) == multiset(Entries(Lines(data)))
  {
    SortBySorted(Entries(Lines(data)), EntryKey);
    SortByPermutes(Entries(Lines(data)), EntryKey);
  }

  // ---------------------------------------------------------------------------
  // Lemmas: the pairing

  /** When the earliest record is a departure, the result holds a period with no
      arrival that ends on that day. */
  lemma LeadingDeparture(e: seq<Entry>)
    requires |e| > 0 && e[0].kind == Departure
    ensures Period(None, Some(e[0].date)) in SortBy(Pairs(e), RangeKey)
  {
    SortByPermutes(Pairs(e), RangeKey);
    assert Pairs(e)[0] == Period(None, Some(e[0].date));
    assert Period(None, Some(e[0].date)) in multiset(Pairs(e));
  }

  /** Every arrival opens a period of the result, closed by the next record's date,
      or open when it is the last record. */
  lemma ArrivalClosed(e: seq<Entry>, j: nat)
    requires j < |e| && e[j].kind == Arrival
    ensures Period(Some(e[j].date), if j + 1 < |e| then Some(e[j + 1].date) else None)
            in SortBy(Pairs(e), RangeKey)
  {
    var p := Period(Some(e[j].date), if j + 1 < |e| then Some(e[j + 1].date) else None);
    ClosedGrows(e, j + 1, |e|);
    assert p in Closed(e, j + 1);
    assert p in Pairs(e);
    SortByPermutes(Pairs(e), RangeKey);
    assert p in multiset(Pairs(e));
  }

  lemma {:induction false} ClosedGrows(e: seq<Entry>, m: nat, n: nat)
    requires m <= n <= |e|
    ensures Closed(e, m) <= Closed(e, n)
    decreases n
  {
    if m < n {
      ClosedGrows(e, m, n - 1);
    }
  }

  /** The arrival a period holds, if any. */
  function ArrivalOf(p: Period): seq<IsoDate> {
    match p.arrivalDate
    case Some(a) => [a]
    case None => []
  }

  /** The arrival dates of the periods, in order. */
  function ArrivalsOf(ps: seq<Period>): seq<IsoDate> {
    ArrivalsUpTo(ps, |ps|)
  }

  /** The arrival dates of the first k periods, in order. */
  function ArrivalsUpTo(ps: seq<Period>, k: nat): seq<IsoDate>
    requires k <= |ps|
  {
    if k == 0 then [] else ArrivalsUpTo(ps, k - 1) + ArrivalOf(ps[k - 1])
  }

  /** The dates of the arrival records among the first n, in order. */
  function ArrivalDates(e: seq<Entry>, n: nat): seq<IsoDate>
    requires n <= |e|
  {
    if n == 0 then []
    else ArrivalDates(e, n - 1) + if e[n - 1].kind == Arrival then [e[n - 1].date] else []
  }

  /** Periods put in front of others do not change the arrivals of the first ones. */
  lemma {:induction false} ArrivalsOfPrefix(ps: seq<Period>, qs: seq<Period>, k: nat)
    requires k <= |ps|
    ensures ArrivalsUpTo(ps + qs, k) == ArrivalsUpTo(ps, k)
  {
    if k > 0 {
      ArrivalsOfPrefix(ps, qs, k - 1);
      assert (ps + qs)[k - 1] == ps[k - 1];
    }
  }

  /** A period or none put after others adds its own arrival at the end. */
  lemma ArrivalsOfSnoc(ps: seq<Period>, qs: seq<Period>)
    requires |qs| <= 1
    ensures ArrivalsOf(ps + qs) == ArrivalsOf(ps) + ArrivalsOf(qs)
  {
    if |qs| == 0 {
      assert ps + qs == ps;
    } else {
      var all := ps + qs;
      assert all[|ps|] == qs[0];
      assert ArrivalsOf(all) == ArrivalsUpTo(all, |ps|) + ArrivalOf(qs[0]);
      ArrivalsOfPrefix(ps, qs, |ps|);
      assert qs == [qs[0]];
      ArrivalsOfOne(qs[0]);
    }
  }

  lemma ArrivalsOfOne(p: Period)
    ensures ArrivalsOf([p]) == ArrivalOf(p)
  {
    assert ArrivalsOf([p]) == ArrivalsUpTo([p], 0) + ArrivalOf(p);
  }

  lemma OpenedArrival(e: seq<Entry>, j: nat)
    requires j < |e|
    ensures ArrivalsOf(Opened(e, j)) == if e[j].kind == Arrival then [e[j].date] else []
  {
    if e[j].kind == Arrival {
      ArrivalsOfOne(Opened(e, j)[0]);
    }
  }

  /** The period a leading departure closes holds no arrival. */
  lemma LeadNoArrival(e: seq<Entry>)
    ensures ArrivalsOf(Lead(e) + Closed(e, 0)) == []
  {
    assert Lead(e) + Closed(e, 0) == Lead(e);
    if Lead(e) != [] {
      ArrivalsOfOne(Lead(e)[0]);
    }
  }

  /** One more period or none after the others adds its own arrival at the end. */
  lemma ArrivalsAfter(lead: seq<Period>, closed: seq<Period>, step: seq<Period>)
    requires |step| <= 1
    ensures ArrivalsOf(lead + (closed + step)) == ArrivalsOf(lead + closed) + ArrivalsOf(step)
  {
    assert lead + (closed + step) == (lead + closed) + step;
    ArrivalsOfSnoc(lead + closed, step);
  }

  /** Each arrival record becomes the arrival of exactly one period: the arrivals of
      the periods are the arrival records' dates, one for one and in order. */
  lemma {:induction false} EachArrivalOnce(e: seq<Entry>, n: nat)
    requires n <= |e|
    ensures ArrivalsOf(Lead(e) + Closed(e, n)) == ArrivalDates(e, n)
    decreases n
  {
    if n == 0 {
      LeadNoArrival(e);
    } else {
      EachArrivalOnce(e, n - 1);
      ArrivalsStep(e, n);
    }
  }

  /** Record n-1 adds its own date to the arrivals exactly when it is an arrival, as
      it does to the arrival records' dates. */
  lemma ArrivalsStep(e: seq<Entry>, n: nat)
    requires 0 < n <= |e|
    requires ArrivalsOf(Lead(e) + Closed(e, n - 1)) == ArrivalDates(e, n - 1)
    ensures ArrivalsOf(Lead(e) + Closed(e, n)) == ArrivalDates(e, n)
  {
    OpenedArrival(e, n - 1);
    ArrivalsAfter(Lead(e), Closed(e, n - 1), Opened(e, n - 1));
  }

  /** Two arrivals in a row without a departure between them give one warning
      and a period from the first to the second. */
  lemma ConsecutiveArrivalsExample()
    ensures var e := [Entry("2024-09-15", Arrival), Entry("2024-11-20", Arrival)];
      && ArrivalWarnings(e, 2) == [ConsecutiveArrivals("2024-09-15", "2024-11-20")]
      && Pairs(e) == [Period(Some("2024-09-15"), Some("2024-11-20")), Period(Some("2024-11-20"), None)]
  {
    var e := [Entry("2024-09-15", Arrival), Entry("2024-11-20", Arrival)];
    assert Opened(e, 0) == [Period(Some("2024-09-15"), Some("2024-11-20"))];
    assert Opened(e, 1) == [Period(Some("2024-11-20"), None)];
  }

  /** The warning for two consecutive arrivals names both dates. */
  lemma ConsecutiveArrivalsText(first: IsoDate, second: IsoDate)
    ensures Contains(WarningText(ConsecutiveArrivals(first, second)), first)
    ensures Contains(WarningText(ConsecutiveArrivals(first, second)), second)
  {
    var text := WarningText(ConsecutiveArrivals(first, second));
    assert OccursAt(text, first, 63);
    assert OccursAt(text, second, 78);
  }

  // ---------------------------------------------------------------------------
  // Lemmas: the overlap pass finds nothing after the pairing

  /** Every period of ps ends no later than k. */
  predicate EndsBy(ps: seq<Period>, k: int) {
    forall a :: 0 <= a < |ps| ==> AtMost(EndBound(ps[a].departureDate), At(k))
  }

  lemma EndsByGrow(ps: seq<Period>, k: int, k2: int, more: seq<Period>)
    requires EndsBy(ps, k) && k <= k2 && EndsBy(more, k2)
    ensures EndsBy(ps + more, k2)
  {
  }

  /** Periods that follow one another end no later than the next begins. */
  predicate Chained(ps: seq<Period>) {
    forall a, b :: 0 <= a < b < |ps| ==> AtMost(EndBound(ps[a].departureDate), StartBound(ps[b].arrivalDate))
  }

  lemma ChainedAppend(ps: seq<Period>, k: int, p: Period)
    requires Chained(ps) && EndsBy(ps, k) && AtMost(At(k), StartBound(p.arrivalDate))
    ensures Chained(ps + [p])
  {
  }

  /** Every period among the first m records ends no later than record m. */
  lemma {:induction false} ClosedEnds(e: seq<Entry>, m: nat)
    requires m < |e| && SortedBy(e, EntryKey)
    ensures EndsBy(Lead(e) + Closed(e, m), EntryKey(e[m]))
    decreases m
  {
    if m == 0 {
      assert Lead(e) + Closed(e, 0) == Lead(e);
    } else {
      ClosedEnds(e, m - 1);
      var before := Lead(e) + Closed(e, m - 1);
      assert Lead(e) + Closed(e, m) == before + Opened(e, m - 1);
      assert EntryKey(e[m - 1]) <= EntryKey(e[m]);
      EndsByGrow(before, EntryKey(e[m - 1]), EntryKey(e[m]), Opened(e, m - 1));
    }
  }

  lemma {:induction false} PairsChained(e: seq<Entry>, n: nat)
    requires n <= |e| && SortedBy(e, EntryKey)
    ensures Chained(Lead(e) + Closed(e, n))
    decreases n
  {
    if n == 0 {
      assert Lead(e) + Closed(e, 0) == Lead(e);
    } else {
      PairsChained(e, n - 1);
      var before := Lead(e) + Closed(e, n - 1);
      assert Lead(e) + Closed(e, n) == before + Opened(e, n - 1);
      if e[n - 1].kind == Arrival {
        ClosedEnds(e, n - 1);
        ChainedAppend(before, EntryKey(e[n - 1]), Opened(e, n - 1)[0]);
      } else {
        assert before + Opened(e, n - 1) == before;
      }
    }
  }

  /** A period that ends no later than another begins is not flagged with it. */
  lemma InOrderNotFlagged(p: Period, q: Period)
    requires AtMost(EndBound(p.departureDate), StartBound(q.arrivalDate))
    ensures !Flagged(p, q)
  {
  }

  lemma ChainedNotFlagged(r: seq<Period>, a: nat, b: nat)
    requires a < b < |r| && Chained(r)
    ensures !Flagged(r[a], r[b])
  {
    InOrderNotFlagged(r[a], r[b]);
  }

  /** No period after period i is flagged with it. */
  predicate RowClear(r: seq<Period>, i: nat)
    requires i < |r|
  {
    forall b :: i < b < |r| ==> !Flagged(r[i], r[b])
  }

  lemma ChainedRowClear(r: seq<Period>, i: nat)
    requires i < |r| && Chained(r)
    ensures RowClear(r, i)
  {
    forall b | i < b < |r| ensures !Flagged(r[i], r[b]) {
      ChainedNotFlagged(r, i, b);
    }
  }

  lemma {:induction false} RowSilent(r: seq<Period>, i: nat, j: nat)
    requires i < j <= |r| && RowClear(r, i)
    ensures RowWarnings(r, i, j) == []
    decreases j
  {
    if j > i + 1 {
      RowSilent(r, i, j - 1);
      RowUnflagged(r, i, j);
    }
  }

  /** A pair that is not flagged adds nothing to its row's warnings. */
  lemma RowUnflagged(r: seq<Period>, i: nat, j: nat)
    requires i + 1 < j <= |r| && !Flagged(r[i], r[j - 1])
    ensures RowWarnings(r, i, j) == RowWarnings(r, i, j - 1)
  {
  }

  /** Over chained periods no row has a warning. */
  lemma ChainedRowsSilent(r: seq<Period>)
    requires Chained(r)
    ensures forall i :: 0 <= i < |r| ==> RowWarnings(r, i, |r|) == []
  {
    forall i | 0 <= i < |r| ensures RowWarnings(r, i, |r|) == [] {
      ChainedRowClear(r, i);
      RowSilent(r, i, |r|);
    }
  }

  /** Rows without warnings give the pass no warning. */
  lemma {:induction false} RowsSilent(r: seq<Period>, n: nat)
    requires n <= |r|
    requires forall i :: 0 <= i < |r| ==> RowWarnings(r, i, |r|) == []
    ensures PairWarnings(r, n) == []
    decreases n
  {
    if n > 0 {
      RowsSilent(r, n - 1);
      PairWarningsStep(r, n);
    }
  }

  /** A row without warnings adds none to those of the rows before it. */
  lemma PairWarningsStep(r: seq<Period>, n: nat)
    requires 0 < n <= |r| && PairWarnings(r, n - 1) == [] && RowWarnings(r, n - 1, |r|) == []
    ensures PairWarnings(r, n) == []
  {
  }

  /** On the periods the pairing builds from records in date order, the overlap
      pass never warns: each period ends no later than the next one begins. */
  lemma OverlapPassSilent(e: seq<Entry>)
    requires SortedBy(e, EntryKey)
    ensures PairWarnings(Pairs(e), |Pairs(e)|) == []
  {
    PairsChained(e, |e|);
    ChainedRowsSilent(Pairs(e));
    RowsSilent(Pairs(e), |Pairs(e)|);
  }

  /** The result holds exactly the periods the pairing built, newest first. */
  lemma ResultNewestFirst(data: string)
    ensures SortedBy(SortBy(Pairs(SortedEntries(data)), RangeKey), RangeKey)
    ensures multiset(SortBy(Pairs(SortedEntries(data)), RangeKey)) == multiset(Pairs(SortedEntries(data)))
  {
    SortBySorted(Pairs(SortedEntries(data)), RangeKey);
    SortByPermutes(Pairs(SortedEntries(data)), RangeKey);
  }

  // ---------------------------------------------------------------------------
  // Lemmas: the warning texts

  lemma FormatRangeLength(p: Period)
    ensures |FormatRangeForWarning(p)| == match (p.arrivalDate, p.departureDate)
      case (Some(_), Some(_)) => 24
      case (Some(_), None) => 36
      case (None, Some(_)) => 42
      case (None, None) => 13
  {
  }

  /** The description of a period with a date names the period: different periods
      are described differently. */
  lemma FormatRangeInjective(p: Period, q: Period)
    requires !NoDates(p) && !NoDates(q)
    requires FormatRangeForWarning(p) == FormatRangeForWarning(q)
    ensures p == q
  {
    FormatRangeLength(p);
    FormatRangeLength(q);
    var s := FormatRangeForWarning(p);
    if p.arrivalDate.Some? && p.departureDate.Some? {
      assert p.arrivalDate.value == s[..10] == q.arrivalDate.value;
      assert p.departureDate.value == s[14..] == q.departureDate.value;
    } else if p.arrivalDate.Some? {
      assert p.arrivalDate.value == s[..10] == q.arrivalDate.value;
    } else {
      assert p.departureDate.value == s[19..29] == q.departureDate.value;
    }
  }
}
