# Substantial Presence Test calculator, modelled in Dafny

The application decides U.S. tax residency under the Substantial Presence Test.
Day counts come from one of two places: typed in by the user, or reconstructed from
travel periods. Travel periods are entered one at a time or imported from the
tab-separated travel history of the I-94 website. The model covers four parts:

* **The day reconciler** (`DateCalculator`, date_calculator.dfy).
  - It fills in each period's open ends. A missing arrival becomes 1 January of
    the second prior year. A missing departure becomes the earlier of today and
    31 December of the tax year.
  - It clips each period to the three calendar years.
  - It walks the clipped days, counting a day only when the shared set of counted
    days does not hold it yet.
  - The methods keep the source's loops and the shared set. They are proved
    against `Counts`: for each year, the number of distinct days of that year on
    which some period has the person present.
* **The I-94 reader** (`I94Parser`, i94_parser.dfy).
  - It filters lines, sorts the records by date, and pairs arrivals with
    departures in a two-state loop.
  - It checks every pair of periods for overlap and sorts the result newest first.
  - Each loop is a method proved against a specification function.
* **The test itself** (`Spt`, spt_calculator.dfy): the weighted total
  `c + f/3 + s/6` and its thresholds of 31 and 183 days.
* **The page's rules** (`Page`, page.dfy).
  - The leap-year rule and each year's maximum day count.
  - The manual-input range check and the check for an empty period list.
  - The chain of checks that admits a new period, then insertion with a
    newest-first sort, removal by id, and the inclusive day count of a period.
  - The form's state is a class, `SptCalculator`, whose methods are the page's
    handlers. It keeps two invariants. A ticked "No arrival" or "No departure" box
    leaves its date empty. No two stored periods conflict.

The shared pieces are:

* `Calendar` (calendar.dfy): "YYYY-MM-DD" strings, day ordinals and the Gregorian
  leap rule.
* `Periods` (periods.dfy): the overlap test used by both the reader and the page.
* `Text` (text.dfy): JavaScript's `trim`, `split`, `startsWith` and `includes`.
* `Sorting` (sorting.dfy): the stable sort `Array.prototype.sort` performs.

Dates are compared by `DateKey`, the number YYYYMMDD. `Calendar.DateKeyOrder`
proves that this orders calendar dates exactly as their days do. Days are walked
and counted on `DayNumber`, the proleptic Gregorian ordinal.

### Where the code and its description differ

The code is followed in each case.

* The header test skips a line that *starts with* "Row" (lib/i94-parser.ts:30). It
  is not enough for the line to contain "Row".
* A departure with no pending arrival is never reported. `lastProcessedIndex` is
  set on every turn of the loop (lib/i94-parser.ts:97, 112), so the test at
  lib/i94-parser.ts:106 never holds. Orphan departures are dropped silently. The
  model keeps the branch in `I94Parser.PairRecord`. The loop state `PairState`
  holds `lastProcessedIndex == i - 1` on entry to every turn, so the branch's test
  is false. PairRecord preserves that state, whose warnings are exactly
  `ArrivalWarnings`, so the branch adds nothing.
* Malformed lines cannot make that index test misfire, because skipped lines never
  become records.

## Model

| member | source | states |
|---|---|---|
| Calendar.YearLength | app/page.tsx:66-68 | Under the leap rule, a year lasts 366 days when divisible by 4 and not by 100, or when divisible by 400; otherwise 365. Consecutive years follow one another with no gap. |
| Calendar.YearBounds | lib/date-calculator.ts:21-28 | 1 January and 31 December are the first and last days of their year. |
| Calendar.OrdinalOrder | lib/date-calculator.ts:115-121 | Valid dates compare by their day numbers exactly as (year, month, day) compares lexicographically. |
| Calendar.DateKeyOrder | lib/i94-parser.ts:52-57 | For calendar dates, comparing YYYYMMDD keys is comparing days. Equal keys belong to equal strings. |
| Calendar.DayNumberInjective | lib/i94-parser.ts:142 | Two date strings naming the same day are the same string. |
| Calendar.DateKeyInjective | lib/i94-parser.ts:136-139 | Different date strings have different keys. |
| Calendar.DaysCount | app/page.tsx:362 | The inclusive run lo..hi holds hi - lo + 1 days, or none when reversed. |
| Calendar.DaysJoin | lib/date-calculator.ts:136-148 | Two runs of days that meet on a day make one run. |
| DateCalculator.ResolvedRanges | lib/date-calculator.ts:37-64 | One resolved range per period, in list order. |
| DateCalculator.CountDaysInRangeWithoutDuplicates | lib/date-calculator.ts:106-151 | Adds to the counted set exactly the days of arrival..departure clipped to the year, and returns how many of them were new. This covers both the early return and a reversed range. |
| DateCalculator.CountDay | lib/date-calculator.ts:136-148 | One turn of the day walk counts the day and adds it to the set exactly when it was not in the set before the walk began. |
| DateCalculator.CountPeriod | lib/date-calculator.ts:37-93 | One turn of the loop keeps each year's counter equal to its count of distinct covered days, with the shared set equal to their union, once the period joins the processed ones. A period with neither date is skipped. |
| DateCalculator.CalculateDaysFromDateRanges | lib/date-calculator.ts:11-100 | The three counters equal `Counts`: for each year, the number of distinct days of that year covered by some period once its open ends are filled in. |
| DateCalculator.CoveredByMeaning | lib/date-calculator.ts:46-60 | A day is covered exactly when some period's resolved range holds it: missing arrival from 1 January of the second prior year, missing departure up to min(today, 31 December of the tax year). |
| DateCalculator.CountsOrderIndependent | lib/date-calculator.ts:34-37 | Lists holding the same periods, in any order and with repeats, give the same counts. |
| DateCalculator.PresentDaysAppend | lib/date-calculator.ts:67-92 | One more period adds exactly its own days in the year, so a shared day is counted once. |
| DateCalculator.NoDatesCountsNothing | lib/date-calculator.ts:39 | A period with neither date changes no count. |
| DateCalculator.CountsBounded | lib/date-calculator.ts:67-92 | No year counts more days than it has: 366 in a leap year, 365 otherwise. |
| DateCalculator.PresentDaysBounded | lib/date-calculator.ts:120-121 | A year's count of present days is at most the number of days in that year (366 or 365). |
| DateCalculator.OpenArrival | lib/date-calculator.ts:46-50 | A period without an arrival counts, in each of the three years, every day from that year's start to its departure. |
| DateCalculator.OpenDeparture | lib/date-calculator.ts:52-56 | A period without a departure counts, in the tax year and the years before it, every day from its arrival (or the year's start) to the earlier of today and the year's end. |
| DateCalculator.OutsideCountsNothing | lib/date-calculator.ts:115-117 | A period that ends before a year begins, begins after it ends, or departs before it arrives counts nothing in that year. |
| DateCalculator.WindowsApart | lib/date-calculator.ts:21-28 | The three years lie one after another without sharing a day. |
| DateCalculator.SinglePeriod | lib/date-calculator.ts:119-121 | A single period counts exactly its clipped days in each year. |
| DateCalculator.FullLeapYearExample | lib/date-calculator.ts:11-100 | 2024-01-01..2024-12-31 with tax year 2024 gives (366, 0, 0). |
| DateCalculator.AcrossYearEndExample | lib/date-calculator.ts:119-121 | 2023-11-01..2024-02-01 with tax year 2024 gives (32, 61, 0). |
| DateCalculator.TurnaroundDayOnceExample | lib/date-calculator.ts:141-144 | 2024-01-01..06-30 plus 2024-06-30..12-31 gives 366 days in 2024: the turnaround day counts once. |
| DateCalculator.TurnaroundDays | lib/date-calculator.ts:136-148 | The stays 2024-01-01..06-30 and 2024-06-30..12-31 together cover every day of 2024. |
| Periods.OverlapsMeaning | lib/i94-parser.ts:141-147 | The overlap test as written flags exactly the pairs that share at least two days. |
| Periods.OverlapsCorrectedMeaning | app/page.tsx:253-266 | The corrected test lets a pair through exactly when every day they share is a turnaround day. |
| Periods.OverlapsSymmetric | lib/i94-parser.ts:136-147 | Both tests treat the two periods alike. |
| Periods.TouchingNeverOverlaps | lib/i94-parser.ts:141-144 | Periods that meet on a turnaround day are never flagged, by either test. |
| Periods.SingleDayInsideMissed | app/page.tsx:266 | A one-day stay strictly inside another period shares a day that is no turnaround. The written test misses it; the corrected test catches it. |
| Text.TrimStartMeaning | lib/i94-parser.ts:24 | `trimStart` removes exactly the leading whitespace. |
| Text.TrimEndMeaning | lib/i94-parser.ts:24 | `trimEnd` removes exactly the trailing whitespace. |
| Text.TrimIsSlice | lib/i94-parser.ts:38-39 | `trim` keeps a slice whose ends are not whitespace, and cuts only whitespace. |
| Text.TrimUnchanged | lib/i94-parser.ts:38-39 | A string with no whitespace at either end is its own trim. |
| Text.Split | lib/i94-parser.ts:34 | `split` yields at least one piece, and no piece holds the separator. |
| Text.JoinSplit | lib/i94-parser.ts:24 | Joining the pieces with the separator gives the string back. |
| Text.SplitJoin | lib/i94-parser.ts:34 | Splitting joined, separator-free pieces gives the pieces back. |
| Text.SplitAfter | lib/i94-parser.ts:34 | A separator-free prefix is one piece, and the separator after it starts the next. |
| Text.SplitThree | lib/i94-parser.ts:34-39 | Three separator-free fields written with tabs split back into those three. |
| Text.SplitFour | lib/i94-parser.ts:34-39 | Four separator-free fields written with tabs split back into those four. |
| Text.Lower | lib/i94-parser.ts:30 | `toLowerCase` keeps the length and lowers character by character. |
| Text.LowerChar | lib/i94-parser.ts:30 | The result is never an ASCII capital; it is a small ASCII letter exactly when the character is an ASCII letter of either case, and then the character is that letter or its capital; any other character is kept. |
| Text.NotContains | lib/i94-parser.ts:30 | A word is absent when its first two letters never occur together. |
| Text.LowerAppend | lib/i94-parser.ts:30 | `toLowerCase` of two strings joined is the two lowered strings joined. |
| Text.ContainsAcross | lib/i94-parser.ts:30 | A word without character c occurs in s, c, t joined exactly when it occurs in s or in t. |
| Sorting.SortByPermutes | lib/i94-parser.ts:52-57 | The sort returns the same elements, each as often as before. |
| Sorting.SortBySorted | lib/i94-parser.ts:52-57 | The sort's result ascends by key. |
| Sorting.SortByStable | lib/i94-parser.ts:159-176 | Elements with equal keys keep their input order. |
| Sorting.SortByLength | app/page.tsx:282-288 | The sort keeps the length. |
| Sorting.SortByPairwise | app/page.tsx:282-290 | Sorting keeps every two elements related by a symmetric relation. |
| Sorting.InsertPermutes | lib/i94-parser.ts:52-57 | One insertion step adds exactly the inserted element. |
| Sorting.InsertSorted | lib/i94-parser.ts:52-57 | Inserting into an ascending list keeps it ascending. |
| Sorting.InsertKeepsOrder | lib/i94-parser.ts:159-176 | Inserting keeps the order among equal keys, with the new element first. |
| I94Parser.CollectEntries | lib/i94-parser.ts:28-49 | The line loop collects exactly `Entries(lines)`: each line's record, in line order. |
| I94Parser.ParseLineDrops | lib/i94-parser.ts:30-46 | A line is dropped when it starts with "Row" or, lowered, contains "date" or "type"; when it has fewer than 3 tab fields; when its trimmed second field fails the date pattern; or when its trimmed third field is not exactly "Arrival" or "Departure". A record keeps the trimmed date. |
| I94Parser.ParseFormatLine | lib/i94-parser.ts:28-48 | A record line as the site writes it (digits row, date, type, location) reads back as that record, when the location holds no tab and mentions neither "date" nor "type" in any letter case. |
| I94Parser.LocationDropsRecord | lib/i94-parser.ts:30 | A written record line whose location mentions "date" or "type" in any letter case is dropped as a header. |
| I94Parser.FormatLineExample | lib/i94-parser.ts:28-48 | The line `1 TAB 2024-09-15 TAB Arrival TAB SFO` reads as an arrival on 2024-09-15. |
| I94Parser.SplitFormatLine | lib/i94-parser.ts:34 | A written record line with a tab-free location splits into row, date, type and location. |
| I94Parser.FormatLineHeader | lib/i94-parser.ts:30 | A written record line passes for a header exactly when its location, lowered, contains "date" or "type". |
| I94Parser.FieldsNoHeader | lib/i94-parser.ts:30 | The row, date and type columns never pass for a header: no "Row" start, and "date" and "type" cannot occur in them. |
| I94Parser.NoRecordsNothing | lib/i94-parser.ts:24-49 | Input with no record line gives no periods and no warnings. |
| I94Parser.NoRecordsNoEntries | lib/i94-parser.ts:28-49 | Lines that are all dropped give no records. |
| I94Parser.RecordsInDateOrder | lib/i94-parser.ts:52-57 | The records are handled in ascending date order, and all of them are handled. |
| I94Parser.PairEntries | lib/i94-parser.ts:62-122 | The pairing loop yields exactly `Pairs` and one warning per arrival that follows an arrival. The orphan-departure branch is never taken. |
| I94Parser.PairFinish | lib/i94-parser.ts:116-122 | After the last record, closing the pending arrival with no departure, or leaving the list as it is when none is pending, gives exactly `Pairs`. |
| I94Parser.PairRecord | lib/i94-parser.ts:76-113 | One pass of the loop on record i keeps the loop's state: the last index handled is i, the pending arrival is record i when it is one, and every earlier arrival is closed by the record after it. Since the last index handled is always i - 1 on entry, the orphan-departure test at line 106 is false and that branch adds no warning. |
| I94Parser.PairStep | lib/i94-parser.ts:81-104 | Record i closes the arrival before it, and adds a warning when it is itself an arrival. |
| I94Parser.OnlyConsecutiveArrivals | lib/i94-parser.ts:81-86 | Every warning in the pairing's warning list is a consecutive-arrivals warning. |
| I94Parser.LeadingDeparture | lib/i94-parser.ts:63-69 | An earliest record that is a departure yields the period (no arrival, that date). |
| I94Parser.ArrivalClosed | lib/i94-parser.ts:78-122 | Every arrival opens a period closed by the next record's date, or left open at the end of the records. |
| I94Parser.EachArrivalOnce | lib/i94-parser.ts:75-122 | The arrival dates of the periods are the arrival records' dates, in order: each arrival is the arrival of exactly one period. |
| I94Parser.ArrivalsStep | lib/i94-parser.ts:78-113 | Each record adds its own date to the periods' arrivals exactly when it is an arrival. |
| I94Parser.ClosedGrows | lib/i94-parser.ts:75-114 | Each turn of the loop only appends periods. |
| I94Parser.ArrivalsOfSnoc | lib/i94-parser.ts:89-121 | A period or none appended after others adds its own arrival at the end of theirs. |
| I94Parser.ArrivalsOfPrefix | lib/i94-parser.ts:89-121 | Periods appended after others leave the arrivals of the first ones as they were. |
| I94Parser.OpenedArrival | lib/i94-parser.ts:89-121 | The period an arrival record opens holds that record's date as its arrival; other records open none. |
| I94Parser.LeadNoArrival | lib/i94-parser.ts:63-69 | The period a leading departure closes holds no arrival. |
| I94Parser.ConsecutiveArrivalsExample | lib/i94-parser.ts:81-93 | Arrivals on 2024-09-15 and 2024-11-20 give one consecutive-arrivals warning, the period 09-15..11-20 and an open period from 11-20. |
| I94Parser.ConsecutiveArrivalsText | lib/i94-parser.ts:82-86 | The consecutive-arrivals warning names both dates. |
| I94Parser.OverlapPass | lib/i94-parser.ts:124-157 | The all-pairs pass only appends warnings: one for each flagged pair, in (i, j) order. |
| I94Parser.ClosedEnds | lib/i94-parser.ts:75-114 | Every period built before record m ends no later than record m. |
| I94Parser.PairsChained | lib/i94-parser.ts:62-122 | Over sorted records, each period ends no later than the next begins. |
| I94Parser.OverlapPassSilent | lib/i94-parser.ts:124-157 | On the periods the pairing builds from sorted records, the overlap pass adds no warning. |
| I94Parser.ChainedNotFlagged | lib/i94-parser.ts:141-147 | A period that ends no later than another begins is never flagged with it. |
| I94Parser.ParseI94Data | lib/i94-parser.ts:22-182 | The result holds the pairing's periods, sorted newest first by (arrival, else departure), and its warnings. |
| I94Parser.ResultNewestFirst | lib/i94-parser.ts:159-176 | The returned periods are a permutation of those built, in non-increasing order of (arrival, else departure). |
| I94Parser.FormatRangeInjective | lib/i94-parser.ts:187-197 | Different ranges get different descriptions. |
| Spt.CalculateSpt | lib/spt-calculator.ts:22-49 | The result echoes the three inputs. First prior is f/3, second prior is s/6, total is c + f/3 + s/6. The current-year requirement holds iff c >= 31, the total requirement iff the total >= 183, and the test passes iff both hold. |
| Spt.PassesExactly | lib/spt-calculator.ts:32-36 | The test passes exactly when c >= 31 and 6c + 2f + s >= 1098. |
| Spt.PassesMonotone | lib/spt-calculator.ts:29-36 | More days in any year never turn a pass into a fail. |
| Spt.TooFewCurrentDays | lib/spt-calculator.ts:32 | 30 days in the tax year fail, whatever the earlier years hold. |
| Spt.Boundary | lib/spt-calculator.ts:32-33 | Both thresholds are inclusive: (182, 3, 0) totals 183 and passes, and (182, 2, 0) fails. |
| Spt.CurrentYearOnlyExample | lib/spt-calculator.ts:22-49 | (244, 0, 0) totals 244 and passes. |
| Page.ManualInputErrors | app/page.tsx:100-118 | Each count gets an error iff it reads as NaN (`None`), is negative, or is above its own year's 366/365. The message is "Days must be between 0 and" followed by that maximum. No other key is set. |
| Page.ManualInputAccepted | app/page.tsx:119-120 | The input is accepted iff all three counts lie in [0, max] of their own years. |
| Page.LeapYearLimitExample | app/page.tsx:71-73 | With tax year 2024, 366 days are allowed for 2024 but not for 2023. |
| Page.AddPeriod | app/page.tsx:190-290 | A period is added iff neither missing date is unaccounted for, arrival is not after departure, the boxes are not both ticked, no "No arrival" with an earlier existing departure, no "No departure" with a later existing arrival, and no conflict. An added period has a date, is in order and conflicts with nothing. An overlap rejection means a conflict exists. |
| Page.AddPeriodStores | app/page.tsx:275-288 | After an add, the list holds the old periods plus exactly one new one. It is ordered newest first, and the sort is stable. |
| Page.AddPeriodKeepsApart | app/page.tsx:244-290 | When no two stored periods conflict, none do after an add. |
| Page.ApartSymmetric | app/page.tsx:253-266 | The conflict test treats the two periods alike. |
| Page.OverlapRejectedExample | app/page.tsx:244-272 | 2024-06-01..07-31 against 2024-01-01..12-31 is rejected as overlapping. |
| Page.TurnaroundAcceptedExample | app/page.tsx:253-256 | A period starting on an existing period's departure day is accepted. |
| Page.SingleDayAdmittedAsWritten | app/page.tsx:244-267 | The written overlap test admits 2024-06-15..06-15 against 2024-01-01..12-31; the corrected test rejects it. |
| Page.RemoveById | app/page.tsx:299-301 | Removal leaves no period with that id and never lengthens the list. RemoveByIdOne, RemoveByIdAppend and RemoveByIdKeeps give the rest: what remains is the periods with another id, in order. |
| Page.RemoveByIdKeeps | app/page.tsx:299-301 | Every period with a different id is kept, as often as before; those with the id are gone. |
| Page.RemoveByIdOne | app/page.tsx:299-301 | A one-entry list keeps its entry exactly when the id differs. |
| Page.RemoveByIdAppend | app/page.tsx:299-301 | Removal from a concatenation is removal from each part, concatenated: with RemoveByIdOne this makes the result exactly the entries with another id, in their order. |
| Page.RemoveAbsentId | app/page.tsx:299-301 | Removing an id no period has changes nothing. |
| Page.RemoveKeepsApart | app/page.tsx:299-301 | Removal keeps the stored periods free of conflicts. |
| Page.CalculateDays | app/page.tsx:355-356 | There is a count iff both dates are present; otherwise "N/A". |
| Page.CalculateDaysCounts | app/page.tsx:358-364 | For dates in order, the count is the number of days from arrival to departure inclusive. It is at least 1 exactly when arrival is not after departure. |
| Page.SptCalculator.constructor | app/page.tsx:39-60 | The tax year starts at the year before the current one, with no errors, periods, form input or results. |
| Page.SptCalculator.HandleTaxYearChange | app/page.tsx:75-77 | Sets the tax year and nothing else. |
| Page.SptCalculator.SetNoArrival | app/page.tsx:562-567 | Sets the "No arrival" box. Ticking it clears the arrival date. |
| Page.SptCalculator.SetNoDeparture | app/page.tsx:589-594 | Sets the "No departure" box. Ticking it clears the departure date. |
| Page.SptCalculator.SetNewArrivalDate | app/page.tsx:578-579 | Sets the arrival date while its box is unticked. |
| Page.SptCalculator.SetNewDepartureDate | app/page.tsx:605-606 | Sets the departure date while its box is unticked. |
| Page.SptCalculator.HandleAddPeriod | app/page.tsx:190-297 | On rejection, stores the error message and keeps the list and form. On success, stores the sorted list and clears the form and error. Keeps the periods free of conflicts. |
| Page.SptCalculator.RemoveDateRange | app/page.tsx:299-301 | Replaces the list by the periods with a different id. |
| Page.SptCalculator.ValidateManualInputs | app/page.tsx:100-121 | Merges the new errors into the old and returns true iff there are none. |
| Page.SptCalculator.ValidateDateRanges | app/page.tsx:123-137 | Rejects an empty list by setting the "dateRanges" error, and otherwise clears that error. |
| Page.SptCalculator.HandleManualSubmit | app/page.tsx:139-162 | On valid input, stores the test's result with the tax year and the prior-year counts; otherwise leaves the results alone. |
| Page.SptCalculator.HandleDurationSubmit | app/page.tsx:164-188 | On a non-empty list, stores the test's result on the reconciled counts, with a copy of the periods; otherwise sets the error. |

## Left out

- JavaScript `Date` and time zones.
  - The strings are read as plain calendar dates.
  - `new Date("YYYY-MM-DD")` read back through local getters, and the missing noon suffix in some comparisons, are not modelled.
- Strings that pass the date pattern but name no date (for example 2024-13-45). In the source these give NaN timestamps and an unspecified sort order.
  - The model gives them a value and requires calendar dates only where a timestamp's meaning is used: in `Calendar.DateKeyOrder` and in `Page.CalculateDaysCounts`.
- Timestamps that are only compared stand as `DateKey` (YYYYMMDD). Walks and differences use day ordinals.
- The reconciler's `${year}-${month}-${day}` keys are day ordinals. Both are one-to-one on the days of a year, and the three years are disjoint, so the counts are the same.
- IEEE-754 rounding of f/3 and s/6, and the two-decimal `toFixed` display. The model uses exact reals.
- The system clock is a parameter: `today` is a day ordinal.
- `Date.now()` ids are a parameter: `freshId`.
- Form values are given as `Option<real>`, where `None` stands for a value `Number()` turns into NaN. Reading them from `FormData` is not modelled.
  - An empty or absent field reads as `Number("")` or `Number(null)`, which is 0, so it is given as `Some(0.0)` and accepted.
- `handleImportI94` and `handleConfirmImport` are not modelled: dialog and error-message plumbing around the parser. The parser itself is modelled.
- `handleNumberInputChange`, `formatDate`, and all rendering: DOM and display code only.
- The I-94 location column's value. No record keeps it; it matters only through the header test (`I94Parser.LocationDropsRecord`).
- `toLowerCase` beyond ASCII. Lowering any other character never produces the ASCII letters of "date" or "type", so containment of those words is unaffected.
- The in-place `Array.prototype.sort` calls are modelled as the functional stable sort `Sorting.SortBy`, on values. The sort's result is used, not aliasing of the array.
- I94Parser.OverlapPass: its warnings use the corrected overlap test (see Findings). The written test's behaviour is kept in `Periods.Overlaps`.
- Page.AddPeriod: its overlap check uses the corrected test (see Findings). The written test's behaviour is kept in `Page.HasOverlapAsWritten`.

## Findings

| source | as written | input that shows it | evidently intended | confidence | as-written member | corrected member |
|---|---|---|---|---|---|---|
| app/page.tsx:266 (and lib/i94-parser.ts:147) | The pair is treated as overlapping only when max(starts) < min(ends), after turnaround days have been excused. A period of one day strictly inside another has max(starts) == min(ends) and passes. | Existing period 2024-01-01..2024-12-31; new period 2024-06-15..2024-06-15. It is accepted and the day is counted once. | Periods that share a day other than a turnaround day conflict: the test is max(starts) <= min(ends) after the turnaround check. | not executed | Periods.Overlaps, Periods.OverlapsMeaning, Periods.SingleDayInsideMissed, Page.SingleDayAdmittedAsWritten | Periods.OverlapsCorrected, Periods.OverlapsCorrectedMeaning, Page.AddPeriod, I94Parser.OverlapPass |
