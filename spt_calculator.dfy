/** The substantial presence test: the days of the tax year count in full, the
    days of the year before it a third each and the days of the year before that a
    sixth each; the test is met with at least 31 days in the tax year and at least
    183 weighted days in all. Day counts are exact rational numbers here. */
module Spt {

  datatype SptInput = SptInput(currentYearDays: real, firstPriorYearDays: real, secondPriorYearDays: real)

  /** The result of the test, with the day counts it was given. */
  datatype SptResult = SptResult(
    currentYearDays: real,
    firstPriorYearDays: real,
    secondPriorYearDays: real,
    firstPriorYearDaysCalculated: real,
    secondPriorYearDaysCalculated: real,
    totalDays: real,
    meetsCurrentYearRequirement: bool,
    meetsTotalDaysRequirement: bool,
    passesTest: bool)

  const CurrentYearMinimum: real := 31.0
  const TotalDaysMinimum: real := 183.0

  /** calculateSPT */
  function CalculateSpt(input: SptInput): (r: SptResult)
    ensures r.currentYearDays == input.currentYearDays
    ensures r.firstPriorYearDays == input.firstPriorYearDays
    ensures r.secondPriorYearDays == input.secondPriorYearDays
    ensures 3.0 * r.firstPriorYearDaysCalculated == input.firstPriorYearDays
    ensures 6.0 * r.secondPriorYearDaysCalculated == input.secondPriorYearDays
    ensures 6.0 * r.totalDays
      == 6.0 * input.currentYearDays + 2.0 * input.firstPriorYearDays + input.secondPriorYearDays
    ensures r.meetsCurrentYearRequirement <==> input.currentYearDays >= 31.0
    ensures r.meetsTotalDaysRequirement
      <==> 6.0 * input.currentYearDays + 2.0 * input.firstPriorYearDays + input.secondPriorYearDays >= 1098.0
    ensures r.passesTest <==> r.meetsCurrentYearRequirement && r.meetsTotalDaysRequirement
  {
    var currentYearDays := input.currentYearDays;
    var firstPriorYearDaysCalculated := input.firstPriorYearDays / 3.0;
    var secondPriorYearDaysCalculated := input.secondPriorYearDays / 6.0;
    var totalDays := currentYearDays + firstPriorYearDaysCalculated + secondPriorYearDaysCalculated;
    var meetsCurrentYearRequirement := currentYearDays >= CurrentYearMinimum;
    var meetsTotalDaysRequirement := totalDays >= TotalDaysMinimum;
    SptResult(currentYearDays, input.firstPriorYearDays, input.secondPriorYearDays,
              firstPriorYearDaysCalculated, secondPriorYearDaysCalculated, totalDays,
              meetsCurrentYearRequirement, meetsTotalDaysRequirement,
              meetsCurrentYearRequirement && meetsTotalDaysRequirement)
  }

  /** The test passes exactly with 31 days in the tax year and 1098 sixth-days in all
      (183 weighted days, denominators cleared). */
  lemma PassesExactly(c: real, f: real, s: real)
    ensures CalculateSpt(SptInput(c, f, s)).passesTest <==> c >= 31.0 && 6.0 * c + 2.0 * f + s >= 1098.0
  {
  }

  /** More days in any year never turn a pass into a fail. */
  lemma PassesMonotone(a: SptInput, b: SptInput)
    requires a.currentYearDays <= b.currentYearDays
    requires a.firstPriorYearDays <= b.firstPriorYearDays
    requires a.secondPriorYearDays <= b.secondPriorYearDays
    ensures CalculateSpt(a).passesTest ==> CalculateSpt(b).passesTest
  {
  }

  /** 30 days in the tax year fail the test whatever the earlier years hold. */
  lemma TooFewCurrentDays(f: real, s: real)
    ensures !CalculateSpt(SptInput(30.0, f, s)).passesTest
  {
  }

  /** The thresholds are inclusive: 182 days this year and 3 the year before make
      exactly 183 weighted days and pass; one day fewer the year before fails. */
  lemma Boundary()
    ensures CalculateSpt(SptInput(182.0, 3.0, 0.0)).totalDays == 183.0
    ensures CalculateSpt(SptInput(182.0, 3.0, 0.0)).passesTest
    ensures !CalculateSpt(SptInput(182.0, 2.0, 0.0)).passesTest
    ensures CalculateSpt(SptInput(31.0, 456.0, 0.0)).passesTest
  {
  }

  /** 244 days in the tax year alone: 244 weighted days, and the test passes. */
  lemma CurrentYearOnlyExample()
    ensures CalculateSpt(SptInput(244.0, 0.0, 0.0)).totalDays == 244.0
    ensures CalculateSpt(SptInput(244.0, 0.0, 0.0)).passesTest
  {
  }
}
