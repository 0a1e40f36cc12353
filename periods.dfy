/** Travel periods and the interval-overlap test shared by the I-94 import and
    the add-period form. */
module Periods {
  import opened Calendar

  datatype Option<T> = None | Some(value: T)

  /** A travel period as the I-94 parser builds it: a missing arrival means "already
      present before the records begin", a missing departure "still present". */
  datatype Period = Period(arrivalDate: Option<IsoDate>, departureDate: Option<IsoDate>)

  /** A travel period as the page keeps it in its list and hands it to the day
      reconciler, with the id the list is edited by. */
  datatype DateRange = DateRange(id: string, arrivalDate: Option<IsoDate>, departureDate: Option<IsoDate>)

  function ToPeriod(r: DateRange): Period {
    Period(r.arrivalDate, r.departureDate)
  }

  // ---------------------------------------------------------------------------
  // Timestamps with the two infinities the overlap tests use for open ends

  datatype Bound = NegInf | At(day: int) | PosInf

  predicate Below(a: Bound, b: Bound) {
    match (a, b)
    case (NegInf, NegInf) => false
    case (NegInf, _) => true
    case (At(x), At(y)) => x < y
    case (At(_), PosInf) => true
    case _ => false
  }

  predicate AtMost(a: Bound, b: Bound) {
    a == b || Below(a, b)
  }

  function Max(a: Bound, b: Bound): Bound {
    if Below(a, b) then b else a
  }

  function Min(a: Bound, b: Bound): Bound {
    if Below(a, b) then a else b
  }

  /** The timestamp of an arrival, up to order (`DateKey`); a missing arrival is
      Number.NEGATIVE_INFINITY. */
  function StartBound(d: Option<IsoDate>): Bound {
    match d
    case None => NegInf
    case Some(s) => At(DateKey(s))
  }

  /** The timestamp of a departure, up to order; a missing departure is
      Number.POSITIVE_INFINITY. */
  function EndBound(d: Option<IsoDate>): Bound {
    match d
    case None => PosInf
    case Some(s) => At(DateKey(s))
  }

  /** Day x lies in the closed period start..end. */
  predicate Covers(start: Bound, end: Bound, x: int) {
    AtMost(start, At(x)) && AtMost(At(x), end)
  }

  /** Day x is shared by the two periods. */
  predicate Shared(s1: Bound, e1: Bound, s2: Bound, e2: Bound, x: int) {
    Covers(s1, e1, x) && Covers(s2, e2, x)
  }

  /** Day x is the one day on which one period ends and the other begins. */
  predicate Touches(s1: Bound, e1: Bound, s2: Bound, e2: Bound, x: int) {
    (e1 == At(x) && s2 == At(x)) || (e2 == At(x) && s1 == At(x))
  }

  /** The overlap test as the source writes it (i94-parser.ts and page.tsx): a
      departure on the day of the other period's arrival is allowed, and otherwise
      the periods overlap when max(starts) < min(ends). */
  predicate Overlaps(s1: Bound, e1: Bound, s2: Bound, e2: Bound) {
    !(e1 == s2 || e2 == s1) && Below(Max(s1, s2), Min(e1, e2))
  }

  /** The overlap test as intended: periods that share any day conflict, unless the
      only contact is the turnaround day on which one ends and the other begins. */
  predicate OverlapsCorrected(s1: Bound, e1: Bound, s2: Bound, e2: Bound) {
    !(e1 == s2 || e2 == s1) && AtMost(Max(s1, s2), Min(e1, e2))
  }

  // ---------------------------------------------------------------------------
  // What the two tests mean in days

  /** The written test flags exactly the pairs of periods that share at least two
      days; a single shared day is never flagged, wherever it lies. */
  lemma OverlapsMeaning(s1: Bound, e1: Bound, s2: Bound, e2: Bound)
    ensures Overlaps(s1, e1, s2, e2)
        <==> exists x, y :: x < y && Shared(s1, e1, s2, e2, x) && Shared(s1, e1, s2, e2, y)
  {
    if Overlaps(s1, e1, s2, e2) {
      OverlapsShareTwo(s1, e1, s2, e2);
    }
    if exists x, y :: x < y && Shared(s1, e1, s2, e2, x) && Shared(s1, e1, s2, e2, y) {
      var x, y :| x < y && Shared(s1, e1, s2, e2, x) && Shared(s1, e1, s2, e2, y);
      ShareTwoOverlaps(s1, e1, s2, e2, x, y);
    }
  }

  lemma OverlapsShareTwo(s1: Bound, e1: Bound, s2: Bound, e2: Bound)
    requires Overlaps(s1, e1, s2, e2)
    ensures exists x :: Shared(s1, e1, s2, e2, x) && Shared(s1, e1, s2, e2, x + 1)
  {
    var lo, hi := Max(s1, s2), Min(e1, e2);
    var x := if lo.At? then lo.day else if hi.At? then hi.day - 1 else 0;
    assert Shared(s1, e1, s2, e2, x) && Shared(s1, e1, s2, e2, x + 1);
  }

  lemma ShareTwoOverlaps(s1: Bound, e1: Bound, s2: Bound, e2: Bound, x: int, y: int)
    requires x < y && Shared(s1, e1, s2, e2, x) && Shared(s1, e1, s2, e2, y)
    ensures Overlaps(s1, e1, s2, e2)
  {
    assert AtMost(Max(s1, s2), At(x)) && AtMost(At(y), Min(e1, e2));
  }

  /** The intended test lets two periods through exactly when every day they share
      is a turnaround day on which one of them ends and the other begins. */
  lemma OverlapsCorrectedMeaning(s1: Bound, e1: Bound, s2: Bound, e2: Bound)
    ensures !OverlapsCorrected(s1, e1, s2, e2)
        <==> forall x :: Shared(s1, e1, s2, e2, x) ==> Touches(s1, e1, s2, e2, x)
  {
    if !OverlapsCorrected(s1, e1, s2, e2) {
      forall x | Shared(s1, e1, s2, e2, x) ensures Touches(s1, e1, s2, e2, x) {
        assert AtMost(Max(s1, s2), At(x)) && AtMost(At(x), Min(e1, e2));
      }
    } else {
      var lo := Max(s1, s2);
      var x := if lo.At? then lo.day else if Min(e1, e2).At? then Min(e1, e2).day else 0;
      assert Shared(s1, e1, s2, e2, x) && !Touches(s1, e1, s2, e2, x);
    }
  }

  /** Both tests treat the two periods alike. */
  lemma OverlapsSymmetric(s1: Bound, e1: Bound, s2: Bound, e2: Bound)
    ensures Overlaps(s1, e1, s2, e2) == Overlaps(s2, e2, s1, e1)
    ensures OverlapsCorrected(s1, e1, s2, e2) == OverlapsCorrected(s2, e2, s1, e1)
  {
    assert Max(s1, s2) == Max(s2, s1) && Min(e1, e2) == Min(e2, e1);
  }

  /** Periods that meet on a turnaround day, one ending as the other begins, are
      never taken to overlap, by either test. */
  lemma TouchingNeverOverlaps(s1: Bound, e1: Bound, s2: Bound, e2: Bound)
    requires e1 == s2 || e2 == s1
    ensures !Overlaps(s1, e1, s2, e2) && !OverlapsCorrected(s1, e1, s2, e2)
  {
  }

  /** The written test misses a one-day stay strictly inside another period (a one-day
      stay on 15 June 2024 against a stay from 1 January to 31 December 2024): the two
      share that day, which is no turnaround day, yet the written test lets them
      through, while the intended test flags them. */
  lemma SingleDayInsideMissed(first: int, day: int, last: int)
    requires first < day < last
    ensures Shared(At(day), At(day), At(first), At(last), day)
    ensures !Touches(At(day), At(day), At(first), At(last), day)
    ensures !Overlaps(At(day), At(day), At(first), At(last))
    ensures OverlapsCorrected(At(day), At(day), At(first), At(last))
  {
  }
}
