/** Month-year dates of the experience screen: the picker writes a date as
    "<MonthName> <Year>" from a fixed Spanish table, and submit reads it back
    with `split(" ")`, `indexOf` and `parseInt`, builds a JavaScript `Date`
    for the first day of that month, and runs the ordered date checks. */
module ExperienceDates {
  import opened CvTypes
  import opened Text

  const MonthNames: seq<string> := [
    "Enero", "Febrero", "Marzo", "Abril", "Mayo", "Junio",
    "Julio", "Agosto", "Septiembre", "Octubre", "Noviembre", "Diciembre"
  ]

  type MonthIndex = m: nat | m < 12

  /** A month of a year, as the picker yields it (`getMonth()` and
      `getFullYear()`); years before the common era are not modelled. */
  datatype MonthYear = MonthYear(month: MonthIndex, year: nat)

  /** `(a.year, a.month)` comes after `(b.year, b.month)` lexicographically. */
  predicate LaterMonth(a: MonthYear, b: MonthYear)
  {
    a.year > b.year || (a.year == b.year && a.month > b.month)
  }

  /** The text the picker stores: `${monthNames[m]} ${year}`. */
  function FormatMonthYear(d: MonthYear): string
  {
    MonthNames[d.month] + " " + NatToDecimal(d.year)
  }

  /** `monthNames.indexOf(name)`: the position of `name`, or -1. */
  function MonthIndexOf(name: string): (i: int)
    ensures -1 <= i < 12
    ensures i >= 0 ==> MonthNames[i] == name
    ensures i == -1 <==> name !in MonthNames
  {
    if name in MonthNames then
      var k :| 0 <= k < 12 && MonthNames[k] == name;
      assert forall j :: 0 <= j < 12 && MonthNames[j] == name ==> j == k;
      k
    else -1
  }

  /** A month name has no space, and `indexOf` finds it at its own
      position: the twelve names are distinct. */
  lemma MonthNameReadsBack(m: MonthIndex)
    ensures ' ' !in MonthNames[m] && MonthNames[m] != ""
    ensures MonthIndexOf(MonthNames[m]) == m
  {
    var i := MonthIndexOf(MonthNames[m]);
    assert MonthNames[i] == MonthNames[m];
    assert MonthNames[i][0] == MonthNames[m][0] && |MonthNames[i]| == |MonthNames[m]|;
  }

  /** What `const [m, y] = s.split(" ")` followed by `monthNames.indexOf(m)`
      and `parseInt(y)` yields; `year == None` stands for NaN, which is what
      `parseInt(undefined)` gives when the text has no second piece. */
  datatype ParsedDate = ParsedDate(monthIndex: int, year: Option<nat>)

  function ParseDateText(s: string): (p: ParsedDate)
    ensures -1 <= p.monthIndex < 12
  {
    var parts := Split(s, ' ');
    ParsedDate(MonthIndexOf(parts[0]), if |parts| < 2 then None else ParseIntPrefix(parts[1]))
  }

  /** Parsing the picker's text gives back the month index and year it was
      made from. */
  lemma FormatThenParse(d: MonthYear)
    ensures ParseDateText(FormatMonthYear(d)) == ParsedDate(d.month, Some(d.year))
  {
    var name, digits := MonthNames[d.month], NatToDecimal(d.year);
    MonthNameReadsBack(d.month);
    SplitAtFirst(name, ' ', digits);
    SplitNoSeparator(digits, ' ');
    assert FormatMonthYear(d) == name + [' '] + digits;
    DecimalRoundTrip(d.year);
  }

  /** A JavaScript `Date` made by `new Date(year, monthIndex)`: the first
      instant of a month, or the invalid date when the year is NaN. */
  datatype JsDate = InvalidDate | MonthStart(year: int, month: MonthIndex)

  /** `new Date(year, monthIndex)` with `monthIndex` in -1..11: a year in
      0..99 means 1900..1999, and month -1 is December of the year before. */
  function NewDate(p: ParsedDate): JsDate
    requires -1 <= p.monthIndex < 12
  {
    match p.year
    case None => InvalidDate
    case Some(y) =>
      var fullYear := if y <= 99 then 1900 + y else y;
      if p.monthIndex == -1 then MonthStart(fullYear - 1, 11)
      else MonthStart(fullYear, p.monthIndex)
  }

  /** The `Date` submit builds from a stored date text. */
  function DateOfText(s: string): JsDate
  {
    NewDate(ParseDateText(s))
  }

  /** A picked date from year 100 on comes back as the first instant of the
      same month. */
  lemma PickedDateReadsBack(d: MonthYear)
    requires d.year >= 100
    ensures DateOfText(FormatMonthYear(d)) == MonthStart(d.year, d.month)
  {
    FormatThenParse(d);
  }

  /** A picked year below 100 is read back as 1900 plus that year. */
  lemma TwoDigitYearReadsAs1900s(d: MonthYear)
    requires d.year <= 99
    ensures DateOfText(FormatMonthYear(d)) == MonthStart(1900 + d.year, d.month)
  {
    FormatThenParse(d);
  }

  /** Months counted from the start of year 0; a `Date`'s time value grows
      with it. */
  function MonthCount(year: int, month: MonthIndex): int { 12 * year + month }

  /** JavaScript `a > b` on two `Date`s: false when either is invalid. */
  predicate IsLater(a: JsDate, b: JsDate)
  {
    a.MonthStart? && b.MonthStart? && MonthCount(a.year, a.month) > MonthCount(b.year, b.month)
  }

  /** `date > new Date()` for the first instant of a month, with "now" inside
      month `today`: true exactly when the date's month is later. */
  predicate IsFuture(date: JsDate, today: MonthYear)
  {
    IsLater(date, MonthStart(today.year, today.month))
  }

  const StartRequiredMessage := "La fecha de inicio es obligatoria."
  const StartFutureMessage := "La fecha de inicio no puede ser futura."
  const EndFutureMessage := "La fecha de fin no puede ser futura."
  const EndBeforeStartMessage := "La fecha de fin no puede ser anterior a la fecha de inicio."

  /** The cross-field checks of submit, in source order; `Some(message)` is
      the first failure, shown in an error alert, and `None` lets the record
      through. */
  function CheckDates(startDate: string, endDate: string, today: MonthYear): (r: Option<string>)
    ensures startDate == "" ==> r == Some(StartRequiredMessage)
    ensures startDate != "" && endDate == "" ==> (r == None <==> !IsFuture(DateOfText(startDate), today))
  {
    if startDate == "" then Some(StartRequiredMessage)
    else
      var start := DateOfText(startDate);
      if IsFuture(start, today) then Some(StartFutureMessage)
      else if endDate == "" then None
      else
        var end := DateOfText(endDate);
        if IsFuture(end, today) then Some(EndFutureMessage)
        else if IsLater(start, end) then Some(EndBeforeStartMessage)
        else None
  }

  /** The end-date text of the form: empty for "ongoing". */
  function EndText(end: Option<MonthYear>): string
  {
    if end.None? then "" else FormatMonthYear(end.value)
  }

  lemma LaterMonthIsLaterDate(a: MonthYear, b: MonthYear)
    ensures LaterMonth(a, b) <==> IsLater(MonthStart(a.year, a.month), MonthStart(b.year, b.month))
  {
  }

  /** For dates the picker produced (years from 100 on), the checks are the
      lexicographic comparisons of (year, month) pairs, in the source's order:
      start in the future, end in the future, end before start. */
  lemma PickedDatesVerdict(start: MonthYear, end: Option<MonthYear>, today: MonthYear)
    requires start.year >= 100 && (end.Some? ==> end.value.year >= 100)
    ensures CheckDates(FormatMonthYear(start), EndText(end), today) ==
      if LaterMonth(start, today) then Some(StartFutureMessage)
      else if end.Some? && LaterMonth(end.value, today) then Some(EndFutureMessage)
      else if end.Some? && LaterMonth(start, end.value) then Some(EndBeforeStartMessage)
      else None
  {
    PickedDateReadsBack(start);
    LaterMonthIsLaterDate(start, today);
    assert FormatMonthYear(start) != "" by {
      assert |MonthNames[start.month]| > 0;
    }
    if end.Some? {
      PickedDateReadsBack(end.value);
      LaterMonthIsLaterDate(end.value, today);
      LaterMonthIsLaterDate(start, end.value);
      assert EndText(end) != "" by {
        assert |MonthNames[end.value.month]| > 0;
      }
    }
  }

  /** Acceptance of picked dates: the start is not after the current month,
      and an end, when given, is neither after the current month nor before
      the start. */
  lemma PickedDatesAccepted(start: MonthYear, end: Option<MonthYear>, today: MonthYear)
    requires start.year >= 100 && (end.Some? ==> end.value.year >= 100)
    ensures CheckDates(FormatMonthYear(start), EndText(end), today) == None <==>
      !LaterMonth(start, today)
      && (end.Some? ==> !LaterMonth(end.value, today) && !LaterMonth(start, end.value))
  {
    PickedDatesVerdict(start, end, today);
  }

  /** Boundary cases: the current month is accepted as a start, an end equal
      to the start is accepted, and an end one month before the start is
      rejected as "before the start". */
  lemma PickedDatesBoundaries(start: MonthYear, today: MonthYear)
    requires start.year >= 100 && today.year >= 100 && !LaterMonth(start, today)
    ensures CheckDates(FormatMonthYear(today), "", today) == None
    ensures CheckDates(FormatMonthYear(start), FormatMonthYear(start), today) == None
    ensures start.month > 0 ==>
      CheckDates(FormatMonthYear(start), FormatMonthYear(start.(month := start.month - 1)), today)
        == Some(EndBeforeStartMessage)
  {
    PickedDatesAccepted(today, None, today);
    PickedDatesAccepted(start, Some(start), today);
    if start.month > 0 {
      PickedDatesVerdict(start, Some(start.(month := start.month - 1)), today);
    }
  }

  /** The date line shown for an experience in the list, the preview and the
      printed document: an empty end date reads "Actual". */
  function DateRangeText(x: Experience): (s: string)
    ensures x.endDate == "" ==> s == x.startDate + " - Actual"
    ensures x.endDate != "" ==> s == x.startDate + " - " + x.endDate
  {
    x.startDate + " - " + (if x.endDate == "" then "Actual" else x.endDate)
  }

  /** The lines of an experience card (list and preview): position, company,
      the date range, and the description only when it is non-empty. */
  function ExperienceLines(x: Experience): (lines: seq<string>)
    ensures |lines| == (if x.description == "" then 3 else 4)
    ensures lines[..3] == [x.position, x.company, DateRangeText(x)]
    ensures x.description in lines[3..] <==> x.description != ""
  {
    [x.position, x.company, DateRangeText(x)] + (if x.description == "" then [] else [x.description])
  }
}
