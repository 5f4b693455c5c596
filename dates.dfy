/** The date dimension's derived labels and constants (DateDimension in
    opinionated_reporting/models.py): the quarter label "Q<n> <yy>" and the
    day-of-week codes offered as choices. */
module Dates {
  import opened Values

  /** A calendar date as Python's date type holds it. */
  datatype Date = Date(year: int, month: int, day: int)

  predicate ValidDate(d: Date) {
    1 <= d.year <= 9999 && 1 <= d.month <= 12 && 1 <= d.day <= 31
  }

  /** The column width declared for quarter_format. */
  const QuarterFormatMaxLength: nat := 7

  predicate IsDigit(c: char) { '0' <= c <= '9' }

  function DigitChar(d: int): (c: char)
    requires 0 <= d <= 9
    ensures IsDigit(c)
  {
    ('0' as int + d) as char
  }

  function DigitValue(c: char): int
    requires IsDigit(c)
  {
    c as int - '0' as int
  }

  /** The quarter of a month: months 1-3, 4-6, 7-9 and 10-12 are quarters 1 to 4. */
  function Quarter(month: int): (q: int)
    requires 1 <= month <= 12
    ensures 1 <= q <= 4
    ensures 3 * (q - 1) < month <= 3 * q
  {
    if month <= 3 then 1
    else if month <= 6 then 2
    else if month <= 9 then 3
    else 4
  }

  /** strftime('%y'): the year within its century, zero-padded to two digits. */
  function YearOfCentury(year: int): (yy: string)
    ensures |yy| == 2 && IsDigit(yy[0]) && IsDigit(yy[1])
    ensures DigitValue(yy[0]) * 10 + DigitValue(yy[1]) == year % 100
  {
    var y := year % 100;
    [DigitChar(y / 10), DigitChar(y % 10)]
  }

  /** create_quarter_format: "Q", the quarter, a space and the two-digit year. */
  function QuarterFormat(d: Date): (text: string)
    requires ValidDate(d)
    ensures |text| == 5 && text[0] == 'Q' && text[2] == ' '
    ensures |text| <= QuarterFormatMaxLength
  {
    "Q" + [DigitChar(Quarter(d.month))] + " " + YearOfCentury(d.year)
  }

  /** Reads a quarter label back into its quarter and two-digit year. */
  function ParseQuarterLabel(text: string): Option<(int, int)> {
    if |text| == 5 && text[0] == 'Q' && text[2] == ' ' &&
       IsDigit(text[1]) && IsDigit(text[3]) && IsDigit(text[4]) &&
       1 <= DigitValue(text[1]) <= 4
    then Some((DigitValue(text[1]), DigitValue(text[3]) * 10 + DigitValue(text[4])))
    else None
  }

  /** A quarter label reads back as the date's quarter and its year within the century. */
  lemma QuarterLabelRoundTrip(d: Date)
    requires ValidDate(d)
    ensures ParseQuarterLabel(QuarterFormat(d)) == Some((Quarter(d.month), d.year % 100))
  {
    var text := QuarterFormat(d);
    assert text[1] == DigitChar(Quarter(d.month));
    assert text[3..] == YearOfCentury(d.year);
  }

  /** Conversely, every label that reads back is the label of some date:
      the last month of that quarter in that year of the 2000s. */
  lemma ParsedLabelIsAQuarterLabel(text: string)
    requires ParseQuarterLabel(text).Some?
    ensures var (q, yy) := ParseQuarterLabel(text).value;
      ValidDate(Date(2000 + yy, 3 * q, 1)) && QuarterFormat(Date(2000 + yy, 3 * q, 1)) == text
  {
    var (q, yy) := ParseQuarterLabel(text).value;
    var d := Date(2000 + yy, 3 * q, 1);
    var made := QuarterFormat(d);
    assert Quarter(3 * q) == q;
    assert (2000 + yy) % 100 == yy;
    assert made[1] == DigitChar(q) && made[3..] == YearOfCentury(2000 + yy);
    assert DigitValue(made[3]) == DigitValue(text[3]) && DigitValue(made[4]) == DigitValue(text[4]);
    forall i | 0 <= i < 5 ensures made[i] == text[i] {
    }
  }

  /** Two dates share a quarter label exactly when they share the quarter and
      the year within the century. */
  lemma QuarterLabelsEqualIff(d1: Date, d2: Date)
    requires ValidDate(d1) && ValidDate(d2)
    ensures QuarterFormat(d1) == QuarterFormat(d2) <==>
      Quarter(d1.month) == Quarter(d2.month) && d1.year % 100 == d2.year % 100
  {
    QuarterLabelRoundTrip(d1);
    QuarterLabelRoundTrip(d2);
    if Quarter(d1.month) == Quarter(d2.month) && d1.year % 100 == d2.year % 100 {
      assert YearOfCentury(d1.year) == YearOfCentury(d2.year);
    }
  }

  /** Day-of-week codes; Monday is 0 as in Python's date.weekday(). */
  const DayNone: int := -1
  const DayMonday: int := 0
  const DayTeusday: int := 1
  const DayWednesday: int := 2
  const DayThursday: int := 3
  const DayFriday: int := 4
  const DaySaturday: int := 5
  const DaySunday: int := 6

  /** The choices of day_of_week, starting the week on Sunday, with "None" first. */
  const WeekDays: seq<(int, string)> := [
    (DayNone, "None"),
    (DaySunday, "Sunday"),
    (DayMonday, "Monday"),
    (DayTeusday, "Tuesday"),
    (DayWednesday, "Wednesday"),
    (DayThursday, "Thursday"),
    (DayFriday, "Friday"),
    (DaySaturday, "Saturday")
  ]

  /** The choices offered for filtering: the same days without "None". */
  const FilterWeekDays: seq<(int, string)> := [
    (DaySunday, "Sunday"),
    (DayMonday, "Monday"),
    (DayTeusday, "Tuesday"),
    (DayWednesday, "Wednesday"),
    (DayThursday, "Thursday"),
    (DayFriday, "Friday"),
    (DaySaturday, "Saturday")
  ]

  /** The filter choices are the day-of-week choices without the "None"
      entry; their codes are the seven weekday numbers 0 to 6, each once. */
  lemma WeekDayChoices()
    ensures WeekDays[0] == (DayNone, "None") && FilterWeekDays == WeekDays[1..]
    ensures forall i :: 0 <= i < |FilterWeekDays| ==> 0 <= FilterWeekDays[i].0 <= 6
    ensures forall i, j :: 0 <= i < j < |FilterWeekDays| ==> FilterWeekDays[i].0 != FilterWeekDays[j].0
    ensures |FilterWeekDays| == 7
  {
  }
}
