/**
 * Proleptic Gregorian calendar dates as Python's `datetime.date` has them
 * (years 1 to 9999), their order, the ISO text `YYYY-MM-DD` that
 * `date.isoformat()` writes, and `date.fromisoformat` restricted to that text.
 */
module Calendar {
  import opened Common
  import opened Text

  datatype Date = Date(year: int, month: int, day: int)

  predicate IsLeapYear(y: int) {
    y % 4 == 0 && (y % 100 != 0 || y % 400 == 0)
  }

  function DaysInMonth(y: int, m: int): (n: int)
    requires 1 <= m <= 12
    ensures 28 <= n <= 31
  {
    if m == 2 then (if IsLeapYear(y) then 29 else 28)
    else if m == 4 || m == 6 || m == 9 || m == 11 then 30
    else 31
  }

  /** The dates `datetime.date` can represent. */
  predicate IsValidDate(d: Date) {
    && 1 <= d.year <= 9999
    && 1 <= d.month <= 12
    && 1 <= d.day <= DaysInMonth(d.year, d.month)
  }

  type ValidDate = d: Date | IsValidDate(d) witness Date(1, 1, 1)

  /** `a < b` on dates: chronological order. */
  predicate Before(a: Date, b: Date) {
    || a.year < b.year
    || (a.year == b.year && a.month < b.month)
    || (a.year == b.year && a.month == b.month && a.day < b.day)
  }

  /**
   * `date.isoformat()`: four digits of year, two of month, two of day,
   * separated by `-`.
   */
  function IsoFormat(d: ValidDate): (s: string)
    ensures |s| == 10 && s[4] == '-' && s[7] == '-'
    ensures IsDigits(s[..4]) && IsDigits(s[5..7]) && IsDigits(s[8..])
    ensures DigitsValue(s[..4]) == d.year && DigitsValue(s[5..7]) == d.month && DigitsValue(s[8..]) == d.day
  {
    var s := Pad(d.year, 4) + "-" + Pad(d.month, 2) + "-" + Pad(d.day, 2);
    assert s[..4] == Pad(d.year, 4) && s[5..7] == Pad(d.month, 2) && s[8..] == Pad(d.day, 2);
    s
  }

  /**
   * `date.fromisoformat(s)` (and `datetime.fromisoformat(s).date()`) on the
   * extended calendar form `YYYY-MM-DD`; anything else is a `ValueError`,
   * given here as `None`. Every text it accepts is the `isoformat` of the
   * date it reads.
   */
  function FromIsoFormat(s: string): (d: Option<ValidDate>)
    ensures d.Some? ==> IsoFormat(d.value) == s
  {
    if |s| == 10 && s[4] == '-' && s[7] == '-'
       && IsDigits(s[..4]) && IsDigits(s[5..7]) && IsDigits(s[8..])
    then
      var d := Date(DigitsValue(s[..4]), DigitsValue(s[5..7]), DigitsValue(s[8..]));
      if IsValidDate(d) then
        IsoFormatOfFields(s);
        Some(d)
      else None
    else None
  }

  /** Text of the ISO shape is the `isoformat` of the date its digits spell, when that is a date. */
  lemma IsoFormatOfFields(s: string)
    requires |s| == 10 && s[4] == '-' && s[7] == '-'
    requires IsDigits(s[..4]) && IsDigits(s[5..7]) && IsDigits(s[8..])
    requires IsValidDate(Date(DigitsValue(s[..4]), DigitsValue(s[5..7]), DigitsValue(s[8..])))
    ensures IsoFormat(Date(DigitsValue(s[..4]), DigitsValue(s[5..7]), DigitsValue(s[8..]))) == s
  {
    var year, month, day := s[..4], s[5..7], s[8..];
    PadDigitsValue(year);
    PadDigitsValue(month);
    PadDigitsValue(day);
    assert IsoFormat(Date(DigitsValue(year), DigitsValue(month), DigitsValue(day))) == year + "-" + month + "-" + day;
    assert s == year + "-" + month + "-" + day;
  }

  /** Reading back what `isoformat` wrote gives the same date. */
  lemma IsoFormatRoundTrip(d: ValidDate)
    ensures FromIsoFormat(IsoFormat(d)) == Some(d)
  {
    var s := IsoFormat(d);
    assert FromIsoFormat(s).Some?;
  }

  /** `Before` is a strict total order on dates. */
  lemma BeforeIsStrictTotalOrder(a: Date, b: Date, c: Date)
    ensures !Before(a, a)
    ensures Before(a, b) ==> !Before(b, a)
    ensures Before(a, b) && Before(b, c) ==> Before(a, c)
    ensures a == b || Before(a, b) || Before(b, a)
  {
  }
}
