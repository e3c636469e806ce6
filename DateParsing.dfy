/**
 * `InvoiceExtractor._parse_date` (invoice_qc/extractor.py): the text is
 * stripped, read with `datetime.strptime` in the formats `%d.%m.%Y`,
 * `%d/%m/%Y`, `%m/%d/%Y` and `%Y-%m-%d`, tried in that order, and the first
 * reading is written back as ISO text `YYYY-MM-DD`.
 */
module DateParsing {
  import opened Common
  import opened Text
  import opened Calendar

  // -------------------------------------------------------------- strptime

  /** A field `%d` matches in full: `3[01]|[12]\d|0[1-9]|[1-9]| [1-9]`. */
  predicate DayText(t: string) {
    || (|t| == 2 && t[0] == '3' && (t[1] == '0' || t[1] == '1'))
    || (|t| == 2 && (t[0] == '1' || t[0] == '2') && IsDigit(t[1]))
    || (|t| == 2 && t[0] == '0' && '1' <= t[1] <= '9')
    || (|t| == 1 && '1' <= t[0] <= '9')
    || (|t| == 2 && t[0] == ' ' && '1' <= t[1] <= '9')
  }

  /** A field `%m` matches in full: `1[0-2]|0[1-9]|[1-9]`. */
  predicate MonthText(t: string) {
    || (|t| == 2 && t[0] == '1' && '0' <= t[1] <= '2')
    || (|t| == 2 && t[0] == '0' && '1' <= t[1] <= '9')
    || (|t| == 1 && '1' <= t[0] <= '9')
  }

  /** A field `%Y` matches in full: four digits. */
  predicate YearText(t: string) {
    |t| == 4 && IsDigits(t)
  }

  /** The number a matched field stands for; the leading space a day may have is padding. */
  function FieldValue(t: string): (n: nat)
    requires DayText(t) || MonthText(t) || YearText(t)
    ensures DayText(t) ==> 1 <= n <= 31
    ensures MonthText(t) ==> 1 <= n <= 12
  {
    if t[0] == ' ' then DigitValue(t[1])
    else if |t| == 1 then DigitValue(t[0])
    else if |t| == 2 then DigitValue(t[0]) * 10 + DigitValue(t[1])
    else DigitsValue(t)
  }

  /** The three formats' layouts; each has two separators between its three fields. */
  datatype DateFormat = DayMonthYear(sep: char) | MonthDayYear(sep: char) | YearMonthDay(sep: char)

  /** The formats `_parse_date` tries, in its order. */
  const Formats: seq<DateFormat> := [DayMonthYear('.'), DayMonthYear('/'), MonthDayYear('/'), YearMonthDay('-')]

  /**
   * The text split at its first two separators. The fields of a format hold
   * no separator, so this is the only split strptime's pattern can match.
   */
  function Fields(s: string, sep: char): (r: Option<(string, string, string)>)
    ensures r.Some? ==> s == r.value.0 + [sep] + r.value.1 + [sep] + r.value.2
    ensures r.Some? ==> sep !in r.value.0 && sep !in r.value.1
  {
    match IndexOf(s, sep)
    case None => None
    case Some(i) =>
      var rest := s[i + 1..];
      match IndexOf(rest, sep)
      case None => None
      case Some(j) =>
        SplitTwice(s, i, j, sep);
        Some((s[..i], rest[..j], rest[j + 1..]))
  }

  /** A text cut at two occurrences of `sep` is the three pieces joined by `sep`. */
  lemma SplitTwice(s: string, i: nat, j: nat, sep: char)
    requires i < |s| && s[i] == sep
    requires j < |s| - i - 1 && s[i + 1..][j] == sep
    ensures s == s[..i] + [sep] + s[i + 1..][..j] + [sep] + s[i + 1..][j + 1..]
  {
    var rest := s[i + 1..];
    assert rest == rest[..j] + [sep] + rest[j + 1..];
    assert s == s[..i] + [sep] + rest;
  }

  /** The date three fields stand for, if each matches its directive and together they form a date. */
  function Reading(day: string, month: string, year: string): (d: Option<ValidDate>)
    ensures d.Some? ==> DayText(day) && MonthText(month) && YearText(year)
  {
    if DayText(day) && MonthText(month) && YearText(year) then
      var date := Date(FieldValue(year), FieldValue(month), FieldValue(day));
      if IsValidDate(date) then Some(date) else None
    else None
  }

  /**
   * `datetime.strptime(s, fmt).date()`: the fields in the format's order;
   * `None` stands for the `ValueError`.
   */
  function Strptime(s: string, fmt: DateFormat): (d: Option<ValidDate>)
    ensures d.Some? ==> 8 <= |s| <= 10 && fmt.sep in s
  {
    match Fields(s, fmt.sep)
    case None => None
    case Some((a, b, c)) =>
      match fmt
      case DayMonthYear(_) => Reading(a, b, c)
      case MonthDayYear(_) => Reading(b, a, c)
      case YearMonthDay(_) => Reading(c, b, a)
  }

  /** The reading of the first format in `formats` that accepts `s`. */
  function FirstReading(s: string, formats: seq<DateFormat>): (d: Option<ValidDate>)
    ensures d.None? <==> forall k :: 0 <= k < |formats| ==> Strptime(s, formats[k]).None?
    decreases |formats|
  {
    if formats == [] then None
    else
      assert forall k :: 1 <= k < |formats| ==> formats[k] == formats[1..][k - 1];
      match Strptime(s, formats[0])
      case Some(d) => Some(d)
      case None => FirstReading(s, formats[1..])
  }

  lemma FormatsListed()
    ensures |Formats| == 4
    ensures Formats[0] == DayMonthYear('.') && Formats[1] == DayMonthYear('/')
    ensures Formats[2] == MonthDayYear('/') && Formats[3] == YearMonthDay('-')
  {
  }

  /** The first format that reads the text decides the reading; the later ones are not tried. */
  lemma {:induction false} FirstReadingIsFirst(s: string, formats: seq<DateFormat>, k: nat)
    requires k < |formats| && Strptime(s, formats[k]).Some?
    requires forall j :: 0 <= j < k ==> Strptime(s, formats[j]).None?
    ensures FirstReading(s, formats) == Strptime(s, formats[k])
    decreases k
  {
    if k > 0 {
      var rest := formats[1..];
      assert rest[k - 1] == formats[k];
      assert forall j :: 0 <= j < k - 1 ==> rest[j] == formats[j + 1];
      FirstReadingIsFirst(s, rest, k - 1);
    }
  }

  /** The first format is tried before the rest. */
  lemma FirstReadingCons(s: string, fmt: DateFormat, rest: seq<DateFormat>)
    ensures FirstReading(s, [fmt] + rest) ==
      if Strptime(s, fmt).Some? then Strptime(s, fmt) else FirstReading(s, rest)
  {
    assert ([fmt] + rest)[1..] == rest;
  }

  /** Four formats are tried in their order. */
  lemma FirstOfFour(s: string, f0: DateFormat, f1: DateFormat, f2: DateFormat, f3: DateFormat)
    ensures FirstReading(s, [f0, f1, f2, f3]) ==
      if Strptime(s, f0).Some? then Strptime(s, f0)
      else if Strptime(s, f1).Some? then Strptime(s, f1)
      else if Strptime(s, f2).Some? then Strptime(s, f2)
      else Strptime(s, f3)
  {
    FirstReadingCons(s, f3, []);
    FirstReadingCons(s, f2, [f3]);
    FirstReadingCons(s, f1, [f2, f3]);
    FirstReadingCons(s, f0, [f1, f2, f3]);
    assert [f0, f1, f2, f3] == [f0] + [f1, f2, f3];
    assert [f1, f2, f3] == [f1] + [f2, f3];
    assert [f2, f3] == [f2] + [f3];
    assert [f3] == [f3] + [];
  }

  /** `_parse_date`'s order of formats: day first with points, day first with slashes, month first, ISO. */
  lemma FormatOrder(s: string)
    ensures FirstReading(s, Formats) ==
      if Strptime(s, DayMonthYear('.')).Some? then Strptime(s, DayMonthYear('.'))
      else if Strptime(s, DayMonthYear('/')).Some? then Strptime(s, DayMonthYear('/'))
      else if Strptime(s, MonthDayYear('/')).Some? then Strptime(s, MonthDayYear('/'))
      else Strptime(s, YearMonthDay('-'))
  {
    FirstOfFour(s, DayMonthYear('.'), DayMonthYear('/'), MonthDayYear('/'), YearMonthDay('-'));
  }

  /** `dt.date().isoformat()` of a reading. */
  function IsoText(d: Option<ValidDate>): Option<string> {
    match d
    case Some(date) => Some(IsoFormat(date))
    case None => None
  }

  /** What `_parse_date` returns: the ISO text of the first reading, or `None`. */
  function ParsedDate(dateStr: string): (r: Option<string>)
    ensures r.Some? ==> |r.value| == 10 && r.value[4] == '-' && r.value[7] == '-'
    ensures r.Some? ==> IsDigits(r.value[..4]) && IsDigits(r.value[5..7]) && IsDigits(r.value[8..])
  {
    IsoText(FirstReading(Strip(dateStr), Formats))
  }

  /** A parsed date is ISO text that `date.fromisoformat` reads back to the same text. */
  lemma ParsedDateIsIso(dateStr: string)
    ensures ParsedDate(dateStr).Some? ==>
      FromIsoFormat(ParsedDate(dateStr).value).Some? && IsoFormat(FromIsoFormat(ParsedDate(dateStr).value).value) == ParsedDate(dateStr).value
  {
    match FirstReading(Strip(dateStr), Formats)
    case Some(d) => IsoFormatRoundTrip(d);
    case None =>
  }

  /** `_parse_date`: try each format in turn and return at the first that reads the text. */
  method ParseDate(dateStr: string) returns (r: Option<string>)
    ensures r == ParsedDate(dateStr)
    ensures r.Some? ==> FromIsoFormat(r.value).Some? && IsoFormat(FromIsoFormat(r.value).value) == r.value
  {
    var s := Strip(dateStr);
    ParsedDateIsIso(dateStr);
    for i := 0 to |Formats|
      invariant FirstReading(s, Formats) == FirstReading(s, Formats[i..])
    {
      FirstReadingStep(s, Formats, i);
      var dt := Strptime(s, Formats[i]);
      if dt.Some? {
        return Some(IsoFormat(dt.value));
      }
    }
    assert Formats[|Formats|..] == [];
    return None;
  }

  /** Trying the formats from the `i`-th on: that one's reading if it has one, else the rest's. */
  lemma FirstReadingStep(s: string, formats: seq<DateFormat>, i: nat)
    requires i < |formats|
    ensures FirstReading(s, formats[i..]) ==
      if Strptime(s, formats[i]).Some? then Strptime(s, formats[i]) else FirstReading(s, formats[i + 1..])
  {
    assert formats[i..][1..] == formats[i + 1..];
  }

  // ------------------------------------------------------------ properties

  /** The two digits `Pad(n, 2)` writes. */
  lemma PadTwo(n: nat)
    requires n < 100
    ensures Pad(n, 2) == [DigitChar(n / 10), DigitChar(n % 10)]
  {
    assert Pad(n / 10, 1) == [DigitChar(n / 10)];
  }

  lemma DayField(n: nat)
    requires 1 <= n <= 31
    ensures DayText(Pad(n, 2)) && FieldValue(Pad(n, 2)) == n
  {
    PadTwo(n);
  }

  /** Two digits are a month field exactly when they stand for 1 to 12. */
  lemma MonthField(n: nat)
    requires 1 <= n <= 99
    ensures MonthText(Pad(n, 2)) <==> n <= 12
    ensures n <= 12 ==> FieldValue(Pad(n, 2)) == n
  {
    PadTwo(n);
  }

  lemma YearField(y: nat)
    requires y < 10000
    ensures YearText(Pad(y, 4)) && FieldValue(Pad(y, 4)) == y
  {
    assert Pow10(4) == 10000;
    assert IsDigit(Pad(y, 4)[0]);
  }

  lemma DigitsExclude(s: string, c: char)
    requires IsDigits(s) && !IsDigit(c)
    ensures c !in s
  {
  }

  lemma FieldsAt(a: string, b: string, c: string, sep: char)
    requires sep !in a && sep !in b
    ensures Fields(a + [sep] + b + [sep] + c, sep) == Some((a, b, c))
  {
    var rest := b + [sep] + c;
    var s := a + [sep] + rest;
    assert s == a + [sep] + b + [sep] + c;
    IndexOfAt(a, sep, rest);
    assert s[..|a|] == a && s[|a| + 1..] == rest;
    IndexOfAt(b, sep, c);
    assert rest[..|b|] == b && rest[|b| + 1..] == c;
  }

  lemma FieldsAbsent(s: string, sep: char)
    requires sep !in s
    ensures Fields(s, sep).None?
  {
  }

  /** Text that starts and ends with a digit is its own `strip()`. */
  lemma StripDigitEnds(s: string)
    requires s != [] && IsDigit(s[0]) && IsDigit(s[|s| - 1])
    ensures Strip(s) == s
  {
  }

  /** A text with `sep` only between its three fields. */
  lemma SeparatorAbsent(a: string, b: string, c: string, sep: char, x: char)
    requires x != sep && x !in a && x !in b && x !in c
    ensures x !in a + [sep] + b + [sep] + c
  {
  }

  /** A format whose separator the text lacks does not read it. */
  lemma StrptimeAbsent(s: string, fmt: DateFormat)
    requires fmt.sep !in s
    ensures Strptime(s, fmt).None?
  {
    FieldsAbsent(s, fmt.sep);
  }

  /** A format reads the three fields around its separators, in its order. */
  lemma StrptimeAt(a: string, b: string, c: string, fmt: DateFormat)
    requires fmt.sep !in a && fmt.sep !in b
    ensures Strptime(a + [fmt.sep] + b + [fmt.sep] + c, fmt) ==
      match fmt
      case DayMonthYear(_) => Reading(a, b, c)
      case MonthDayYear(_) => Reading(b, a, c)
      case YearMonthDay(_) => Reading(c, b, a)
  {
    FieldsAt(a, b, c, fmt.sep);
  }

  /** `_parse_date` on a text that starts and ends with a digit, which `strip()` leaves alone. */
  lemma ParsedDateOfDigits(s: string, r: Option<ValidDate>)
    requires s != [] && IsDigit(s[0]) && IsDigit(s[|s| - 1])
    requires FirstReading(s, Formats) == r
    ensures ParsedDate(s) == IsoText(r)
  {
    StripDigitEnds(s);
  }

  lemma DottedReading(day: string, month: string, year: string)
    requires IsDigits(day) && IsDigits(month) && IsDigits(year)
    ensures FirstReading(day + "." + month + "." + year, Formats) == Reading(day, month, year)
  {
    var s := day + "." + month + "." + year;
    DigitsExclude(day, '.');
    DigitsExclude(month, '.');
    FormatOrder(s);
    StrptimeAt(day, month, year, DayMonthYear('.'));
    if Reading(day, month, year).None? {
      DigitsExclude(day, '/');
      DigitsExclude(month, '/');
      DigitsExclude(year, '/');
      DigitsExclude(day, '-');
      DigitsExclude(month, '-');
      DigitsExclude(year, '-');
      SeparatorAbsent(day, month, year, '.', '/');
      SeparatorAbsent(day, month, year, '.', '-');
      StrptimeAbsent(s, DayMonthYear('/'));
      StrptimeAbsent(s, MonthDayYear('/'));
      StrptimeAbsent(s, YearMonthDay('-'));
    }
  }

  /** A date written day first with points, like `22.05.2024` or `1.5.2024`, reads as day, month and year. */
  lemma DottedDate(day: string, month: string, year: string)
    requires day != [] && IsDigits(day) && IsDigits(month) && YearText(year)
    ensures ParsedDate(day + "." + month + "." + year) == IsoText(Reading(day, month, year))
  {
    var s := day + "." + month + "." + year;
    DottedReading(day, month, year);
    assert s[0] == day[0] && s[|s| - 1] == year[3];
    ParsedDateOfDigits(s, Reading(day, month, year));
  }

  lemma SlashReading(first: string, second: string, year: string)
    requires IsDigits(first) && IsDigits(second) && IsDigits(year)
    ensures FirstReading(first + "/" + second + "/" + year, Formats)
         == if Reading(first, second, year).Some? then Reading(first, second, year) else Reading(second, first, year)
  {
    var s := first + "/" + second + "/" + year;
    DigitsExclude(first, '/');
    DigitsExclude(second, '/');
    DigitsExclude(first, '.');
    DigitsExclude(second, '.');
    DigitsExclude(year, '.');
    SeparatorAbsent(first, second, year, '/', '.');
    FormatOrder(s);
    StrptimeAbsent(s, DayMonthYear('.'));
    StrptimeAt(first, second, year, DayMonthYear('/'));
    StrptimeAt(first, second, year, MonthDayYear('/'));
    if Reading(first, second, year).None? && Reading(second, first, year).None? {
      DigitsExclude(first, '-');
      DigitsExclude(second, '-');
      DigitsExclude(year, '-');
      SeparatorAbsent(first, second, year, '/', '-');
      StrptimeAbsent(s, YearMonthDay('-'));
    }
  }

  /**
   * A slash date is read day first, and month first only when the day-first
   * reading fails: `05/06/2024` is the 5th of June, `05/22/2024` the 22nd of May.
   */
  lemma SlashDate(first: string, second: string, year: string)
    requires first != [] && IsDigits(first) && IsDigits(second) && YearText(year)
    ensures ParsedDate(first + "/" + second + "/" + year)
         == IsoText(if Reading(first, second, year).Some? then Reading(first, second, year) else Reading(second, first, year))
  {
    var s := first + "/" + second + "/" + year;
    SlashReading(first, second, year);
    assert s[0] == first[0] && s[|s| - 1] == year[3];
    ParsedDateOfDigits(s, if Reading(first, second, year).Some? then Reading(first, second, year) else Reading(second, first, year));
  }

  lemma IsoReading(year: string, month: string, day: string)
    requires IsDigits(year) && IsDigits(month) && IsDigits(day)
    ensures FirstReading(year + "-" + month + "-" + day, Formats) == Reading(day, month, year)
  {
    var s := year + "-" + month + "-" + day;
    DigitsExclude(year, '-');
    DigitsExclude(month, '-');
    DigitsExclude(year, '.');
    DigitsExclude(month, '.');
    DigitsExclude(day, '.');
    DigitsExclude(year, '/');
    DigitsExclude(month, '/');
    DigitsExclude(day, '/');
    SeparatorAbsent(year, month, day, '-', '.');
    SeparatorAbsent(year, month, day, '-', '/');
    FormatOrder(s);
    StrptimeAbsent(s, DayMonthYear('.'));
    StrptimeAbsent(s, DayMonthYear('/'));
    StrptimeAbsent(s, MonthDayYear('/'));
    StrptimeAt(year, month, day, YearMonthDay('-'));
  }

  /** An ISO date `YYYY-MM-DD` is read year, month, day, by the last format only. */
  lemma IsoDate(year: string, month: string, day: string)
    requires YearText(year) && IsDigits(month) && day != [] && IsDigits(day)
    ensures ParsedDate(year + "-" + month + "-" + day) == IsoText(Reading(day, month, year))
  {
    var s := year + "-" + month + "-" + day;
    IsoReading(year, month, day);
    assert s[0] == year[0] && s[|s| - 1] == day[|day| - 1];
    ParsedDateOfDigits(s, Reading(day, month, year));
  }

  /** ISO text reads as the date it writes: `_parse_date` is the identity on `isoformat` output. */
  lemma IsoDateReadBack(d: ValidDate)
    ensures ParsedDate(IsoFormat(d)) == Some(IsoFormat(d))
  {
    YearField(d.year);
    DayField(d.day);
    MonthField(d.month);
    IsoDate(Pad(d.year, 4), Pad(d.month, 2), Pad(d.day, 2));
  }

  /** A two-digit day and month with points, like `22.05.2024`, read as that date. */
  lemma PaddedDottedDate(d: ValidDate)
    ensures ParsedDate(Pad(d.day, 2) + "." + Pad(d.month, 2) + "." + Pad(d.year, 4)) == Some(IsoFormat(d))
  {
    YearField(d.year);
    DayField(d.day);
    MonthField(d.month);
    DottedDate(Pad(d.day, 2), Pad(d.month, 2), Pad(d.year, 4));
  }

  /** With slashes and a day after the 12th in the second place, the month-first reading is taken. */
  lemma SlashDateMonthFirst(d: ValidDate)
    requires d.day > 12
    ensures ParsedDate(Pad(d.month, 2) + "/" + Pad(d.day, 2) + "/" + Pad(d.year, 4)) == Some(IsoFormat(d))
  {
    YearField(d.year);
    DayField(d.day);
    MonthField(d.month);
    MonthField(d.day);
    DayField(d.month);
    SlashDate(Pad(d.month, 2), Pad(d.day, 2), Pad(d.year, 4));
  }

  /** With slashes and both numbers at most 12, the day-first reading is taken. */
  lemma SlashDateDayFirst(d: ValidDate)
    ensures ParsedDate(Pad(d.day, 2) + "/" + Pad(d.month, 2) + "/" + Pad(d.year, 4)) == Some(IsoFormat(d))
  {
    YearField(d.year);
    DayField(d.day);
    MonthField(d.month);
    SlashDate(Pad(d.day, 2), Pad(d.month, 2), Pad(d.year, 4));
  }
}
