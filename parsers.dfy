/**
 * The two field conversions the extraction loop relies on: Python's `int()`
 * on a temperature cell and `datetime.strptime(cell, "%Y-%m-%d")` on a date
 * cell. Both are partial: `None` is the `ValueError` they raise.
 */
module Parsers {
  import opened Wrappers
  import opened Decimal

  /**
   * The most digits `int()` converts from a string: longer digit runs raise
   * `ValueError` (CPython's default integer string conversion length limit,
   * `sys.get_int_max_str_digits()`).
   */
  const MaxStrDigits := 4300

  /** A run of digits `int()` accepts: non-empty, ASCII, and within the limit. */
  predicate IntDigits(d: string) {
    d != [] && |d| <= MaxStrDigits && AllDigits(d)
  }

  /** `int(s)` restricted to an optional sign followed by ASCII digits. */
  function ParseInt(s: string): Option<int>
  {
    if s == [] then None
    else if s[0] == '-' || s[0] == '+' then
      var digits := s[1..];
      if IntDigits(digits) then
        Some(if s[0] == '-' then -(Value(digits) as int) else Value(digits))
      else None
    else if IntDigits(s) then Some(Value(s))
    else None
  }

  /** A digit string within the limit is read as its value. */
  lemma ParseIntUnsigned(s: string)
    requires IntDigits(s)
    ensures ParseInt(s) == Some(Value(s))
  {
    assert IsDigit(s[0]);
  }

  /** A sign followed by digits within the limit is read as their value with that sign. */
  lemma ParseIntSigned(s: string)
    requires |s| >= 2 && (s[0] == '-' || s[0] == '+') && IntDigits(s[1..])
    ensures ParseInt(s) == Some(if s[0] == '-' then -(Value(s[1..]) as int) else Value(s[1..]))
  {
  }

  /**
   * A digit string of at most `MaxStrDigits` digits, optionally preceded by
   * one sign, is read as its value with that sign.
   */
  lemma ParseIntAccepts(s: string)
    ensures IntDigits(s) ==> ParseInt(s) == Some(Value(s))
    ensures |s| >= 2 && s[0] == '-' && IntDigits(s[1..]) ==> ParseInt(s) == Some(-(Value(s[1..]) as int))
    ensures |s| >= 2 && s[0] == '+' && IntDigits(s[1..]) ==> ParseInt(s) == Some(Value(s[1..]))
  {
    if IntDigits(s) {
      ParseIntUnsigned(s);
    } else if |s| >= 2 && (s[0] == '-' || s[0] == '+') && IntDigits(s[1..]) {
      ParseIntSigned(s);
    }
  }

  /**
   * Anything else is a `ValueError`: a cell that parses is a digit string,
   * or a sign followed by at least one digit, with at most `MaxStrDigits`
   * digits. So `""`, `"M"`, `"x5"`, `"-"`, `"5-"` and a run of 4301 digits
   * are all rejected.
   */
  lemma ParseIntRejects(s: string)
    ensures ParseInt(s).Some? ==>
      IntDigits(s) || (|s| >= 2 && (s[0] == '-' || s[0] == '+') && IntDigits(s[1..]))
  {
  }

  /** A run of more than `MaxStrDigits` digits, signed or not, is a `ValueError`. */
  lemma ParseIntTooManyDigits(s: string)
    requires |s| > MaxStrDigits + 1 || (|s| == MaxStrDigits + 1 && s[0] != '-' && s[0] != '+')
    requires AllDigits(s[1..])
    ensures ParseInt(s) == None
  {
  }

  /** Together: exactly the digit strings and the signed digit strings within the limit parse. */
  lemma ParseIntDomain(s: string)
    ensures ParseInt(s).Some? <==>
      IntDigits(s) || (|s| >= 2 && (s[0] == '-' || s[0] == '+') && IntDigits(s[1..]))
  {
    ParseIntAccepts(s);
    ParseIntRejects(s);
  }

  /** Decimal spelling of an integer, as `str()` writes it. */
  function ShowInt(n: int): string {
    if n < 0 then "-" + Show(-n) else Show(n)
  }

  /**
   * Every integer of at most `MaxStrDigits` digits (the same limit bounds
   * `str()`) written out in decimal is read back by `ParseInt`.
   */
  lemma ParseShowInt(n: int)
    requires |Show(if n < 0 then -n else n)| <= MaxStrDigits
    ensures ParseInt(ShowInt(n)) == Some(n)
  {
    if n < 0 {
      assert ShowInt(n)[1..] == Show(-n);
    }
  }

  /** A calendar date as `strptime` returns it (the time of day is always midnight). */
  datatype Date = Date(year: int, month: int, day: int)

  predicate LeapYear(year: int) {
    year % 4 == 0 && (year % 100 != 0 || year % 400 == 0)
  }

  function DaysInMonth(year: int, month: int): (n: int)
    requires 1 <= month <= 12
    ensures 28 <= n <= 31
  {
    if month == 2 then (if LeapYear(year) then 29 else 28)
    else if month == 4 || month == 6 || month == 9 || month == 11 then 30
    else 31
  }

  /** The dates a Python `datetime` can hold. */
  predicate ValidDate(d: Date) {
    1 <= d.year <= 9999 && 1 <= d.month <= 12 && 1 <= d.day <= DaysInMonth(d.year, d.month)
  }

  /** A `%m` field: one or two digits naming a month 1..12. */
  function MonthField(s: string): (r: Option<int>)
    ensures r.Some? ==> 1 <= r.value <= 12
  {
    if 1 <= |s| <= 2 && AllDigits(s) && 1 <= Value(s) <= 12 then Some(Value(s)) else None
  }

  /** A `%d` field: one or two digits naming 1..31, or a space and one digit 1..9. */
  function DayField(s: string): (r: Option<int>)
    ensures r.Some? ==> 1 <= r.value <= 31
  {
    if 1 <= |s| <= 2 && AllDigits(s) && 1 <= Value(s) <= 31 then Some(Value(s))
    else if |s| == 2 && s[0] == ' ' && IsDigit(s[1]) && DigitValue(s[1]) >= 1 then Some(DigitValue(s[1]))
    else None
  }

  /**
   * `strptime(s, "%Y-%m-%d")`: four digits, a dash, the month, a dash, the
   * day, and nothing after it; the day must exist in that month.
   */
  function ParseDate(s: string): Option<Date>
  {
    if |s| < 5 || !AllDigits(s[..4]) || s[4] != '-' then None
    else
      var year := Value(s[..4]);
      var rest := s[5..];
      var month := DigitPrefix(rest);
      if |month| == |rest| || rest[|month|] != '-' then None
      else
        match (MonthField(month), DayField(rest[|month| + 1..]))
        case (Some(m), Some(d)) =>
          var date := Date(year, m, d);
          if ValidDate(date) then Some(date) else None
        case _ => None
  }

  /** Only dates that exist are produced, and no cell shorter than "YYYY-M-D" parses. */
  lemma ParseDateValid(s: string)
    ensures ParseDate(s).Some? ==> ValidDate(ParseDate(s).value)
    ensures |s| < 8 ==> ParseDate(s) == None
  {
  }

  /** `date.strftime("%Y-%m-%d")`: zero-padded fields. */
  function FormatDate(d: Date): (s: string)
    requires ValidDate(d)
    ensures |s| == 10
  {
    Padded(d.year, 4) + "-" + Padded(d.month, 2) + "-" + Padded(d.day, 2)
  }

  /** Every valid date written in the file's format is read back unchanged. */
  lemma ParseFormatDate(d: Date)
    requires ValidDate(d)
    ensures ParseDate(FormatDate(d)) == Some(d)
  {
    var y, m, dd := Padded(d.year, 4), Padded(d.month, 2), Padded(d.day, 2);
    var s := FormatDate(d);
    assert s[..4] == y;
    assert s[4] == '-';
    var rest := s[5..];
    assert rest == m + ("-" + dd);
    DigitPrefixStopsAt(m, "-" + dd);
    assert rest[3..] == dd;
  }
}
