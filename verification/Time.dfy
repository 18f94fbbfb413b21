/** Instants as ISO-8601 text and back (src/core/Time.cpp), over the Gregorian calendar. The calendar
    is given by the length of each year and month, and the closed form that `timegm` and `gmtime`
    work by is proved to agree with it. Years go on for ever in both directions. */
module Time {
  import opened Text

  // ---------------------------------------------------------------- the calendar

  predicate IsLeap(year: int) { year % 4 == 0 && (year % 100 != 0 || year % 400 == 0) }

  function YearLength(year: int): int { if IsLeap(year) then 366 else 365 }

  /** Days from the first of January of year 0 to that of `year`. */
  function YearStart(year: int): int
    decreases if year < 0 then -year else year
  {
    if year == 0 then 0
    else if year > 0 then YearStart(year - 1) + YearLength(year - 1)
    else YearStart(year + 1) - YearLength(year)
  }

  function MonthLength(year: int, month: int): int
    requires 1 <= month <= 12
  {
    if month == 2 then (if IsLeap(year) then 29 else 28)
    else if month == 4 || month == 6 || month == 9 || month == 11 then 30 else 31
  }

  /** Days from the first of January to the first of `month`; month 13 is the next January. */
  function MonthStart(year: int, month: int): int
    requires 1 <= month <= 13
    decreases month
  {
    if month == 1 then 0 else MonthStart(year, month - 1) + MonthLength(year, month - 1)
  }

  const EPOCH_DAY := 719528

  datatype Civil = Civil(year: int, month: int, day: int, hour: int, minute: int, second: int)

  predicate Valid(c: Civil) {
    && 1 <= c.month <= 12 && 1 <= c.day <= MonthLength(c.year, c.month)
    && 0 <= c.hour < 24 && 0 <= c.minute < 60 && 0 <= c.second < 60
  }

  /** `timegm`: seconds since 1970, whatever the fields hold; a month outside the year carries into
      the years, and every other field just adds its length. */
  function Seconds(c: Civil): int {
    var year, month := c.year + (c.month - 1) / 12, (c.month - 1) % 12 + 1;
    (YearStart(year) + MonthStart(year, month) + c.day - 1 - EPOCH_DAY) * 86400 + c.hour * 3600 + c.minute * 60 + c.second
  }

  function YearUp(day: int, year: int): (y: int)
    requires 0 <= year && YearStart(year) <= day
    ensures YearStart(y) <= day < YearStart(y + 1)
    decreases day - YearStart(year)
  {
    if day < YearStart(year + 1) then year else YearUp(day, year + 1)
  }

  function YearDown(day: int, year: int): (y: int)
    requires year < 0 && day < YearStart(year + 1)
    ensures YearStart(y) <= day < YearStart(y + 1)
    decreases YearStart(year + 1) - day
  {
    if YearStart(year) <= day then year else YearDown(day, year - 1)
  }

  /** The year a day counted from the first of January of year 0 falls in. */
  function YearOf(day: int): (y: int)
    ensures YearStart(y) <= day < YearStart(y + 1)
  {
    if day >= 0 then YearUp(day, 0) else YearDown(day, -1)
  }

  function MonthFrom(year: int, day: int, month: int): (m: int)
    requires 1 <= month <= 12 && MonthStart(year, month) <= day < MonthStart(year, 13)
    ensures 1 <= m <= 12 && MonthStart(year, m) <= day < MonthStart(year, m + 1)
    decreases 12 - month
  {
    if day < MonthStart(year, month + 1) then month else MonthFrom(year, day, month + 1)
  }

  lemma YearStep(year: int)
    ensures YearStart(year + 1) == YearStart(year) + YearLength(year)
  {
  }

  lemma {:induction false} MonthsFillTheYear(year: int)
    ensures MonthStart(year, 13) == YearLength(year)
  {
    assert MonthStart(year, 3) == MonthStart(year, 2) + MonthLength(year, 2);
    assert MonthStart(year, 6) == MonthStart(year, 3) + 92;
    assert MonthStart(year, 9) == MonthStart(year, 6) + 92;
    assert MonthStart(year, 11) == MonthStart(year, 9) + 61;
  }

  /** `gmtime`. */
  function Utc(seconds: int): Civil {
    hide YearStart;
    hide YearOf;
    var day, rest := seconds / 86400 + EPOCH_DAY, seconds % 86400;
    var year := YearOf(day);
    var inYear := day - YearStart(year);
    YearStep(year);
    MonthsFillTheYear(year);
    var month := MonthFrom(year, inYear, 1);
    Civil(year, month, inYear - MonthStart(year, month) + 1, rest / 3600, rest % 3600 / 60, rest % 60)
  }

  /** `gmtime` names a real date and time, and `timegm` takes it back to the instant. */
  lemma UtcIsRight(seconds: int)
    ensures Valid(Utc(seconds)) && Seconds(Utc(seconds)) == seconds
  {
    hide YearStart;
    var u := Utc(seconds);
    assert Valid(u);
    assert u.year + (u.month - 1) / 12 == u.year && (u.month - 1) % 12 + 1 == u.month;
    assert YearStart(u.year) + MonthStart(u.year, u.month) + u.day - 1 - EPOCH_DAY == seconds / 86400;
    assert u.hour * 3600 + u.minute * 60 + u.second == seconds % 86400;
  }

  lemma {:induction false} YearsGrow(a: int, b: int)
    requires a <= b
    ensures YearStart(a) + 365 * (b - a) <= YearStart(b)
    decreases b - a
  {
    if a < b {
      YearsGrow(a, b - 1);
      YearStep(b - 1);
    }
  }

  lemma {:induction false} MonthsGrow(year: int, a: int, b: int)
    requires 1 <= a <= b <= 13
    ensures MonthStart(year, a) <= MonthStart(year, b)
    decreases b - a
  {
    if a < b { MonthsGrow(year, a, b - 1); }
  }

  /** No two real dates name the same instant. */
  lemma CivilIsUnique(c: Civil)
    requires Valid(c)
    ensures Utc(Seconds(c)) == c
  {
    hide YearStart;
    hide MonthStart;
    hide Utc;
    var u := Utc(Seconds(c));
    UtcIsRight(Seconds(c));
    DayOfYear(c);
    DayOfYear(u);
    var m, n := MonthStart(c.year, c.month) + c.day - 1, MonthStart(u.year, u.month) + u.day - 1;
    var inC, inU := c.hour * 3600 + c.minute * 60 + c.second, u.hour * 3600 + u.minute * 60 + u.second;
    SameYear(c.year, u.year, m, n);
    SameMonth(c, u);
    SameTime(c.hour, c.minute, c.second, u.hour, u.minute, u.second);
  }

  lemma SameTime(h: int, m: int, s: int, h': int, m': int, s': int)
    requires 0 <= m < 60 && 0 <= s < 60 && 0 <= m' < 60 && 0 <= s' < 60
    requires h * 3600 + m * 60 + s == h' * 3600 + m' * 60 + s'
    ensures h == h' && m == m' && s == s'
  {
  }

  lemma DayOfYear(c: Civil)
    requires Valid(c)
    ensures 0 <= MonthStart(c.year, c.month) + c.day - 1 < YearLength(c.year)
    ensures Seconds(c) == (YearStart(c.year) + MonthStart(c.year, c.month) + c.day - 1 - EPOCH_DAY) * 86400
                          + (c.hour * 3600 + c.minute * 60 + c.second)
    ensures 0 <= c.hour * 3600 + c.minute * 60 + c.second < 86400
  {
    MonthsFillTheYear(c.year);
    MonthsGrow(c.year, 1, c.month);
    MonthsGrow(c.year, c.month + 1, 13);
  }

  lemma SameYear(a: int, b: int, m: int, n: int)
    requires 0 <= m < YearLength(a) && 0 <= n < YearLength(b) && YearStart(a) + m == YearStart(b) + n
    ensures a == b
  {
    YearStep(a);
    YearStep(b);
    if a < b { YearsGrow(a + 1, b); } else if b < a { YearsGrow(b + 1, a); }
    hide *;
  }

  lemma SameMonth(c: Civil, u: Civil)
    requires Valid(c) && Valid(u) && c.year == u.year
    requires MonthStart(c.year, c.month) + c.day == MonthStart(u.year, u.month) + u.day
    ensures c.month == u.month && c.day == u.day
  {
    if c.month < u.month {
      MonthsGrow(c.year, c.month + 1, u.month);
    } else if u.month < c.month {
      MonthsGrow(c.year, u.month + 1, c.month);
    }
  }

  // ---------------------------------------------------------------- printing

  function Stamp(c: Civil, separator: char): string {
    Padded(c.year, 4) + "-" + Padded(c.month, 2) + "-" + Padded(c.day, 2) + [separator]
    + Padded(c.hour, 2) + ":" + Padded(c.minute, 2) + ":" + Padded(c.second, 2)
  }

  /** An instant in UTC, to the millisecond. */
  function Iso8601(epochMs: int): string {
    Stamp(Utc(epochMs / 1000), 'T') + "." + Padded(epochMs % 1000, 3) + "Z"
  }

  /** Division that drops the fraction, as the source's language does it. */
  function Truncated(a: int, b: int): int
    requires b > 0
  {
    if a >= 0 then a / b else -(-a / b)
  }

  method ToIso8601Millis(epochMs: int) returns (text: string)
    ensures text == Iso8601(epochMs)
  {
    var seconds := Truncated(epochMs, 1000);
    var millis := epochMs - 1000 * seconds;
    if millis < 0 {
      millis := millis + 1000;
      seconds := seconds - 1;
    }
    assert seconds == epochMs / 1000 && millis == epochMs % 1000;
    text := Stamp(Utc(seconds), 'T') + "." + Padded(millis, 3) + "Z";
  }

  // ---------------------------------------------------------------- parsing

  /** `count` digits at `at`, and nothing less. */
  function Read(text: string, at: nat, count: nat): Option<nat> {
    if at + count <= |text| && AllDigits(text[at..at + count]) then Some(ValueOf(text[at..at + count])) else None
  }

  method ReadInt(text: string, at: nat, count: nat) returns (value: Option<nat>)
    ensures value == Read(text, at, count)
  {
    if at + count > |text| { return None; }
    var read := 0;
    var i := 0;
    while i < count
      invariant i <= count && AllDigits(text[at..at + i]) && read == ValueOf(text[at..at + i])
    {
      if !IsDigit(text[at + i]) {
        assert text[at..at + count][i] == text[at + i];
        return None;
      }
      assert text[at..at + i + 1] == text[at..at + i] + [text[at + i]];
      read := read * 10 + DigitValue(text[at + i]);
      i := i + 1;
    }
    return Some(read);
  }

  /** The date and time every accepted text starts with. */
  function Fields(text: string): Option<Civil> {
    if |text| < 19 then None
    else
      var year, month, day := Read(text, 0, 4), Read(text, 5, 2), Read(text, 8, 2);
      var hour, minute, second := Read(text, 11, 2), Read(text, 14, 2), Read(text, 17, 2);
      if year.Some? && month.Some? && day.Some? && hour.Some? && minute.Some? && second.Some?
         && text[4] == '-' && text[7] == '-' && text[10] in "Tt " && text[13] == ':' && text[16] == ':'
      then Some(Civil(year.value, month.value, day.value, hour.value, minute.value, second.value))
      else None
  }

  function FractionEnd(text: string): (end: nat)
    requires |text| >= 19
    ensures 19 <= end <= |text|
  {
    if |text| > 19 && text[19] == '.' then DigitsEnd(text, 20) else 19
  }

  /** Tenths, hundredths and thousandths; digits after those do not count. */
  function Millis(digits: string): nat
    requires AllDigits(digits)
  {
    (if |digits| > 0 then 100 * DigitValue(digits[0]) else 0)
    + (if |digits| > 1 then 10 * DigitValue(digits[1]) else 0)
    + (if |digits| > 2 then DigitValue(digits[2]) else 0)
  }

  /** The zone that starts a text, in seconds east; whatever does not start with a sign is UTC. */
  function Zone(text: string): Option<int> {
    if text == "" || text[0] !in "+-" then Some(0)
    else
      var hour := Read(text, 1, 2);
      if hour.None? then None
      else
        var at := if |text| > 3 && text[3] == ':' then 4 else 3;
        var minute := if at < |text| && IsDigit(text[at]) then Read(text, at, 2) else Some(0);
        if minute.None? then None
        else if text[0] == '-' then Some(-(hour.value * 3600 + minute.value * 60))
        else Some(hour.value * 3600 + minute.value * 60)
  }

  function Parse(text: string): int {
    var fields := Fields(text);
    if fields.None? then -1
    else
      var end := FractionEnd(text);
      var zone := Zone(text[end..]);
      if zone.None? || Seconds(fields.value) == -1 then -1
      else (Seconds(fields.value) - zone.value) * 1000 + Millis(if end == 19 then "" else text[20..end])
  }

  method ParseFraction(text: string) returns (millis: nat, at: nat)
    requires |text| >= 19
    ensures at == FractionEnd(text)
    ensures millis == Millis(if at == 19 then "" else text[20..at])
  {
    at, millis := 19, 0;
    if at < |text| && text[at] == '.' {
      at := at + 1;
      var scale := 100;
      while at < |text| && IsDigit(text[at])
        invariant 20 <= at <= |text| && AllDigits(text[20..at]) && DigitsEnd(text, 20) == DigitsEnd(text, at)
        invariant scale == (if at == 20 then 100 else if at == 21 then 10 else if at == 22 then 1 else 0)
        invariant millis == Millis(text[20..at])
      {
        if scale > 0 {
          millis := millis + DigitValue(text[at]) * scale;
          scale := scale / 10;
        }
        assert text[20..at + 1] == text[20..at] + [text[at]];
        at := at + 1;
      }
    }
  }

  method ParseZone(text: string, from: nat) returns (offsetSeconds: Option<int>)
    requires from <= |text|
    ensures offsetSeconds == Zone(text[from..])
  {
    var at := from;
    ghost var rest := text[from..];
    if at < |text| && (text[at] == '+' || text[at] == '-') {
      var sign: int := if text[at] == '-' then -1 else 1;
      at := at + 1;
      ReadShifts(text, from, 1, 2);
      var hour := ReadInt(text, at, 2);
      if hour.None? { return None; }
      at := at + 2;
      if at < |text| && text[at] == ':' { at := at + 1; }
      var minute: Option<nat> := Some(0);
      if at < |text| && IsDigit(text[at]) {
        ReadShifts(text, from, at - from, 2);
        minute := ReadInt(text, at, 2);
        if minute.None? { return None; }
      }
      var offset := hour.value * 3600 + minute.value * 60;
      return Some(if sign == -1 then -offset else offset);
    }
    return Some(0);
  }

  lemma ReadShifts(text: string, from: nat, at: nat, count: nat)
    requires from <= |text|
    ensures Read(text[from..], at, count) == Read(text, from + at, count)
  {
    if from + at + count <= |text| { assert text[from..][at..at + count] == text[from + at..from + at + count]; }
  }

  method ParseEpochMs(text: string) returns (epochMs: int)
    ensures epochMs == Parse(text)
  {
    hide ValueOf;
    if |text| < 19 { return -1; }
    var year := ReadInt(text, 0, 4);
    if year.None? || text[4] != '-' { return -1; }
    var month := ReadInt(text, 5, 2);
    if month.None? || text[7] != '-' { return -1; }
    var day := ReadInt(text, 8, 2);
    if day.None? { return -1; }
    if text[10] != 'T' && text[10] != 't' && text[10] != ' ' { return -1; }
    var hour := ReadInt(text, 11, 2);
    if hour.None? || text[13] != ':' { return -1; }
    var minute := ReadInt(text, 14, 2);
    if minute.None? || text[16] != ':' { return -1; }
    var second := ReadInt(text, 17, 2);
    if second.None? { return -1; }
    var millis, at := ParseFraction(text);
    var offsetSeconds := ParseZone(text, at);
    if offsetSeconds.None? { return -1; }
    var utcSeconds := Seconds(Civil(year.value, month.value, day.value, hour.value, minute.value, second.value));
    if utcSeconds == -1 { return -1; }
    return (utcSeconds - offsetSeconds.value) * 1000 + millis;
  }

  // ---------------------------------------------------------------- there and back

  /** Fields that their column is wide enough for. */
  predicate Fits(c: Civil) {
    && 0 <= c.year <= 9999 && 0 <= c.month <= 99 && 0 <= c.day <= 99
    && 0 <= c.hour <= 99 && 0 <= c.minute <= 99 && 0 <= c.second <= 99
  }

  /** Where the fields of a stamp stand. */
  lemma Columns(y: string, m: string, d: string, separator: char, h: string, n: string, s: string, rest: string)
    requires |y| == 4 && |m| == |d| == |h| == |n| == |s| == 2
    ensures var text := y + "-" + m + "-" + d + [separator] + h + ":" + n + ":" + s + rest;
            && |text| == 19 + |rest| && text[..4] == y && text[5..7] == m && text[8..10] == d
            && text[11..13] == h && text[14..16] == n && text[17..19] == s
            && text[4] == text[7] == '-' && text[10] == separator && text[13] == text[16] == ':'
  {
  }

  lemma StampReadsBack(c: Civil, separator: char, rest: string)
    requires Fits(c) && separator in "Tt "
    ensures |Stamp(c, separator)| == 19
    ensures Fields(Stamp(c, separator) + rest) == Some(c)
  {
    assert Pow10(2) == 100 && Pow10(4) == 10000;
    PaddedReadsBack(c.year, 4);
    PaddedReadsBack(c.month, 2);
    PaddedReadsBack(c.day, 2);
    PaddedReadsBack(c.hour, 2);
    PaddedReadsBack(c.minute, 2);
    PaddedReadsBack(c.second, 2);
    hide Padded;
    hide ValueOf;
    hide AllDigits;
    Columns(Padded(c.year, 4), Padded(c.month, 2), Padded(c.day, 2), separator,
            Padded(c.hour, 2), Padded(c.minute, 2), Padded(c.second, 2), rest);
    var text := Stamp(c, separator) + rest;
    assert Read(text, 0, 4) == Some(c.year) && Read(text, 5, 2) == Some(c.month) && Read(text, 8, 2) == Some(c.day);
    assert Read(text, 11, 2) == Some(c.hour) && Read(text, 14, 2) == Some(c.minute) && Read(text, 17, 2) == Some(c.second);
    hide Stamp;
    hide Read;
  }

  function Fraction(digits: string): string { if digits == "" then "" else "." + digits }

  /** What every accepted spelling of an instant means: a date and time, any digits of a fraction, and a zone. */
  lemma SpellingMeans(c: Civil, separator: char, digits: string, zone: string)
    requires Fits(c) && separator in "Tt " && AllDigits(digits)
    requires zone == "" || !(IsDigit(zone[0]) || zone[0] == '.')
    ensures Parse(Stamp(c, separator) + Fraction(digits) + zone) ==
            if Zone(zone).None? || Seconds(c) == -1 then -1
            else (Seconds(c) - Zone(zone).value) * 1000 + Millis(digits)
  {
    var head := Stamp(c, separator);
    var text := head + Fraction(digits) + zone;
    StampReadsBack(c, separator, Fraction(digits) + zone);
    assert text == head + (Fraction(digits) + zone);
    var end := 19 + |Fraction(digits)|;
    assert text[end..] == zone;
    if digits != "" {
      assert text[20..end] == digits;
      DigitsEndIs(text, 20, end);
    }
    assert FractionEnd(text) == end;
    hide Seconds;
    hide Zone;
    hide Fields;
  }

  lemma MillisReadBack(n: nat)
    requires n < 1000
    ensures |Padded(n, 3)| == 3 && AllDigits(Padded(n, 3)) && Millis(Padded(n, 3)) == n
  {
    assert Pow10(3) == 1000;
    PaddedReadsBack(n, 3);
    var s := Padded(n, 3);
    assert s[..2][..1] == s[..1] && s[..1][..0] == "";
    assert ValueOf(s) == 10 * ValueOf(s[..2]) + DigitValue(s[2]);
    assert ValueOf(s[..2]) == 10 * ValueOf(s[..1]) + DigitValue(s[1]);
    assert ValueOf(s[..1]) == DigitValue(s[0]);
  }

  /** The first instant of year 0, and the first after year 9999. */
  const YEAR_0 := -62167219200000
  const YEAR_10000 := 253402300800000

  /** Where the years a text can name begin, by the closed form of the calendar. */
  function Fourths(year: int): int { (year + 3) / 4 }

  function Centuries(year: int): int { (year + 99) / 100 }

  function Eras(year: int): int { (year + 399) / 400 }

  lemma {:induction false} ClosedForm(year: nat)
    ensures YearStart(year) == 365 * year + Fourths(year) - Centuries(year) + Eras(year)
  {
    if year > 0 {
      ClosedForm(year - 1);
      FourthsGrow(year - 1);
      ErasGrow(year - 1);
      LeapRule(year - 1);
      hide Fourths;
      hide Centuries;
      hide Eras;
    }
  }

  lemma FourthsGrow(year: int)
    ensures Fourths(year + 1) - Fourths(year) == if year % 4 == 0 then 1 else 0
  {
  }

  lemma ErasGrow(year: int)
    ensures Eras(year + 1) - Eras(year) == if year % 400 == 0 then 1 else 0
  {
  }

  lemma LeapRule(year: int)
    ensures year % 400 == 0 ==> year % 100 == 0
    ensures year % 100 == 0 ==> year % 4 == 0
  {
    if year % 400 == 0 { EveryFourthCentury(year / 400); }
    if year % 100 == 0 { EveryCentury(year / 100); }
  }

  lemma EveryFourthCentury(n: int)
    ensures 400 * n % 100 == 0
  {
  }

  lemma EveryCentury(n: int)
    ensures 100 * n % 4 == 0
  {
  }

  lemma Year1970()
    ensures YearStart(1970) == EPOCH_DAY
  {
    ClosedForm(1970);
  }

  lemma Year10000()
    ensures YearStart(10000) == 3652425
  {
    ClosedForm(10000);
  }

  lemma FourDigitYear(year: int, day: int)
    requires YearStart(year) <= day < YearStart(year + 1)
    ensures 0 <= year <= 9999 <==> 0 <= day < 3652425
  {
    assert YearStart(0) == 0;
    hide YearStart;
    Year10000();
    if year < 0 { YearsGrow(year + 1, 0); } else { YearsGrow(0, year); }
    if year >= 10000 { YearsGrow(10000, year); } else { YearsGrow(year + 1, 10000); }
  }

  lemma YearsPrintable(t: int)
    ensures 0 <= Utc(t / 1000).year <= 9999 <==> YEAR_0 <= t < YEAR_10000
  {
    hide YearStart;
    hide YearOf;
    var day := t / 1000 / 86400 + EPOCH_DAY;
    FourDigitYear(YearOf(day), day);
    assert Utc(t / 1000).year == YearOf(day);
    hide *;
    DayRange(t, t / 1000, t / 1000 / 86400);
  }

  lemma DayRange(t: int, seconds: int, day: int)
    requires 1000 * seconds <= t < 1000 * seconds + 1000 && 86400 * day <= seconds < 86400 * day + 86400
    ensures 0 <= day + EPOCH_DAY < 3652425 <==> YEAR_0 <= t < YEAR_10000
  {
  }

  /** For every instant: its text parses back to it exactly when its year has four digits and it is
      not in the one second before 1970 whose count of seconds is the error value, -1 itself
      excepted because that is what a failed parse returns too. */
  lemma RoundTripExactly(t: int)
    ensures Parse(Iso8601(t)) == t <==> YEAR_0 <= t < YEAR_10000 && !(-1000 <= t <= -2)
  {
    ParseOfPrinted(t);
    YearsPrintable(t);
    LastSecondOf1969(t);
    hide Parse;
    hide Iso8601;
    hide Utc;
  }

  lemma LastSecondOf1969(t: int)
    ensures t / 1000 == -1 <==> -1000 <= t <= -1
  {
  }

  lemma ParseOfPrinted(t: int)
    ensures Parse(Iso8601(t)) == if !(0 <= Utc(t / 1000).year <= 9999) || t / 1000 == -1 then -1 else t
  {
    hide Utc;
    hide Parse;
    hide Padded;
    hide Stamp;
    var c := Utc(t / 1000);
    var millis := Padded(t % 1000, 3);
    if 0 <= c.year <= 9999 {
      ParseOfStamp(t);
      assert Iso8601(t) == Stamp(c, 'T') + Fraction(millis) + "Z" by { MillisReadBack(t % 1000); }
    } else {
      UnprintableYear(c, "." + millis + "Z");
      assert Iso8601(t) == Stamp(c, 'T') + ("." + millis + "Z");
    }
  }

  lemma ParseOfStamp(t: int)
    requires 0 <= Utc(t / 1000).year <= 9999
    ensures Parse(Stamp(Utc(t / 1000), 'T') + Fraction(Padded(t % 1000, 3)) + "Z") == if t / 1000 == -1 then -1 else t
  {
    hide Utc;
    hide Parse;
    hide Seconds;
    hide Stamp;
    UtcIsRight(t / 1000);
    MillisReadBack(t % 1000);
    SpellingMeans(Utc(t / 1000), 'T', Padded(t % 1000, 3), "Z");
    hide Padded;
  }

  lemma UnprintableYear(c: Civil, rest: string)
    requires !(0 <= c.year <= 9999)
    ensures Parse(Stamp(c, 'T') + rest) == -1
  {
    var text := Stamp(c, 'T') + rest;
    assert Pow10(4) == 10000;
    if c.year < 0 {
      assert text[0] == '-';
      if |text| >= 19 { assert text[0..4][0] == '-'; }
    } else {
      TooWide(c.year, 4);
      assert text[4] == Padded(c.year, 4)[4];
    }
    assert Fields(text).None?;
  }

  /** `+hh:mm`, or without the colon. */
  function Offset(east: bool, hours: nat, minutes: nat, colon: bool): string {
    (if east then "+" else "-") + Padded(hours, 2) + (if colon then ":" else "") + Padded(minutes, 2)
  }

  function OffsetSeconds(east: bool, hours: nat, minutes: nat): int {
    if east then hours * 3600 + minutes * 60 else -(hours * 3600 + minutes * 60)
  }

  lemma OffsetColumns(sign: string, hours: string, colon: string, minutes: string)
    requires |sign| == 1 && |hours| == |minutes| == 2 && |colon| <= 1
    ensures var text, at := sign + hours + colon + minutes, 3 + |colon|;
            && |text| == at + 2 && text[0] == sign[0] && text[1..3] == hours && text[at..at + 2] == minutes
            && text[at] == minutes[0] && (colon != "" ==> text[3] == colon[0])
  {
  }

  lemma FirstDigit(s: string)
    requires s != "" && AllDigits(s)
    ensures IsDigit(s[0])
  {
  }

  lemma OffsetReadsBack(east: bool, hours: nat, minutes: nat, colon: bool)
    requires hours < 100 && minutes < 100
    ensures Zone(Offset(east, hours, minutes, colon)) == Some(OffsetSeconds(east, hours, minutes))
  {
    assert Pow10(2) == 100;
    PaddedReadsBack(hours, 2);
    PaddedReadsBack(minutes, 2);
    hide Padded;
    hide ValueOf;
    hide AllDigits;
    var text := Offset(east, hours, minutes, colon);
    OffsetColumns(if east then "+" else "-", Padded(hours, 2), if colon then ":" else "", Padded(minutes, 2));
    assert Read(text, 1, 2) == Some(hours) && Read(text, if colon then 4 else 3, 2) == Some(minutes);
    assert IsDigit(text[if colon then 4 else 3]) by { FirstDigit(Padded(minutes, 2)); }
    hide Read;
  }

  /** The same instant as a clock that far from UTC shows it (section 5.6 of RFC 3339), parses to
      the same number, unless that clock shows the last second of 1969. */
  lemma AnyZoneParsesTheSame(t: int, east: bool, hours: nat, minutes: nat, colon: bool)
    requires hours < 100 && minutes < 100
    requires var local := t + 1000 * OffsetSeconds(east, hours, minutes); YEAR_0 <= local < YEAR_10000
    ensures var local := t + 1000 * OffsetSeconds(east, hours, minutes);
            Parse(Stamp(Utc(local / 1000), 'T') + Fraction(Padded(local % 1000, 3)) + Offset(east, hours, minutes, colon)) == t
            <==> !(-1000 <= local <= -1) || t == -1
  {
    hide Utc;
    hide Seconds;
    hide YearStart;
    hide Parse;
    var offset := OffsetSeconds(east, hours, minutes);
    var local := t + 1000 * offset;
    var c := Utc(local / 1000);
    UtcIsRight(local / 1000);
    YearsPrintable(local);
    MillisReadBack(local % 1000);
    OffsetReadsBack(east, hours, minutes, colon);
    SpellingMeans(c, 'T', Padded(local % 1000, 3), Offset(east, hours, minutes, colon));
    hide *;
    MovedBack(t, offset, local / 1000, local % 1000);
  }

  lemma MovedBack(t: int, offset: int, seconds: int, millis: int)
    requires 0 <= millis < 1000 && 1000 * seconds + millis == t + 1000 * offset
    ensures (if seconds == -1 then -1 else (seconds - offset) * 1000 + millis) == t
            <==> !(-1000 <= t + 1000 * offset <= -1) || t == -1
  {
  }
}
