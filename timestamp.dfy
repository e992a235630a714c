/** `unix_to_iso8601` of the web search extractor
    (services/web_extractor/web_search_extactor.py): a UNIX timestamp as
    the UTC date and time 'YYYY-MM-DDTHH:MM:SSZ', the profile of ISO 8601
    that section 5.6 of RFC 3339 defines.

    The date is computed by walking the proleptic Gregorian calendar from
    1970-01-01, a year and then a month at a time; `DateDenotes` states
    what the written fields mean, and `Iso8601Denotes` proves that the
    text denotes the timestamp it was made from. */
module Timestamp {
  import opened Common

  predicate Leap(year: int)
  {
    year % 4 == 0 && (year % 100 != 0 || year % 400 == 0)
  }

  function DaysInYear(year: int): (r: nat)
    ensures r == 365 || r == 366
  {
    if Leap(year) then 366 else 365
  }

  function DaysInMonth(year: int, month: int): (r: nat)
    requires 1 <= month <= 12
    ensures 28 <= r <= 31
  {
    if month == 2 then (if Leap(year) then 29 else 28)
    else if month in {4, 6, 9, 11} then 30
    else 31
  }

  /** Days from the first of `month` to the end of the year. */
  function DaysLeft(year: int, month: int): nat
    requires 1 <= month <= 13
    decreases 13 - month
  {
    if month == 13 then 0 else DaysInMonth(year, month) + DaysLeft(year, month + 1)
  }

  /** Days from January 1 to the first of `month`. */
  function DaysBeforeMonth(year: int, month: int): nat
    requires 1 <= month <= 13
    decreases month
  {
    if month == 1 then 0 else DaysBeforeMonth(year, month - 1) + DaysInMonth(year, month - 1)
  }

  lemma {:induction false} MonthsSplitYear(year: int, month: int)
    requires 1 <= month <= 13
    ensures DaysBeforeMonth(year, month) + DaysLeft(year, month) == DaysInYear(year)
    decreases 13 - month
  {
    if month < 13 {
      MonthsSplitYear(year, month + 1);
      assert DaysBeforeMonth(year, month + 1) == DaysBeforeMonth(year, month) + DaysInMonth(year, month);
      assert DaysLeft(year, month) == DaysInMonth(year, month) + DaysLeft(year, month + 1);
    } else {
      YearTotal(year);
    }
  }

  lemma YearTotal(year: int)
    ensures DaysBeforeMonth(year, 13) == DaysInYear(year)
  {
    var feb := DaysInMonth(year, 2);
    assert DaysBeforeMonth(year, 2) == 31;
    assert DaysBeforeMonth(year, 3) == 31 + feb;
    assert DaysBeforeMonth(year, 4) == 62 + feb;
    assert DaysBeforeMonth(year, 5) == 92 + feb;
    assert DaysBeforeMonth(year, 6) == 123 + feb;
    assert DaysBeforeMonth(year, 7) == 153 + feb;
    assert DaysBeforeMonth(year, 8) == 184 + feb;
    assert DaysBeforeMonth(year, 9) == 215 + feb;
    assert DaysBeforeMonth(year, 10) == 245 + feb;
    assert DaysBeforeMonth(year, 11) == 276 + feb;
    assert DaysBeforeMonth(year, 12) == 306 + feb;
    assert DaysBeforeMonth(year, 13) == 337 + feb;
  }

  /** Signed number of days from January 1 of `from` to January 1 of `to`. */
  function DaysBetween(from: int, to: int): int
    decreases if to >= from then to - from else from - to
  {
    if to == from then 0
    else if to > from then DaysBetween(from, to - 1) + DaysInYear(to - 1)
    else DaysBetween(from, to + 1) - DaysInYear(to)
  }

  datatype Date = Date(year: int, month: int, day: int)

  /** `date` is a real calendar date lying `days` days after 1970-01-01. */
  predicate DateDenotes(date: Date, days: int)
  {
    1 <= date.month <= 12 && 1 <= date.day <= DaysInMonth(date.year, date.month) &&
    DaysBetween(1970, date.year) + DaysBeforeMonth(date.year, date.month) + date.day - 1 == days
  }

  /** The month and day of the `dayOfYear`-th day (from 0) counted from the
      first of `month`. */
  function MonthDay(dayOfYear: nat, year: int, month: int): (r: (int, int))
    requires 1 <= month <= 12 && dayOfYear < DaysLeft(year, month)
    ensures month <= r.0 <= 12 && 1 <= r.1 <= DaysInMonth(year, r.0)
    ensures DaysBeforeMonth(year, r.0) + r.1 - 1 == DaysBeforeMonth(year, month) + dayOfYear
    decreases 12 - month
  {
    if dayOfYear < DaysInMonth(year, month) then (month, dayOfYear + 1)
    else MonthDay(dayOfYear - DaysInMonth(year, month), year, month + 1)
  }

  /** The date `days` days after January 1 of `year`. */
  function CivilFrom(days: int, year: int): (r: Date)
    ensures 1 <= r.month <= 12 && 1 <= r.day <= DaysInMonth(r.year, r.month)
    ensures DaysBetween(year, r.year) + DaysBeforeMonth(r.year, r.month) + r.day - 1 == days
    decreases if days < 0 then 1 else 0, if days < 0 then -days else days
  {
    if days < 0 then
      var r := CivilFrom(days + DaysInYear(year - 1), year - 1);
      ShiftStart(year - 1, r.year);
      r
    else if days >= DaysInYear(year) then
      var r := CivilFrom(days - DaysInYear(year), year + 1);
      ShiftStart(year, r.year);
      r
    else
      MonthsSplitYear(year, 1);
      assert DaysBetween(year, year) == 0 && DaysBeforeMonth(year, 1) == 0;
      var md := MonthDay(days, year, 1);
      Date(year, md.0, md.1)
  }

  /** Counting from one year earlier adds that year's days. */
  lemma {:induction false} ShiftStart(from: int, to: int)
    ensures DaysBetween(from, to) == DaysInYear(from) + DaysBetween(from + 1, to)
    decreases if to >= from then to - from else from - to
  {
    if to == from {
      assert DaysBetween(from + 1, from) == DaysBetween(from + 1, from + 1) - DaysInYear(from);
    } else if to > from {
      if to - 1 == from {
      } else {
        ShiftStart(from, to - 1);
      }
    } else {
      ShiftStart(from, to + 1);
    }
  }

  function Digit(n: int): (r: char)
    requires 0 <= n < 10
    ensures '0' <= r <= '9'
  {
    ('0' as int + n) as char
  }

  function DigitValue(c: char): int
  {
    c as int - '0' as int
  }

  /** The number written by a run of decimal digits. */
  function Number(s: string): int
  {
    if s == [] then 0 else Number(s[..|s| - 1]) * 10 + DigitValue(s[|s| - 1])
  }

  /** `n` written with exactly `width` digits, zero-padded. */
  function Padded(n: nat, width: nat): (r: string)
    ensures |r| == width
    ensures forall i :: 0 <= i < |r| ==> '0' <= r[i] <= '9'
  {
    if width == 0 then [] else Padded(n / 10, width - 1) + [Digit(n % 10)]
  }

  function Power10(k: nat): (r: nat)
    ensures r >= 1
  {
    if k == 0 then 1 else 10 * Power10(k - 1)
  }

  /** Reading a padded number back gives the number, when it fits. */
  lemma {:induction false} PaddedNumber(n: nat, width: nat)
    requires n < Power10(width)
    ensures Number(Padded(n, width)) == n
  {
    if width > 0 {
      var p := Padded(n, width);
      assert p[..|p| - 1] == Padded(n / 10, width - 1);
      assert n / 10 < Power10(width - 1);
      PaddedNumber(n / 10, width - 1);
    }
  }

  /** The fields joined as 'YYYY-MM-DDTHH:MM:SSZ'. */
  function Layout(y: string, mo: string, d: string, h: string, mi: string, se: string): string
  {
    y + "-" + mo + "-" + d + "T" + h + ":" + mi + ":" + se + "Z"
  }

  lemma LayoutFields(y: string, mo: string, d: string, h: string, mi: string, se: string)
    requires |y| == 4 && |mo| == 2 && |d| == 2 && |h| == 2 && |mi| == 2 && |se| == 2
    ensures var s := Layout(y, mo, d, h, mi, se);
            |s| == 20 &&
            s[4] == '-' && s[7] == '-' && s[10] == 'T' && s[13] == ':' && s[16] == ':' && s[19] == 'Z' &&
            s[0..4] == y && s[5..7] == mo && s[8..10] == d && s[11..13] == h && s[14..16] == mi && s[17..19] == se
  {
    var date := y + "-" + mo + "-" + d;
    var time := h + ":" + mi + ":" + se;
    assert Layout(y, mo, d, h, mi, se) == date + "T" + time + "Z";
    assert date[0..4] == y && date[5..7] == mo && date[8..10] == d;
    assert time[0..2] == h && time[3..5] == mi && time[6..8] == se;
  }

  /** `datetime.fromtimestamp(ts, tz=utc).strftime('%Y-%m-%dT%H:%M:%SZ')`;
      `None` where Python raises because the year leaves 1..9999. */
  function UnixToIso8601(ts: int): (r: Option<string>)
    ensures r.Some? ==> |r.value| == 20
  {
    var date := CivilFrom(ts / 86400, 1970);
    var secs := ts % 86400;
    if date.year < 1 || date.year > 9999 then None
    else
      LayoutFields(Padded(date.year, 4), Padded(date.month, 2), Padded(date.day, 2),
                   Padded(secs / 3600, 2), Padded(secs % 3600 / 60, 2), Padded(secs % 60, 2));
      Some(Layout(Padded(date.year, 4), Padded(date.month, 2), Padded(date.day, 2),
                  Padded(secs / 3600, 2), Padded(secs % 3600 / 60, 2), Padded(secs % 60, 2)))
  }

  /** The number in `s[i..j]`. */
  function Field(s: string, i: nat, j: nat): int
    requires i <= j <= |s|
  {
    Number(s[i..j])
  }

  /** The text has the shape 'YYYY-MM-DDTHH:MM:SSZ' with every field made
      of digits. */
  lemma Iso8601Shape(ts: int)
    requires UnixToIso8601(ts).Some?
    ensures var s := UnixToIso8601(ts).value;
            s[4] == '-' && s[7] == '-' && s[10] == 'T' && s[13] == ':' && s[16] == ':' && s[19] == 'Z' &&
            forall i :: 0 <= i < 20 && i !in {4, 7, 10, 13, 16, 19} ==> '0' <= s[i] <= '9'
  {
    var date := CivilFrom(ts / 86400, 1970);
    var secs := ts % 86400;
    var y, mo, d := Padded(date.year, 4), Padded(date.month, 2), Padded(date.day, 2);
    var h, mi, se := Padded(secs / 3600, 2), Padded(secs % 3600 / 60, 2), Padded(secs % 60, 2);
    var s := UnixToIso8601(ts).value;
    LayoutFields(y, mo, d, h, mi, se);
    forall i | 0 <= i < 20 && i !in {4, 7, 10, 13, 16, 19}
      ensures '0' <= s[i] <= '9'
    {
      if i < 4 { assert s[i] == s[0..4][i]; }
      else if i < 7 { assert s[i] == s[5..7][i - 5]; }
      else if i < 10 { assert s[i] == s[8..10][i - 8]; }
      else if i < 13 { assert s[i] == s[11..13][i - 11]; }
      else if i < 16 { assert s[i] == s[14..16][i - 14]; }
      else { assert s[i] == s[17..19][i - 17]; }
    }
  }

  /** Read back, the date fields name a real date lying `ts / 86400` days
      after 1970-01-01, and the time fields give `ts % 86400` seconds: the
      text denotes the timestamp. */
  lemma Iso8601Denotes(ts: int)
    requires UnixToIso8601(ts).Some?
    ensures var s := UnixToIso8601(ts).value;
            DateDenotes(Date(Field(s, 0, 4), Field(s, 5, 7), Field(s, 8, 10)), ts / 86400) &&
            1 <= Field(s, 0, 4) <= 9999 &&
            Field(s, 11, 13) < 24 && Field(s, 14, 16) < 60 && Field(s, 17, 19) < 60 &&
            Field(s, 11, 13) * 3600 + Field(s, 14, 16) * 60 + Field(s, 17, 19) == ts % 86400
  {
    var date := CivilFrom(ts / 86400, 1970);
    var secs := ts % 86400;
    var y, mo, d := Padded(date.year, 4), Padded(date.month, 2), Padded(date.day, 2);
    var h, mi, se := Padded(secs / 3600, 2), Padded(secs % 3600 / 60, 2), Padded(secs % 60, 2);
    LayoutFields(y, mo, d, h, mi, se);
    PowersUsed();
    PaddedNumber(date.year, 4);
    PaddedNumber(date.month, 2);
    PaddedNumber(date.day, 2);
    TimeOfDay(secs);
    PaddedNumber(secs / 3600, 2);
    PaddedNumber(secs % 3600 / 60, 2);
    PaddedNumber(secs % 60, 2);
  }

  lemma PowersUsed()
    ensures Power10(4) == 10000 && Power10(2) == 100
  {
  }

  /** Hours, minutes and seconds of a second of the day. */
  lemma TimeOfDay(secs: int)
    requires 0 <= secs < 86400
    ensures secs / 3600 < 24 && secs % 3600 / 60 < 60
    ensures secs / 3600 * 3600 + secs % 3600 / 60 * 60 + secs % 60 == secs
  {
    var h, rest := secs / 3600, secs % 3600;
    assert secs == h * 3600 + rest;
    var m, sec := rest / 60, rest % 60;
    assert rest == m * 60 + sec;
    assert secs % 60 == sec by {
      assert secs == (h * 60 + m) * 60 + sec;
    }
  }
}
