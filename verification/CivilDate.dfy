/** The civil calendar conversion pair: days to a date for request stamps, and a date back to days
    for HTTP dates (section 5.6.7 of RFC 9110). */
module CivilDate {
  import opened Arithmetic

  datatype Date = Date(year: int, month: int, day: int)

  /** Division rounding toward zero. */
  function Quot(a: int, b: int): int
    requires b > 0
  {
    if a >= 0 then a / b else -((-a) / b)
  }

  function CivilFromDays(days: int): Date {
    var z := days + 719468;
    var era := Quot(if z >= 0 then z else z - 146096, 146097);
    FromEra(era, z - era * 146097)
  }

  /** The date of a day of a 400-year era. */
  function FromEra(era: int, doe: int): Date {
    var yoe := (doe - doe / 1460 + doe / 36524 - doe / 146096) / 365;
    FromParts(era, yoe, doe - (365 * yoe + yoe / 4 - yoe / 100))
  }

  /** The date from the year of the era and the day of the year, both counted from 1 March. */
  function FromParts(era: int, yoe: int, doy: int): Date {
    var y := yoe + era * 400;
    var mp := (5 * doy + 2) / 153;
    var d := doy - (153 * mp + 2) / 5 + 1;
    var m := if mp < 10 then mp + 3 else mp - 9;
    Date(if m <= 2 then y + 1 else y, m, d)
  }

  function DaysFromCivil(date: Date): int {
    var y := if date.month <= 2 then date.year - 1 else date.year;
    var era := Quot(if y >= 0 then y else y - 399, 400);
    var yoe := y - era * 400;
    var mp := if date.month > 2 then date.month - 3 else date.month + 9;
    var doy := (153 * mp + 2) / 5 + date.day - 1;
    var doe := yoe * 365 + yoe / 4 - yoe / 100 + doy;
    doe + era * 146097 - 719468
  }

  // ---------- The Gregorian calendar ----------

  predicate Leap(year: int) {
    year % 4 == 0 && (year % 100 != 0 || year % 400 == 0)
  }

  function DaysInMonth(year: int, month: int): int
    requires 1 <= month <= 12
  {
    if month == 2 then if Leap(year) then 29 else 28
    else if month == 4 || month == 6 || month == 9 || month == 11 then 30
    else 31
  }

  predicate ValidDate(d: Date) {
    1 <= d.month <= 12 && 1 <= d.day <= DaysInMonth(d.year, d.month)
  }

  // ---------- The day of a 400-year era ----------

  lemma FloorDivision(a: int, b: int, r: int, q: int)
    requires b > 0 && a == q * b + r && 0 <= r < b
    ensures a / b == q
  {
    var q', r' := a / b, a % b;
    assert a == q' * b + r';
    Apart(q, q', b);
    Apart(q', q, b);
  }

  /** The guarded truncating division is floor division. */
  lemma QuotIsFloor(z: int, b: int)
    requires b > 0
    ensures Quot(if z >= 0 then z else z - (b - 1), b) == z / b
  {
    if z < 0 {
      var q, r := z / b, z % b;
      assert z == q * b + r;
      var n := -(z - (b - 1));
      assert n == (-q) * b + (b - 1 - r);
      FloorDivision(n, b, b - 1 - r, -q);
    }
  }

  /** The day of the era, cut into centuries of 36524 days and four-year blocks of 1461: century
      `c`, block `k`, day `m` of the block. */
  lemma EraSplits(doe: int) returns (c: int, k: int, m: int)
    requires 0 <= doe < 146097
    ensures doe == 36524 * c + 1461 * k + m && 0 <= c <= 3 && 0 <= k <= 24 && 0 <= m <= 1460
    ensures doe / 36524 - doe / 146096 == c
    ensures k == 24 && m == 1460 ==> c == 3
  {
    c := doe / 36524 - doe / 146096;
    var doc := doe - 36524 * c;
    k := doc / 1461;
    m := doc % 1461;
  }

  /** The year formula picks year `4k + j` of the century, `j` the year of the block. */
  lemma YearOfEra(doe: int, c: int, k: int, m: int)
    requires 0 <= doe < 146097 && doe == 36524 * c + 1461 * k + m && 0 <= c <= 3 && 0 <= k <= 24 && 0 <= m <= 1460
    requires doe / 36524 - doe / 146096 == c
    ensures var j := if m == 1460 then 3 else m / 365;
            (doe - doe / 1460 + doe / 36524 - doe / 146096) / 365 == 100 * c + 4 * k + j
  {
    var j := if m == 1460 then 3 else m / 365;
    var extra := (k + m + 24 * c) / 1460;
    FloorDivision(doe, 1460, k + m + 24 * c - 1460 * extra, 25 * c + k + extra);
    var n := doe - doe / 1460 + c;
    assert n == 36500 * c + 1460 * k + m - extra;
    FloorDivision(n, 365, m - extra - 365 * j, 100 * c + 4 * k + j);
  }

  lemma DaysBeforeYear(c: int, k: int, j: int)
    requires 0 <= c <= 3 && 0 <= k <= 24 && 0 <= j <= 3
    ensures var y := 100 * c + 4 * k + j; 365 * y + y / 4 - y / 100 == 36524 * c + 1461 * k + 365 * j
  {
    var y := 100 * c + 4 * k + j;
    FloorDivision(y, 4, j, 25 * c + k);
    FloorDivision(y, 100, 4 * k + j, c);
  }

  /** The year a 29 February falls in is a leap year. */
  lemma LeapDay(era: int, c: int, k: int)
    requires 0 <= c <= 3 && 0 <= k <= 24 && (k == 24 ==> c == 3)
    ensures Leap(400 * era + 100 * c + 4 * k + 4)
  {
    var y := 400 * era + 100 * c + 4 * k + 4;
    assert y == 4 * (100 * era + 25 * c + k + 1);
    if k == 24 {
      assert y == 400 * (era + 1);
    } else {
      assert y == 100 * (4 * era + c) + (4 * k + 4);
      FloorDivision(y, 100, 4 * k + 4, 4 * era + c);
    }
  }

  /** Day of year to month and day, counting from 1 March. */
  lemma MonthAndDay(doy: int)
    requires 0 <= doy <= 365
    ensures var mp := (5 * doy + 2) / 153;
            var d := doy - (153 * mp + 2) / 5 + 1;
            && 0 <= mp <= 11
            && 1 <= d <= (if mp == 11 then 29 else if mp == 1 || mp == 3 || mp == 6 || mp == 8 then 30 else 31)
            && (mp == 11 && d == 29 ==> doy == 365)
  {
    var mp := (5 * doy + 2) / 153;
    assert mp == 0 || mp == 1 || mp == 2 || mp == 3 || mp == 4 || mp == 5 || mp == 6 || mp == 7 || mp == 8 || mp == 9
           || mp == 10 || mp == 11;
  }

  lemma PartsOfEra(era: int, doe: int) returns (c: int, k: int, j: int, doy: int)
    requires 0 <= doe < 146097
    ensures FromEra(era, doe) == FromParts(era, 100 * c + 4 * k + j, doy)
    ensures doe == 36524 * c + 1461 * k + 365 * j + doy
    ensures 0 <= c <= 3 && 0 <= k <= 24 && 0 <= j <= 3 && 0 <= doy <= 365
    ensures doy == 365 ==> j == 3 && (k == 24 ==> c == 3)
  {
    hide FromParts;
    var m;
    c, k, m := EraSplits(doe);
    YearOfEra(doe, c, k, m);
    j := if m == 1460 then 3 else m / 365;
    DaysBeforeYear(c, k, j);
    doy := m - 365 * j;
  }

  lemma PartsAreValid(era: int, c: int, k: int, j: int, doy: int)
    requires 0 <= c <= 3 && 0 <= k <= 24 && 0 <= j <= 3 && 0 <= doy <= 365
    requires doy == 365 ==> j == 3 && (k == 24 ==> c == 3)
    ensures ValidDate(FromParts(era, 100 * c + 4 * k + j, doy))
  {
    hide Leap;
    MonthAndDay(doy);
    if doy == 365 {
      LeapDay(era, c, k);
      assert 100 * c + 4 * k + j + era * 400 + 1 == 400 * era + 100 * c + 4 * k + 4;
    }
  }

  lemma PartsInvert(era: int, c: int, k: int, j: int, doy: int)
    requires 0 <= c <= 3 && 0 <= k <= 24 && 0 <= j <= 3 && 0 <= doy <= 365
    ensures DaysFromCivil(FromParts(era, 100 * c + 4 * k + j, doy))
         == era * 146097 + 36524 * c + 1461 * k + 365 * j + doy - 719468
  {
    var yoe := 100 * c + 4 * k + j;
    var y := yoe + era * 400;
    MonthAndDay(doy);
    QuotIsFloor(y, 400);
    FloorDivision(y, 400, yoe, era);
    DaysBeforeYear(c, k, j);
  }

  /** For every day number, across all eras: the date is a real calendar date, and the inverse
      arithmetic maps it back. */
  lemma CivilRoundTrip(days: int)
    ensures ValidDate(CivilFromDays(days))
    ensures DaysFromCivil(CivilFromDays(days)) == days
  {
    hide FromEra, DaysFromCivil, FromParts, ValidDate, Quot;
    var z := days + 719468;
    QuotIsFloor(z, 146097);
    var era := z / 146097;
    var c, k, j, doy := PartsOfEra(era, z % 146097);
    PartsAreValid(era, c, k, j, doy);
    PartsInvert(era, c, k, j, doy);
  }

  // ---------- The other direction ----------

  /** A leap year ends a block of four, and the last block of a century only in the last century. */
  lemma LeapYearParts(era: int, c: int, k: int, j: int)
    requires 0 <= c <= 3 && 0 <= k <= 24 && 0 <= j <= 3 && Leap(400 * era + 100 * c + 4 * k + j + 1)
    ensures j == 3 && (k == 24 ==> c == 3)
  {
    var y := 400 * era + 100 * c + 4 * k + j + 1;
    if j < 3 {
      FloorDivision(y, 4, j + 1, 100 * era + 25 * c + k);
    } else if k == 24 && c < 3 {
      FloorDivision(y, 100, 0, 4 * era + c + 1);
      FloorDivision(y, 400, 100 * c + 100, era);
    }
  }

  /** Month and day to day of year, and back. */
  lemma DayOfYear(mp: int, d: int)
    requires 0 <= mp <= 11
    requires 1 <= d <= (if mp == 11 then 29 else if mp == 1 || mp == 3 || mp == 6 || mp == 8 then 30 else 31)
    ensures var doy := (153 * mp + 2) / 5 + d - 1;
            0 <= doy <= 365 && (5 * doy + 2) / 153 == mp && (doy == 365 <==> mp == 11 && d == 29)
  {
    assert mp == 0 || mp == 1 || mp == 2 || mp == 3 || mp == 4 || mp == 5 || mp == 6 || mp == 7 || mp == 8 || mp == 9
           || mp == 10 || mp == 11;
  }

  /** The place of a year in its era. */
  lemma YearParts(yoe: int) returns (c: int, k: int, j: int)
    requires 0 <= yoe < 400
    ensures yoe == 100 * c + 4 * k + j && 0 <= c <= 3 && 0 <= k <= 24 && 0 <= j <= 3
  {
    c := yoe / 100;
    k := (yoe % 100) / 4;
    j := yoe % 4;
    FloorDivision(yoe, 4, yoe % 100 - 4 * k, 25 * c + k);
  }

  /** The era formula recovers the parts it is given. */
  lemma EraOfParts(era: int, c: int, k: int, j: int, doy: int)
    requires 0 <= c <= 3 && 0 <= k <= 24 && 0 <= j <= 3 && 0 <= doy <= 365
    requires doy == 365 ==> j == 3 && (k == 24 ==> c == 3)
    ensures var doe := 36524 * c + 1461 * k + 365 * j + doy;
            0 <= doe < 146097 && FromEra(era, doe) == FromParts(era, 100 * c + 4 * k + j, doy)
  {
    hide FromParts;
    var m := 365 * j + doy;
    var doe := 36524 * c + 1461 * k + m;
    CenturyOf(c, 1461 * k + m);
    YearOfEra(doe, c, k, m);
    assert j == if m == 1460 then 3 else m / 365;
    DaysBeforeYear(c, k, j);
  }

  lemma CenturyOf(c: int, doc: int)
    requires 0 <= c <= 3 && 0 <= doc <= 36524 && (doc == 36524 ==> c == 3)
    ensures (36524 * c + doc) / 36524 - (36524 * c + doc) / 146096 == c
  {
    var doe := 36524 * c + doc;
    if doc == 36524 {
      assert doe == 146096;
    } else {
      FloorDivision(doe, 36524, doc, c);
      FloorDivision(doe, 146096, doe, 0);
    }
  }

  /** A date's place: its era, its year there and its day of that year. */
  lemma PlaceOf(date: Date) returns (era: int, c: int, k: int, j: int, doy: int)
    requires ValidDate(date)
    ensures 0 <= c <= 3 && 0 <= k <= 24 && 0 <= j <= 3 && 0 <= doy <= 365
    ensures doy == 365 ==> j == 3 && (k == 24 ==> c == 3)
    ensures FromParts(era, 100 * c + 4 * k + j, doy) == date
  {
    hide Leap;
    var y := if date.month <= 2 then date.year - 1 else date.year;
    var mp := if date.month > 2 then date.month - 3 else date.month + 9;
    era := y / 400;
    c, k, j := YearParts(y % 400);
    DayOfYear(mp, date.day);
    doy := (153 * mp + 2) / 5 + date.day - 1;
    if doy == 365 {
      assert date.year == 400 * era + 100 * c + 4 * k + j + 1;
      LeapYearParts(era, c, k, j);
    }
  }

  /** Every calendar date is the date of the day it maps to. */
  lemma DateRoundTrip(date: Date)
    requires ValidDate(date)
    ensures CivilFromDays(DaysFromCivil(date)) == date
  {
    hide FromEra, FromParts, DaysFromCivil, CivilFromDays, ValidDate;
    var era, c, k, j, doy := PlaceOf(date);
    PartsInvert(era, c, k, j, doy);
    EraOfParts(era, c, k, j, doy);
    EraOfDay(era, 36524 * c + 1461 * k + 365 * j + doy);
  }

  lemma EraOfDay(era: int, doe: int)
    requires 0 <= doe < 146097
    ensures CivilFromDays(doe + era * 146097 - 719468) == FromEra(era, doe)
  {
    hide FromEra;
    var z := doe + era * 146097;
    QuotIsFloor(z, 146097);
    FloorDivision(z, 146097, doe, era);
  }

  // ---------- The calendar itself ----------

  /** The day after, by the lengths of the months. */
  function NextDay(d: Date): Date
    requires ValidDate(d)
  {
    if d.day < DaysInMonth(d.year, d.month) then Date(d.year, d.month, d.day + 1)
    else if d.month < 12 then Date(d.year, d.month + 1, 1)
    else Date(d.year + 1, 1, 1)
  }

  /** Day numbers without eras: the days of the years before, each with its leap day. */
  lemma DaysWithoutEras(date: Date)
    ensures var y := if date.month <= 2 then date.year - 1 else date.year;
            var mp := if date.month > 2 then date.month - 3 else date.month + 9;
            DaysFromCivil(date) == 365 * y + y / 4 - y / 100 + y / 400 + (153 * mp + 2) / 5 + date.day - 1 - 719468
  {
    var y := if date.month <= 2 then date.year - 1 else date.year;
    QuotIsFloor(y, 400);
    var era, yoe := y / 400, y % 400;
    FloorDivision(y, 4, yoe % 4, 100 * era + yoe / 4);
    FloorDivision(y, 100, yoe % 100, 4 * era + yoe / 100);
  }

  lemma NextQuotient(y: int, b: int)
    requires b > 1
    ensures (y + 1) / b == y / b + if (y + 1) % b == 0 then 1 else 0
  {
    var q, r := y / b, y % b;
    assert y == q * b + r;
    if r == b - 1 {
      FloorDivision(y + 1, b, 0, q + 1);
      assert y + 1 == (q + 1) * b;
    } else {
      FloorDivision(y + 1, b, r + 1, q);
    }
  }

  /** A year is one day longer exactly when it ends in a leap day. */
  lemma YearLength(y: int)
    ensures (y + 1) / 4 - (y + 1) / 100 + (y + 1) / 400 == y / 4 - y / 100 + y / 400 + if Leap(y + 1) then 1 else 0
  {
    NextQuotient(y, 4);
    NextQuotient(y, 100);
    NextQuotient(y, 400);
    Multiples(y + 1);
  }

  lemma Multiples(y: int)
    ensures y % 400 == 0 ==> y % 100 == 0
    ensures y % 100 == 0 ==> y % 4 == 0
  {
    if y % 400 == 0 {
      FloorDivision(y, 100, 0, 4 * (y / 400));
    }
    if y % 100 == 0 {
      FloorDivision(y, 4, 0, 25 * (y / 100));
    }
  }

  lemma NextDayIsOneLater(d: Date)
    requires ValidDate(d)
    ensures ValidDate(NextDay(d)) && DaysFromCivil(NextDay(d)) == DaysFromCivil(d) + 1
  {
    hide DaysFromCivil, Leap;
    DaysWithoutEras(d);
    DaysWithoutEras(NextDay(d));
    var y := if d.month <= 2 then d.year - 1 else d.year;
    YearLength(y);
  }

  /** Day 0 is 1 January 1970 and each day is the calendar successor of the one before, so every day
      number has the one right date. */
  lemma CivilIsTheCalendar(days: int)
    ensures CivilFromDays(0) == Date(1970, 1, 1)
    ensures ValidDate(CivilFromDays(days)) && CivilFromDays(days + 1) == NextDay(CivilFromDays(days))
  {
    hide CivilFromDays, DaysFromCivil, NextDay, ValidDate;
    assert CivilFromDays(0) == Date(1970, 1, 1) by {
      EraOfDay(4, 719468 - 4 * 146097);
      assert FromEra(4, 135080) == Date(1970, 1, 1);
    }
    CivilRoundTrip(days);
    NextDayIsOneLater(CivilFromDays(days));
    DateRoundTrip(NextDay(CivilFromDays(days)));
  }
}
