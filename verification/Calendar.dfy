/** The proleptic Gregorian calendar in UTC: civil date and time, and the instant in nanoseconds since the
    start of year zero. */
module Calendar {

  const DAY: int := 86_400_000_000_000

  datatype Civil = Civil(year: int, month: int, day: int, hour: int, minute: int, second: int, nanos: int)

  predicate IsLeap(y: int) {
    y % 4 == 0 && (y % 100 != 0 || y % 400 == 0)
  }

  function DaysIn(y: int, month: int): int {
    if month == 2 then (if IsLeap(y) then 29 else 28)
    else if month == 4 || month == 6 || month == 9 || month == 11 then 30
    else 31
  }

  /** The lengths of the months, and the leap years of the Gregorian rule. */
  lemma MonthTable(y: int)
    ensures [DaysIn(y, 1), DaysIn(y, 3), DaysIn(y, 4), DaysIn(y, 5), DaysIn(y, 6), DaysIn(y, 7),
             DaysIn(y, 8), DaysIn(y, 9), DaysIn(y, 10), DaysIn(y, 11), DaysIn(y, 12)]
      == [31, 31, 30, 31, 30, 31, 31, 30, 31, 30, 31]
    ensures DaysIn(2024, 2) == 29 && DaysIn(2023, 2) == 28 && DaysIn(1900, 2) == 28 && DaysIn(2000, 2) == 29
  {
  }

  /** Days from the start of year zero to the start of year y. */
  function DaysBeforeYear(y: int): int {
    365 * y + (y + 3) / 4 - (y + 99) / 100 + (y + 399) / 400
  }

  function DaysBeforeMonth(y: int, month: nat): int
  {
    if month <= 1 then 0 else DaysBeforeMonth(y, month - 1) + DaysIn(y, month - 1)
  }

  predicate Valid(c: Civil) {
    && 1 <= c.month <= 12 && 1 <= c.day <= DaysIn(c.year, c.month)
    && 0 <= c.hour < 24 && 0 <= c.minute < 60 && 0 <= c.second < 60 && 0 <= c.nanos < 1_000_000_000
  }

  function DayNumber(y: int, month: nat, day: int): int {
    DaysBeforeYear(y) + DaysBeforeMonth(y, month) + day - 1
  }

  function ClockNanos(hour: int, minute: int, second: int, nanos: int): int {
    ((hour * 60 + minute) * 60 + second) * 1_000_000_000 + nanos
  }

  function Instant(c: Civil): int
    requires c.month >= 0
  {
    DayNumber(c.year, c.month, c.day) * DAY + ClockNanos(c.hour, c.minute, c.second, c.nanos)
  }

  lemma EveryFourth(q: int, r: int)
    requires 0 <= r < 4
    ensures (4 * q + r + 4) / 4 == (4 * q + r + 3) / 4 + if r == 0 then 1 else 0
  {
  }

  lemma EveryHundredth(q: int, r: int)
    requires 0 <= r < 100
    ensures (100 * q + r + 100) / 100 == (100 * q + r + 99) / 100 + if r == 0 then 1 else 0
  {
  }

  lemma EveryFourHundredth(q: int, r: int)
    requires 0 <= r < 400
    ensures (400 * q + r + 400) / 400 == (400 * q + r + 399) / 400 + if r == 0 then 1 else 0
  {
  }

  lemma CenturiesAreFourths(q: int)
    ensures (100 * q) % 4 == 0 && (400 * q) % 100 == 0
  {
  }

  lemma YearLength(y: int)
    ensures DaysBeforeYear(y + 1) == DaysBeforeYear(y) + if IsLeap(y) then 366 else 365
  {
    EveryFourth(y / 4, y % 4);
    EveryHundredth(y / 100, y % 100);
    EveryFourHundredth(y / 400, y % 400);
    CenturiesAreFourths(y / 100);
    CenturiesAreFourths(y / 400);
  }

  /** The Unix epoch, counted from the start of year zero. */
  lemma Epoch()
    ensures Instant(Civil(1970, 1, 1, 0, 0, 0, 0)) == 719_528 * DAY
    ensures Instant(Civil(1970, 1, 2, 3, 4, 5, 6)) == 719_529 * DAY + ((3 * 60 + 4) * 60 + 5) * 1_000_000_000 + 6
  {
    assert DaysBeforeMonth(1970, 1) == 0;
  }

  lemma YearsFollow(y: int, z: int)
    requires y <= z
    ensures DaysBeforeYear(y) <= DaysBeforeYear(z)
    decreases z - y
  {
  }

  lemma MonthsFillTheYear(y: int)
    ensures DaysBeforeMonth(y, 13) == if IsLeap(y) then 366 else 365
  {
    assert DaysBeforeMonth(y, 1) == 0 && DaysBeforeMonth(y, 2) == 31;
    assert DaysBeforeMonth(y, 3) == 31 + DaysIn(y, 2);
    assert DaysBeforeMonth(y, 4) == DaysBeforeMonth(y, 3) + DaysIn(y, 3);
    assert DaysBeforeMonth(y, 5) == DaysBeforeMonth(y, 3) + 61;
    assert DaysBeforeMonth(y, 6) == DaysBeforeMonth(y, 5) + DaysIn(y, 5);
    assert DaysBeforeMonth(y, 7) == DaysBeforeMonth(y, 5) + 61;
    assert DaysBeforeMonth(y, 8) == DaysBeforeMonth(y, 7) + DaysIn(y, 7);
    assert DaysBeforeMonth(y, 9) == DaysBeforeMonth(y, 7) + 62;
    assert DaysBeforeMonth(y, 10) == DaysBeforeMonth(y, 9) + DaysIn(y, 9);
    assert DaysBeforeMonth(y, 11) == DaysBeforeMonth(y, 9) + 61;
    assert DaysBeforeMonth(y, 12) == DaysBeforeMonth(y, 11) + DaysIn(y, 11);
    assert DaysBeforeMonth(y, 13) == DaysBeforeMonth(y, 11) + 61;
  }

  lemma MonthsFollow(y: int, m: nat, n: nat)
    requires m <= n
    ensures DaysBeforeMonth(y, m) <= DaysBeforeMonth(y, n)
    decreases n - m
  {
  }

  /** The day of a valid date lies in its year. */
  lemma DayInYear(y: int, month: nat, day: int)
    requires 1 <= month <= 12 && 1 <= day <= DaysIn(y, month)
    ensures DaysBeforeYear(y) <= DayNumber(y, month, day) < DaysBeforeYear(y + 1)
  {
    MonthsFollow(y, 1, month);
    MonthsFollow(y, month + 1, 13);
    MonthsFillTheYear(y);
    YearLength(y);
  }

  lemma ClockInDay(c: Civil)
    requires Valid(c)
    ensures 0 <= ClockNanos(c.hour, c.minute, c.second, c.nanos) < DAY
  {
  }

  // ---- reading an instant as a civil time ----

  function YearOf(day: int, y: int): (r: int)
    requires DaysBeforeYear(y) <= day
    ensures DaysBeforeYear(r) <= day < DaysBeforeYear(r + 1)
    decreases day - DaysBeforeYear(y)
  {
    YearLength(y);
    if day < DaysBeforeYear(y + 1) then y else YearOf(day, y + 1)
  }

  function MonthOf(y: int, yday: int, month: nat): (r: nat)
    requires 1 <= month <= 12 && DaysBeforeMonth(y, month) <= yday < DaysBeforeMonth(y, 13)
    ensures 1 <= r <= 12 && DaysBeforeMonth(y, r) <= yday < DaysBeforeMonth(y, r + 1)
    decreases 12 - month
  {
    if month == 12 || yday < DaysBeforeMonth(y, month + 1) then month else MonthOf(y, yday, month + 1)
  }

  /** The first year a reading can fall in: one before year zero, for instants an offset pushes back. */
  const FIRST_YEAR := -1

  function CivilOf(i: int): (c: Civil)
    requires DaysBeforeYear(FIRST_YEAR) * DAY <= i
    ensures Valid(c)
  {
    var day, clock := i / DAY, i % DAY;
    var y := YearOf(day, FIRST_YEAR);
    var yday := day - DaysBeforeYear(y);
    MonthsFillTheYear(y);
    YearLength(y);
    var m := MonthOf(y, yday, 1);
    Civil(y, m, yday - DaysBeforeMonth(y, m) + 1, clock / 3_600_000_000_000, clock / 60_000_000_000 % 60,
          clock / 1_000_000_000 % 60, clock % 1_000_000_000)
  }

  /** Reading an instant as a civil time loses nothing. */
  lemma InstantOfCivil(i: int)
    requires DaysBeforeYear(FIRST_YEAR) * DAY <= i
    ensures Instant(CivilOf(i)) == i
  {
    var day, clock := i / DAY, i % DAY;
    var c := CivilOf(i);
    assert DayNumber(c.year, c.month, c.day) == day;
    ClockSplits(clock);
  }

  lemma ClockSplits(clock: int)
    requires 0 <= clock < DAY
    ensures ClockNanos(clock / 3_600_000_000_000, clock / 60_000_000_000 % 60, clock / 1_000_000_000 % 60, clock % 1_000_000_000) == clock
  {
    var s := clock / 1_000_000_000;
    var m := s / 60;
    assert clock / 60_000_000_000 == m;
    assert clock / 3_600_000_000_000 == m / 60;
  }

  // ---- chronological order is the order of the fields ----

  predicate LexLess(a: Civil, b: Civil) {
    || a.year < b.year
    || (a.year == b.year && (a.month < b.month
    || (a.month == b.month && (a.day < b.day
    || (a.day == b.day && (a.hour < b.hour
    || (a.hour == b.hour && (a.minute < b.minute
    || (a.minute == b.minute && (a.second < b.second
    || (a.second == b.second && a.nanos < b.nanos)))))))))))
  }

  lemma DaysInOrder(a: Civil, b: Civil)
    requires Valid(a) && Valid(b)
    requires a.year < b.year || (a.year == b.year && (a.month < b.month || (a.month == b.month && a.day < b.day)))
    ensures DayNumber(a.year, a.month, a.day) < DayNumber(b.year, b.month, b.day)
  {
    DayInYear(a.year, a.month, a.day);
    DayInYear(b.year, b.month, b.day);
    if a.year < b.year {
      YearsFollow(a.year + 1, b.year);
    } else if a.month < b.month {
      MonthsFollow(a.year, a.month + 1, b.month);
    }
  }

  lemma EarlierFieldsEarlierInstant(a: Civil, b: Civil)
    requires Valid(a) && Valid(b) && LexLess(a, b)
    ensures Instant(a) < Instant(b)
  {
    ClockInDay(a);
    ClockInDay(b);
    if !(a.year == b.year && a.month == b.month && a.day == b.day) {
      DaysInOrder(a, b);
    }
  }

  /** A valid civil time is later exactly when its fields are, and no two share an instant. */
  lemma ChronologicalIsLexical(a: Civil, b: Civil)
    requires Valid(a) && Valid(b)
    ensures LexLess(a, b) <==> Instant(a) < Instant(b)
    ensures Instant(a) == Instant(b) ==> a == b
  {
    if LexLess(a, b) {
      EarlierFieldsEarlierInstant(a, b);
    } else if LexLess(b, a) {
      EarlierFieldsEarlierInstant(b, a);
    }
  }

  /** Reading back the instant of a valid civil time gives it again. */
  lemma CivilOfInstant(c: Civil)
    requires Valid(c) && c.year >= FIRST_YEAR
    ensures DaysBeforeYear(FIRST_YEAR) * DAY <= Instant(c)
    ensures CivilOf(Instant(c)) == c
  {
    DayInYear(c.year, c.month, c.day);
    YearsFollow(FIRST_YEAR, c.year);
    ClockInDay(c);
    InstantOfCivil(Instant(c));
    ChronologicalIsLexical(CivilOf(Instant(c)), c);
  }
}
