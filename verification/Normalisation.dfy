/** Rewriting a stored timestamp to the fixed-width layout: it keeps the instant, does nothing the second
    time, and makes text order time order. */
module Normalisation {
  import opened Wrappers
  import opened StringOrder
  import opened Numerals
  import opened Calendar
  import opened Timestamps

  /** A parsed instant is never earlier than the calendar can read. */
  lemma ParsedIsReadable(s: string)
    requires Parse(s).Some?
    ensures DaysBeforeYear(FIRST_YEAR) * DAY <= Parse(s).value
  {
    var y := ReadField(s, 4, '-');
    var k := ReadAfterYear(y.rest);
    var t := ReadTail(k.tail);
    var c := Civil(y.n, k.month, k.day, k.hour, k.minute, k.second, t.nanos);
    DayInYear(c.year, c.month, c.day);
    YearsFollow(0, c.year);
    ClockInDay(c);
    ZoneIsBounded(t.minutes, k.tail);
  }

  lemma ZoneIsBounded(minutes: int, tail: string)
    requires ReadTail(tail).GoodTail? && ReadTail(tail).minutes == minutes
    ensures -1500 <= minutes <= 1500
  {
  }

  /** A value that does not parse is passed through. */
  function Normalise(s: string): string {
    if Parse(s).None? then s
    else
      ParsedIsReadable(s);
      Fixed(CivilOf(Parse(s).value))
  }

  predicate FourDigitYear(i: int)
    requires DaysBeforeYear(FIRST_YEAR) * DAY <= i
  {
    0 <= CivilOf(i).year < 10_000
  }

  /** Normalising keeps the instant exactly when its year in UTC has four digits; an offset can push a
      four-digit local year out of them. */
  lemma KeepsTheInstantExactly(s: string)
    requires Parse(s).Some?
    ensures DaysBeforeYear(FIRST_YEAR) * DAY <= Parse(s).value
    ensures Parse(Normalise(s)) == Parse(s) <==> FourDigitYear(Parse(s).value)
  {
    ParsedIsReadable(s);
    var i := Parse(s).value;
    if FourDigitYear(i) {
      FixedReadsBack(CivilOf(i));
      InstantOfCivil(i);
    } else {
      WideYearDoesNotParse(CivilOf(i));
    }
  }

  /** Normalising twice is normalising once, for every text whatever. */
  lemma Idempotent(s: string)
    ensures Normalise(Normalise(s)) == Normalise(s)
  {
    if Parse(s).Some? {
      KeepsTheInstantExactly(s);
      if !FourDigitYear(Parse(s).value) {
        WideYearDoesNotParse(CivilOf(Parse(s).value));
      }
    }
  }

  lemma SecondOrder(a: Civil, b: Civil)
    requires Valid(a) && Valid(b)
    ensures Less(Pad(a.second, 2) + FixedTail(a.nanos), Pad(b.second, 2) + FixedTail(b.nanos)) <==>
      a.second < b.second || (a.second == b.second && a.nanos < b.nanos)
  {
    Powers();
    var fa, fb := Field(a.nanos, 9, 'Z', ""), Field(b.nanos, 9, 'Z', "");
    FieldOrder(a.nanos, b.nanos, 9, 'Z', "", "");
    assert FixedTail(a.nanos) == "." + fa && FixedTail(b.nanos) == "." + fb;
    assert Pad(a.second, 2) + FixedTail(a.nanos) == Field(a.second, 2, '.', fa);
    assert Pad(b.second, 2) + FixedTail(b.nanos) == Field(b.second, 2, '.', fb);
    FieldOrder(a.second, b.second, 2, '.', fa, fb);
  }

  function ClockText(c: Civil): string
    requires Valid(c)
  {
    Field(c.hour, 2, ':', Field(c.minute, 2, ':', Pad(c.second, 2) + FixedTail(c.nanos)))
  }

  lemma ClockOrder(a: Civil, b: Civil)
    requires Valid(a) && Valid(b)
    ensures Less(ClockText(a), ClockText(b)) <==>
      (a.hour < b.hour || (a.hour == b.hour && (a.minute < b.minute || (a.minute == b.minute
        && (a.second < b.second || (a.second == b.second && a.nanos < b.nanos))))))
  {
    Powers();
    SecondOrder(a, b);
    var sa, sb := Pad(a.second, 2) + FixedTail(a.nanos), Pad(b.second, 2) + FixedTail(b.nanos);
    FieldOrder(a.minute, b.minute, 2, ':', sa, sb);
    FieldOrder(a.hour, b.hour, 2, ':', Field(a.minute, 2, ':', sa), Field(b.minute, 2, ':', sb));
  }

  /** The fixed layout compares as text the way the fields compare. */
  lemma FixedOrder(a: Civil, b: Civil)
    requires Valid(a) && Valid(b) && 0 <= a.year < 10_000 && 0 <= b.year < 10_000
    ensures Less(Fixed(a), Fixed(b)) <==> LexLess(a, b)
  {
    Powers();
    ClockOrder(a, b);
    var ka, kb := ClockText(a), ClockText(b);
    FieldOrder(a.day, b.day, 2, 'T', ka, kb);
    var da, db := Field(a.day, 2, 'T', ka), Field(b.day, 2, 'T', kb);
    FieldOrder(a.month, b.month, 2, '-', da, db);
    var ma, mb := Field(a.month, 2, '-', da), Field(b.month, 2, '-', db);
    FieldOrder(a.year, b.year, 4, '-', ma, mb);
    assert Fixed(a) == Field(a.year, 4, '-', ma) && Fixed(b) == Field(b.year, 4, '-', mb);
  }

  /** Byte-wise order of normalised timestamps is chronological order, and they are the same text exactly
      when they name the same instant. */
  lemma TextOrderIsTimeOrder(s: string, t: string)
    requires Parse(s).Some? && Parse(t).Some?
    requires DaysBeforeYear(FIRST_YEAR) * DAY <= Parse(s).value && DaysBeforeYear(FIRST_YEAR) * DAY <= Parse(t).value
    requires FourDigitYear(Parse(s).value) && FourDigitYear(Parse(t).value)
    ensures Less(Normalise(s), Normalise(t)) <==> Parse(s).value < Parse(t).value
    ensures Normalise(s) == Normalise(t) <==> Parse(s) == Parse(t)
  {
    var i, j := Parse(s).value, Parse(t).value;
    FixedOrder(CivilOf(i), CivilOf(j));
    InstantOfCivil(i);
    InstantOfCivil(j);
    ChronologicalIsLexical(CivilOf(i), CivilOf(j));
    KeepsTheInstantExactly(s);
    KeepsTheInstantExactly(t);
  }

  // ---- the source layout ----

  lemma {:induction false} DroppedZeros(s: string)
    ensures DropZeros(s) <= s && forall i :: |DropZeros(s)| <= i < |s| ==> s[i] == '0'
    ensures AllDigits(s) ==> AllDigits(DropZeros(s))
  {
    if s != "" && s[|s| - 1] == '0' { DroppedZeros(s[..|s| - 1]); }
  }

  lemma {:induction false} ZerosAreZero(s: string)
    requires forall i :: 0 <= i < |s| ==> s[i] == '0'
    ensures AllDigits(s) && Num(s) == 0
    decreases |s|
  {
    if s != "" {
      var init := s[..|s| - 1];
      ZerosAreZero(init);
      assert DigitValues(s)[..|s| - 1] == DigitValues(init);
    }
  }

  lemma ShortFractionReadsBack(nanos: nat, z: string, minutes: int)
    requires nanos < 1_000_000_000 && z != "" && !IsDigit(z[0]) && z[0] != '.' && ReadZone(z) == Some(minutes)
    ensures ReadTail(ShortFraction(nanos) + z) == GoodTail(nanos, minutes)
  {
    Powers();
    if nanos == 0 {
      assert "" + z == z;
    } else {
      var p := Pad(nanos, 9);
      var ds := DropZeros(p);
      PadReadsBack(nanos, 9);
      DroppedZeros(p);
      if ds == "" { ZerosAreZero(p); }
      TailReadsBack(ds, z, minutes);
      assert (ds + "000000000")[..9] == p;
    }
  }

  lemma ZoneReadsBack(minutes: int)
    requires -1440 < minutes < 1440
    ensures var z := ZoneText(minutes); z != "" && !IsDigit(z[0]) && z[0] != '.' && ReadZone(z) == Some(minutes)
  {
    var z := ZoneText(minutes);
    var m := if minutes < 0 then -minutes else minutes;
    Powers();
    PadReadsBack(m / 60, 2);
    PadReadsBack(m % 60, 2);
    if minutes != 0 {
      assert z[1..3] == Pad(m / 60, 2) && z[4..6] == Pad(m % 60, 2) && z[3] == ':';
    }
  }

  lemma SourceParses(c: Civil, minutes: int)
    requires Valid(c) && 0 <= c.year < 10_000 && -1440 < minutes < 1440
    ensures Parse(Short(c, minutes)) == Some(Instant(c) - minutes * MINUTE)
  {
    ZoneReadsBack(minutes);
    ShortFractionReadsBack(c.nanos, ZoneText(minutes), minutes);
    WrittenReadsBack(c, ShortFraction(c.nanos) + ZoneText(minutes), minutes);
  }

  /** A timestamp of the instant of u normalises to the fixed layout of u. */
  lemma NormalisesTo(s: string, u: Civil)
    requires Valid(u) && u.year >= FIRST_YEAR && Parse(s) == Some(Instant(u))
    ensures Normalise(s) == Fixed(u)
  {
    CivilOfInstant(u);
  }

  lemma Migrates(s: string) returns (u: Civil)
    requires Parse(s).Some?
    ensures Valid(u) && Instant(u) == Parse(s).value && Normalise(s) == Fixed(u)
  {
    ParsedIsReadable(s);
    u := CivilOf(Parse(s).value);
    InstantOfCivil(Parse(s).value);
  }

  /** Every timestamp the old adapter could write, at any offset, parses to its instant, and the migration
      gives the new layout of the UTC civil time of that instant. */
  lemma SourceRowsMigrate(c: Civil, minutes: int) returns (u: Civil)
    requires Valid(c) && 0 <= c.year < 10_000 && -1440 < minutes < 1440
    ensures Parse(Short(c, minutes)) == Some(Instant(c) - minutes * MINUTE)
    ensures Valid(u) && Instant(u) == Instant(c) - minutes * MINUTE && Normalise(Short(c, minutes)) == Fixed(u)
    ensures minutes == 0 ==> u == c
  {
    SourceParses(c, minutes);
    if minutes == 0 {
      u := c;
      NormalisesTo(Short(c, 0), c);
    } else {
      u := Migrates(Short(c, minutes));
    }
  }

  /** What the layouts look like: dashes, T, colons, a point, and Z or a signed offset. */
  lemma Layouts(c: Civil, tail: string)
    requires Valid(c) && 0 <= c.year < 10_000
    ensures YearText(c.year) + "-" + AfterYear(c, tail) ==
      Pad(c.year, 4) + "-" + (Pad(c.month, 2) + "-" + (Pad(c.day, 2) + "T" + (Pad(c.hour, 2) + ":" + (Pad(c.minute, 2) + ":" + (Pad(c.second, 2) + tail)))))
    ensures FixedTail(c.nanos) == "." + Pad(c.nanos, 9) + "Z"
    ensures ZoneText(0) == "Z" && ZoneText(-180) == "-" + Pad(3, 2) + ":" + Pad(0, 2) && ZoneText(330) == "+" + Pad(5, 2) + ":" + Pad(30, 2)
  {
  }

  /** The source layout is out of order in every second that has a fraction: the whole second sorts after
      each of the fractions that follow it. */
  lemma SourceOrderIsWrong(c: Civil, nanos: nat)
    requires Valid(c) && 0 <= c.year < 10_000 && c.nanos == 0 && 0 < nanos < 1_000_000_000
    ensures var later := c.(nanos := nanos);
      Instant(c) < Instant(later) && Less(Short(later, 0), Short(c, 0))
  {
    Powers();
    var later := c.(nanos := nanos);
    var ta, tb := ShortFraction(nanos) + "Z", "Z";
    assert ta[0] == '.';
    assert ShortFraction(0) + "Z" == tb;
    var p := Pad(c.second, 2);
    LessIrreflexive(p);
    LessConcat(p, p, ta, tb);
    FieldOrder(c.minute, c.minute, 2, ':', p + ta, p + tb);
    var xa, xb := Field(c.minute, 2, ':', p + ta), Field(c.minute, 2, ':', p + tb);
    FieldOrder(c.hour, c.hour, 2, ':', xa, xb);
    var ya, yb := Field(c.hour, 2, ':', xa), Field(c.hour, 2, ':', xb);
    FieldOrder(c.day, c.day, 2, 'T', ya, yb);
    FieldOrder(c.month, c.month, 2, '-', Field(c.day, 2, 'T', ya), Field(c.day, 2, 'T', yb));
    FieldOrder(c.year, c.year, 4, '-', AfterYear(later, ta), AfterYear(c, tb));
    assert Short(later, 0) == Field(c.year, 4, '-', AfterYear(later, ta));
    assert Short(c, 0) == Field(c.year, 4, '-', AfterYear(c, tb));
  }
}
