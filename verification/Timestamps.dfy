/** Timestamps as text. The old adapter wrote RFC 3339 with a fraction of variable width; the migration
    rewrites each to a fixed nine-digit fraction in UTC, so that text order is time order. */
module Timestamps {
  import opened Wrappers
  import opened Numerals
  import opened StringOrder
  import opened Calendar

  // ---- digits ----

  predicate IsDigit(c: char) {
    '0' <= c <= '9'
  }

  predicate AllDigits(s: string) {
    forall i :: 0 <= i < |s| ==> IsDigit(s[i])
  }

  function DigitChar(d: nat): char
    requires d < 10
  {
    ('0' as int + d) as char
  }

  function DigitText(ds: seq<nat>): string
    requires InBase(ds, 10)
  {
    seq(|ds|, i requires 0 <= i < |ds| => DigitChar(ds[i]))
  }

  function DigitValues(s: string): (ds: seq<nat>)
    requires AllDigits(s)
    ensures |ds| == |s| && InBase(ds, 10)
  {
    seq(|s|, i requires 0 <= i < |s| => s[i] as int - '0' as int)
  }

  /** n in decimal, zero-padded to w digits. */
  function Pad(n: nat, w: nat): string {
    DigitsInBase(n, 10, w);
    DigitText(Digits(n, 10, w))
  }

  function Num(s: string): nat
    requires AllDigits(s)
  {
    Value(DigitValues(s), 10)
  }

  lemma PadReadsBack(n: nat, w: nat)
    requires n < Pow(10, w)
    ensures |Pad(n, w)| == w && AllDigits(Pad(n, w)) && Num(Pad(n, w)) == n
  {
    DigitsInBase(n, 10, w);
    ValueOfDigits(n, 10, w);
    assert DigitValues(Pad(n, w)) == Digits(n, 10, w);
  }

  lemma PadSnoc(n: nat, w: nat)
    requires w > 0
    ensures |Pad(n, w)| == w
    ensures Pad(n, w) == Pad(Quot(n, 10), w - 1) + [DigitChar(Rem(n, 10))]
  {
  }

  lemma {:induction false} LessConcat(a: string, b: string, x: string, y: string)
    requires |a| == |b|
    ensures Less(a + x, b + y) <==> Less(a, b) || (a == b && Less(x, y))
    decreases |a|
  {
    if a == "" {
      assert a + x == x && b + y == y;
    } else {
      assert (a + x)[1..] == a[1..] + x && (b + y)[1..] == b[1..] + y;
      LessConcat(a[1..], b[1..], x, y);
      assert a == [a[0]] + a[1..] && b == [b[0]] + b[1..];
    }
  }

  lemma LessOne(c: char, d: char)
    ensures Less([c], [d]) <==> c < d
  {
  }

  lemma QuotRemOrder(x: nat, y: nat)
    ensures x < y <==> Quot(x, 10) < Quot(y, 10) || (Quot(x, 10) == Quot(y, 10) && Rem(x, 10) < Rem(y, 10))
  {
  }

  /** Zero-padded numbers of one width compare as text the way they compare as numbers. */
  lemma {:induction false} PadOrder(x: nat, y: nat, w: nat)
    requires x < Pow(10, w) && y < Pow(10, w)
    ensures Less(Pad(x, w), Pad(y, w)) <==> x < y
    ensures Pad(x, w) == Pad(y, w) <==> x == y
    decreases w
  {
    PadReadsBack(x, w);
    PadReadsBack(y, w);
    if w > 0 {
      var p, q := Quot(x, 10), Quot(y, 10);
      QuotientBound(x, 10, Pow(10, w - 1));
      QuotientBound(y, 10, Pow(10, w - 1));
      PadOrder(p, q, w - 1);
      PadSnoc(x, w);
      PadSnoc(y, w);
      PadReadsBack(p, w - 1);
      PadReadsBack(q, w - 1);
      var c, d := DigitChar(Rem(x, 10)), DigitChar(Rem(y, 10));
      LessConcat(Pad(p, w - 1), Pad(q, w - 1), [c], [d]);
      LessOne(c, d);
      QuotRemOrder(x, y);
    }
  }

  // ---- one field: digits and a separator ----

  function Field(n: nat, w: nat, sep: char, rest: string): string {
    Pad(n, w) + [sep] + rest
  }

  datatype FieldRead = NoField | GotField(n: nat, rest: string)

  function ReadField(s: string, w: nat, sep: char): FieldRead {
    if |s| > w && AllDigits(s[..w]) && s[w] == sep then GotField(Num(s[..w]), s[w + 1..]) else NoField
  }

  lemma FieldReadsBack(n: nat, w: nat, sep: char, rest: string)
    requires n < Pow(10, w)
    ensures ReadField(Field(n, w, sep, rest), w, sep) == GotField(n, rest)
  {
    PadReadsBack(n, w);
    var s := Field(n, w, sep, rest);
    assert s[..w] == Pad(n, w) && s[w] == sep && s[w + 1..] == rest;
  }

  lemma FieldOrder(x: nat, y: nat, w: nat, sep: char, a: string, b: string)
    requires x < Pow(10, w) && y < Pow(10, w)
    ensures Less(Field(x, w, sep, a), Field(y, w, sep, b)) <==> x < y || (x == y && Less(a, b))
  {
    PadReadsBack(x, w);
    PadReadsBack(y, w);
    PadOrder(x, y, w);
    assert Field(x, w, sep, a) == Pad(x, w) + ([sep] + a) && Field(y, w, sep, b) == Pad(y, w) + ([sep] + b);
    LessConcat(Pad(x, w), Pad(y, w), [sep] + a, [sep] + b);
    LessConcat([sep], [sep], a, b);
    LessOne(sep, sep);
  }

  lemma Powers()
    ensures Pow(10, 2) == 100 && Pow(10, 4) == 10_000 && Pow(10, 9) == 1_000_000_000
  {
  }

  // ---- writing ----

  /** A year as it is printed: four digits, or more, or a sign. */
  function YearText(y: int): string {
    if 0 <= y < 10_000 then Pad(y, 4) else if y < 0 then "-" + Pad(-y, 4) else Pad(y, 5)
  }

  /** Everything after the year, up to the seconds; then the tail. */
  function AfterYear(c: Civil, tail: string): string
    requires Valid(c)
  {
    Field(c.month, 2, '-', Field(c.day, 2, 'T', Field(c.hour, 2, ':', Field(c.minute, 2, ':', Pad(c.second, 2) + tail))))
  }

  function FixedTail(nanos: nat): string {
    "." + Pad(nanos, 9) + "Z"
  }

  /** The target layout, for a civil time in UTC. */
  function Fixed(c: Civil): string
    requires Valid(c)
  {
    YearText(c.year) + "-" + AfterYear(c, FixedTail(c.nanos))
  }

  function DropZeros(s: string): string {
    if s != "" && s[|s| - 1] == '0' then DropZeros(s[..|s| - 1]) else s
  }

  /** A fraction without trailing zeros, and no point at all for a whole second. */
  function ShortFraction(nanos: nat): string {
    if nanos == 0 then "" else "." + DropZeros(Pad(nanos, 9))
  }

  function ZoneText(minutes: int): string
    requires -1440 < minutes < 1440
  {
    if minutes == 0 then "Z"
    else if minutes > 0 then "+" + Pad(minutes / 60, 2) + ":" + Pad(minutes % 60, 2)
    else "-" + Pad(-minutes / 60, 2) + ":" + Pad(-minutes % 60, 2)
  }

  /** The source layout, for a local civil time at an offset from UTC. */
  function Short(c: Civil, minutes: int): string
    requires Valid(c) && -1440 < minutes < 1440
  {
    YearText(c.year) + "-" + AfterYear(c, ShortFraction(c.nanos) + ZoneText(minutes))
  }

  // ---- reading ----

  function LeadingDigits(s: string): nat {
    if s != "" && IsDigit(s[0]) then 1 + LeadingDigits(s[1..]) else 0
  }

  /** The first nine digits of a fraction, as nanoseconds. */
  function FractionNanos(ds: string): nat
    requires AllDigits(ds)
  {
    Num((ds + "000000000")[..9])
  }

  function ReadZone(z: string): Option<int> {
    if z == "Z" then Some(0)
    else if |z| != 6 || (z[0] != '+' && z[0] != '-') || z[3] != ':' || !AllDigits(z[1..3]) || !AllDigits(z[4..6]) then None
    else if Num(z[1..3]) > 24 || Num(z[4..6]) > 60 then None
    else
      var m := Num(z[1..3]) * 60 + Num(z[4..6]);
      Some(if z[0] == '+' then m else -m)
  }

  datatype Tail = BadTail | GoodTail(nanos: nat, minutes: int)

  lemma {:induction false} LeadingAreDigits(s: string)
    ensures LeadingDigits(s) <= |s| && AllDigits(s[..LeadingDigits(s)])
  {
    if s != "" && IsDigit(s[0]) {
      LeadingAreDigits(s[1..]);
      assert s[..LeadingDigits(s)] == [s[0]] + s[1..][..LeadingDigits(s[1..])];
    }
  }

  function ReadTail(s: string): Tail {
    var k := if |s| >= 2 && s[0] == '.' then LeadingDigits(s[1..]) else 0;
    if k == 0 then
      var z := ReadZone(s);
      if z.None? then BadTail else GoodTail(0, z.value)
    else
      LeadingAreDigits(s[1..]);
      var z := ReadZone(s[1 + k..]);
      assert s[1..][..k] == s[1..1 + k];
      if z.None? then BadTail else GoodTail(FractionNanos(s[1..1 + k]), z.value)
  }

  datatype Clock = BadClock | GoodClock(month: nat, day: nat, hour: nat, minute: nat, second: nat, tail: string)

  function ReadAfterYear(s: string): Clock {
    var mo := ReadField(s, 2, '-');
    if mo.NoField? then BadClock else
    var d := ReadField(mo.rest, 2, 'T');
    if d.NoField? then BadClock else
    var h := ReadField(d.rest, 2, ':');
    if h.NoField? then BadClock else
    var mi := ReadField(h.rest, 2, ':');
    if mi.NoField? || |mi.rest| < 2 || !AllDigits(mi.rest[..2]) then BadClock
    else GoodClock(mo.n, d.n, h.n, mi.n, Num(mi.rest[..2]), mi.rest[2..])
  }

  const MINUTE: int := 60_000_000_000

  /** The instant a timestamp names, if it is one. */
  function Parse(s: string): Option<int> {
    var y := ReadField(s, 4, '-');
    if y.NoField? then None else
    var k := ReadAfterYear(y.rest);
    if k.BadClock? then None else
    var t := ReadTail(k.tail);
    if t.BadTail? then None else
    var c := Civil(y.n, k.month, k.day, k.hour, k.minute, k.second, t.nanos);
    if !Valid(c) then None else Some(Instant(c) - t.minutes * MINUTE)
  }

  // ---- what is written reads back ----

  lemma AfterYearReadsBack(c: Civil, tail: string)
    requires Valid(c)
    ensures ReadAfterYear(AfterYear(c, tail)) == GoodClock(c.month, c.day, c.hour, c.minute, c.second, tail)
  {
    Powers();
    var s5 := Pad(c.second, 2) + tail;
    var s4 := Field(c.minute, 2, ':', s5);
    var s3 := Field(c.hour, 2, ':', s4);
    var s2 := Field(c.day, 2, 'T', s3);
    FieldReadsBack(c.month, 2, '-', s2);
    FieldReadsBack(c.day, 2, 'T', s3);
    FieldReadsBack(c.hour, 2, ':', s4);
    FieldReadsBack(c.minute, 2, ':', s5);
    PadReadsBack(c.second, 2);
    assert s5[..2] == Pad(c.second, 2) && s5[2..] == tail;
  }

  lemma ParsedFrom(s: string, rest: string, c: Civil, tail: string, minutes: int)
    requires Valid(c) && c.year >= 0 && ReadField(s, 4, '-') == GotField(c.year, rest)
    requires ReadAfterYear(rest) == GoodClock(c.month, c.day, c.hour, c.minute, c.second, tail)
    requires ReadTail(tail) == GoodTail(c.nanos, minutes)
    ensures Parse(s) == Some(Instant(c) - minutes * MINUTE)
  {
  }

  lemma WrittenReadsBack(c: Civil, tail: string, minutes: int)
    requires Valid(c) && 0 <= c.year < 10_000 && ReadTail(tail) == GoodTail(c.nanos, minutes)
    ensures Parse(YearText(c.year) + "-" + AfterYear(c, tail)) == Some(Instant(c) - minutes * MINUTE)
  {
    Powers();
    AfterYearReadsBack(c, tail);
    var rest := AfterYear(c, tail);
    FieldReadsBack(c.year, 4, '-', rest);
    ParsedFrom(Field(c.year, 4, '-', rest), rest, c, tail, minutes);
  }

  lemma {:induction false} LeadingOf(ds: string, z: string)
    requires AllDigits(ds) && (z != "" ==> !IsDigit(z[0]))
    ensures LeadingDigits(ds + z) == |ds|
    decreases |ds|
  {
    if ds == "" {
      assert ds + z == z;
    } else {
      assert (ds + z)[1..] == ds[1..] + z;
      LeadingOf(ds[1..], z);
    }
  }

  lemma TailReadsBack(ds: string, z: string, minutes: int)
    requires AllDigits(ds) && ds != "" && z != "" && !IsDigit(z[0]) && ReadZone(z) == Some(minutes)
    ensures ReadTail("." + ds + z) == GoodTail(FractionNanos(ds), minutes)
  {
    var s := "." + ds + z;
    LeadingOf(ds, z);
    assert s[1..] == ds + z;
    assert s[1..1 + |ds|] == ds && s[1 + |ds|..] == z;
  }

  lemma FixedTailReadsBack(nanos: nat)
    requires nanos < 1_000_000_000
    ensures ReadTail(FixedTail(nanos)) == GoodTail(nanos, 0)
  {
    Powers();
    PadReadsBack(nanos, 9);
    TailReadsBack(Pad(nanos, 9), "Z", 0);
    assert (Pad(nanos, 9) + "000000000")[..9] == Pad(nanos, 9);
  }

  /** The target layout names the instant it was written for. */
  lemma FixedReadsBack(c: Civil)
    requires Valid(c) && 0 <= c.year < 10_000
    ensures Parse(Fixed(c)) == Some(Instant(c))
  {
    FixedTailReadsBack(c.nanos);
    WrittenReadsBack(c, FixedTail(c.nanos), 0);
  }

  /** Outside four digits the year cannot be read back. */
  lemma WideYearDoesNotParse(c: Civil)
    requires Valid(c) && (c.year < 0 || 10_000 <= c.year)
    ensures Parse(Fixed(c)) == None
  {
    var s := Fixed(c);
    if c.year < 0 {
      assert s[0] == '-';
      assert |s| > 4 ==> s[..4][0] == '-';
    } else {
      PadSnoc(c.year, 5);
      DigitsInBase(c.year, 10, 5);
      assert s[4] == Pad(c.year, 5)[4];
    }
  }
}
