/** Fixed-width positional numerals: digits, most significant first, and their value. */
module Numerals {

  lemma MulMonotone(a: int, b: int, c: int)
    requires a <= b && 0 <= c
    ensures c * a <= c * b
  {
  }

  function Pow(b: nat, n: nat): (r: nat)
    ensures b > 0 ==> r > 0
  {
    if n == 0 then 1 else Times(Pow(b, n - 1), b)
  }

  function Times(m: nat, n: nat): nat {
    m * n
  }

  lemma TimesAssociative(a: nat, b: nat, c: nat)
    ensures Times(Times(a, b), c) == Times(a, Times(b, c))
  {
  }

  lemma PowAdds(b: nat, m: nat, n: nat)
    ensures Pow(b, m + n) == Times(Pow(b, m), Pow(b, n))
  {
    if n > 0 {
      PowAdds(b, m, n - 1);
      TimesAssociative(Pow(b, m), Pow(b, n - 1), b);
      assert Pow(b, m + n) == Times(Pow(b, m + (n - 1)), b);
    }
  }

  function Quot(n: nat, b: nat): (q: nat)
    requires b > 0
    ensures n == Times(q, b) + Rem(n, b)
  {
    n / b
  }

  function Rem(n: nat, b: nat): (r: nat)
    requires b > 0
    ensures r < b
  {
    n % b
  }

  function Value(ds: seq<nat>, b: nat): nat {
    if ds == [] then 0 else Times(Value(ds[..|ds| - 1], b), b) + ds[|ds| - 1]
  }

  function Digits(n: nat, b: nat, width: nat): (ds: seq<nat>)
    requires b > 0
    ensures |ds| == width
    decreases width
  {
    if width == 0 then [] else Digits(Quot(n, b), b, width - 1) + [Rem(n, b)]
  }

  /** Most significant first. */
  lemma MostSignificantFirst(a: nat, b: nat, c: nat)
    ensures Value([a, b, c], 10) == 100 * a + 10 * b + c
  {
    assert [a, b, c][..2] == [a, b] && [a, b][..1] == [a] && [a][..0] == [];
    assert Value([a], 10) == a && Value([a, b], 10) == 10 * a + b;
  }

  predicate InBase(ds: seq<nat>, b: nat) {
    forall i :: 0 <= i < |ds| ==> ds[i] < b
  }

  lemma {:induction false} DigitsInBase(n: nat, b: nat, width: nat)
    requires b > 0
    ensures InBase(Digits(n, b, width), b)
    decreases width
  {
    if width > 0 { DigitsInBase(Quot(n, b), b, width - 1); }
  }

  lemma TimesMonotone(m: nat, n: nat, b: nat)
    requires m <= n
    ensures Times(m, b) <= Times(n, b)
    ensures Times(m + 1, b) == Times(m, b) + b
  {
  }

  /** A quotient and remainder determine each other. */
  lemma DivModUnique(q: nat, r: nat, q': nat, r': nat, b: nat)
    requires r < b && r' < b && Times(q, b) + r == Times(q', b) + r'
    ensures q == q' && r == r'
  {
    TimesMonotone(q + 1, if q' > q then q' else q + 1, b);
    TimesMonotone(q' + 1, if q > q' then q else q' + 1, b);
    TimesMonotone(q, q, b);
    TimesMonotone(q', q', b);
  }

  lemma QuotientBound(n: nat, b: nat, p: nat)
    requires b > 0 && n < Times(p, b)
    ensures Quot(n, b) < p
  {
  }

  /** Reading back the digits of a number that fits gives the number. */
  lemma {:induction false} ValueOfDigits(n: nat, b: nat, width: nat)
    requires b > 0 && n < Pow(b, width)
    ensures Value(Digits(n, b, width), b) == n
    decreases width
  {
    if width > 0 {
      var front := Digits(Quot(n, b), b, width - 1);
      QuotientBound(n, b, Pow(b, width - 1));
      ValueOfDigits(Quot(n, b), b, width - 1);
      assert (front + [Rem(n, b)])[..width - 1] == front;
    }
  }

  /** Writing out the value of a numeral gives the numeral, and the value fits its width. */
  lemma {:induction false} DigitsOfValue(ds: seq<nat>, b: nat)
    requires b > 0 && InBase(ds, b)
    ensures Digits(Value(ds, b), b, |ds|) == ds
    ensures Value(ds, b) < Pow(b, |ds|)
  {
    if ds != [] {
      var front, last := ds[..|ds| - 1], ds[|ds| - 1];
      DigitsOfValue(front, b);
      var n := Value(ds, b);
      DivModUnique(Value(front, b), last, Quot(n, b), Rem(n, b), b);
      assert front + [last] == ds;
      TimesMonotone(Value(front, b), Value(front, b), b);
      TimesMonotone(Value(front, b) + 1, Pow(b, |front|), b);
    }
  }
}
