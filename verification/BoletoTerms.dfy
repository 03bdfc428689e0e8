/** What a boleto's payer owes on a given day: principal, late fine, pro-rata interest, early discount.
    Dates are whole days; amounts are cents; rates are basis points. */
module BoletoTerms {
  import opened Wrappers
  import opened Numerals

  const MAX_FINE_BPS := 200
  const MAX_INTEREST_BPS := 100
  const BPS := 10000

  datatype Tier = Tier(daysBeforeDue: int, bps: int, fixedCents: int)

  datatype Terms = Terms(
    principal: int,
    due: int,
    validUntil: Option<int>,
    fineBps: int,
    fineFixedCents: int,
    interestBps: int,
    discounts: seq<Tier>)

  /** Division rounding half up, as used on non-negative numerators. */
  function RoundDiv(num: int, den: int): int
    requires den > 0
  {
    (num + den / 2) / den
  }

  lemma RoundDivMonotone(a: int, b: int, den: int)
    requires den > 0 && a <= b
    ensures RoundDiv(a, den) <= RoundDiv(b, den)
  {
    var x, y := a + den / 2, b + den / 2;
    QuotientsOrdered(den, x / den, x % den, y / den, y % den);
  }

  lemma QuotientsOrdered(den: int, q: int, s: int, r: int, t: int)
    requires 0 <= s < den && 0 <= t < den && den * q + s <= den * r + t
    ensures q <= r
  {
    MulMonotone(r + 1, if q > r then q else r + 1, den);
  }

  function TierCents(d: Tier, principal: int): int {
    if d.fixedCents > 0 then d.fixedCents else RoundDiv(principal * d.bps, BPS)
  }

  predicate TierOk(d: Tier, principal: int) {
    && d.daysBeforeDue >= 0
    && (d.bps > 0) != (d.fixedCents > 0)
    && d.bps >= 0 && d.fixedCents >= 0 && d.bps <= BPS
    && 0 < TierCents(d, principal) < principal
  }

  /** Every tier is sound, and more days early always earn strictly more. */
  ghost predicate Schedule(tiers: seq<Tier>, principal: int) {
    && (forall i :: 0 <= i < |tiers| ==> TierOk(tiers[i], principal))
    && (forall i, j :: 0 <= i < j < |tiers| ==>
          tiers[i].daysBeforeDue > tiers[j].daysBeforeDue && TierCents(tiers[i], principal) > TierCents(tiers[j], principal))
  }

  /** The rules an accepted boleto meets. */
  ghost predicate Sound(b: Terms) {
    && b.principal > 0
    && 0 <= b.fineBps <= MAX_FINE_BPS
    && 0 <= b.interestBps <= MAX_INTEREST_BPS
    && (b.fineFixedCents > 0 ==> b.fineBps == 0 && b.fineFixedCents <= RoundDiv(b.principal * MAX_FINE_BPS, BPS))
    && (b.validUntil.Some? ==> b.due <= b.validUntil.value)
    && Schedule(b.discounts, b.principal)
  }

  /** The limits in numbers: a fine of at most two percent in one form only, one percent a month of interest,
      and a validity not before the due date. */
  lemma SoundExactly(b: Terms)
    ensures Sound(b) <==>
      (&& b.principal >= 1 && 0 <= b.fineBps <= 200 && 0 <= b.interestBps <= 100
       && (b.fineFixedCents <= 0 || (b.fineBps == 0 && b.fineFixedCents <= RoundDiv(b.principal * 200, 10_000)))
       && (b.validUntil.None? || b.validUntil.value >= b.due)
       && Schedule(b.discounts, b.principal))
  {
  }

  /** The one pass over the tiers: each is checked against the one before it only, which is enough for the
      whole schedule to be strictly ordered. */
  method WithDiscounts(tiers: seq<Tier>, principal: int) returns (ok: bool)
    ensures ok <==> Schedule(tiers, principal)
  {
    var i := 0;
    while i < |tiers|
      invariant 0 <= i <= |tiers|
      invariant Schedule(tiers[..i], principal)
    {
      var d := tiers[i];
      if d.daysBeforeDue < 0 || (d.bps > 0) == (d.fixedCents > 0) || d.bps < 0 || d.fixedCents < 0 || d.bps > BPS {
        assert !TierOk(tiers[i], principal);
        return false;
      }
      var c := TierCents(d, principal);
      if c <= 0 || c >= principal {
        assert !TierOk(tiers[i], principal);
        return false;
      }
      if i > 0 && (d.daysBeforeDue >= tiers[i - 1].daysBeforeDue || c >= TierCents(tiers[i - 1], principal)) {
        assert !(tiers[i - 1].daysBeforeDue > tiers[i].daysBeforeDue && TierCents(tiers[i - 1], principal) > TierCents(tiers[i], principal));
        return false;
      }
      OneMoreTier(tiers[..i], d, principal);
      assert tiers[..i + 1] == tiers[..i] + [d];
      i := i + 1;
    }
    assert tiers[..|tiers|] == tiers;
    return true;
  }

  lemma OneMoreTier(tiers: seq<Tier>, d: Tier, principal: int)
    requires Schedule(tiers, principal) && TierOk(d, principal)
    requires tiers != [] ==> tiers[|tiers| - 1].daysBeforeDue > d.daysBeforeDue
    requires tiers != [] ==> TierCents(tiers[|tiers| - 1], principal) > TierCents(d, principal)
    ensures Schedule(tiers + [d], principal)
  {
  }

  /** The single validation path of registration and amendment: it builds the terms, with a non-positive
      fixed fine read as none, exactly when they are sound. */
  method Build(t: Terms) returns (r: Option<Terms>)
    ensures r.Some? <==> Sound(t)
    ensures r.Some? ==> r.value == t.(fineFixedCents := if t.fineFixedCents > 0 then t.fineFixedCents else 0)
  {
    if t.principal <= 0 { return None; }
    if t.fineBps < 0 || t.fineBps > MAX_FINE_BPS { return None; }
    if t.interestBps < 0 || t.interestBps > MAX_INTEREST_BPS { return None; }
    var b := t.(fineFixedCents := 0, validUntil := None, discounts := []);
    if t.fineFixedCents > 0 {
      if b.fineBps > 0 || t.fineFixedCents > RoundDiv(b.principal * MAX_FINE_BPS, BPS) { return None; }
      b := b.(fineFixedCents := t.fineFixedCents);
    }
    if t.validUntil.Some? {
      if t.validUntil.value < b.due { return None; }
      b := b.(validUntil := t.validUntil);
    }
    var ok := WithDiscounts(t.discounts, b.principal);
    if !ok { return None; }
    return Some(b.(discounts := t.discounts));
  }

  // ---- what is owed ----

  function DaysLate(b: Terms, day: int): nat {
    if day > b.due then day - b.due else 0
  }

  function DaysEarly(b: Terms, day: int): nat {
    if day < b.due then b.due - day else 0
  }

  function FineCents(b: Terms, day: int): int {
    if DaysLate(b, day) == 0 then 0
    else if b.fineFixedCents > 0 then b.fineFixedCents
    else RoundDiv(b.principal * b.fineBps, BPS)
  }

  function InterestCents(b: Terms, day: int): int {
    if DaysLate(b, day) == 0 then 0
    else RoundDiv(b.principal * b.interestBps * DaysLate(b, day), BPS * 30)
  }

  /** The first tier the payer is early enough for. */
  function FirstTier(tiers: seq<Tier>, early: int, principal: int, i: nat): int
    requires i <= |tiers|
    decreases |tiers| - i
  {
    if i == |tiers| then 0
    else if tiers[i].daysBeforeDue <= early then TierCents(tiers[i], principal)
    else FirstTier(tiers, early, principal, i + 1)
  }

  function DiscountCents(b: Terms, day: int): int {
    if b.discounts == [] || DaysLate(b, day) > 0 then 0
    else FirstTier(b.discounts, DaysEarly(b, day), b.principal, 0)
  }

  function AmountDue(b: Terms, day: int): int {
    b.principal + FineCents(b, day) + InterestCents(b, day) - DiscountCents(b, day)
  }

  /** Rounding is to the nearest, halves up. */
  lemma RoundsToNearest(num: int, den: int)
    requires den > 0 && den % 2 == 0
    ensures den * RoundDiv(num, den) - den / 2 <= num < den * RoundDiv(num, den) + den / 2
  {
    var x := num + den / 2;
    assert x == den * (x / den) + x % den;
  }

  /** What is owed k days late: the principal, the fine once (the fixed one, or its share of the principal)
      and k days' share of a thirty-day month's interest. */
  lemma LateOwes(b: Terms, k: nat)
    requires k > 0
    ensures AmountDue(b, b.due + k) == b.principal
      + (if b.fineFixedCents > 0 then b.fineFixedCents else RoundDiv(b.principal * b.fineBps, 10_000))
      + RoundDiv(b.principal * b.interestBps * k, 300_000)
  {
  }

  /** What is owed k days early or on the day: the principal less the most generous tier reached, if any. */
  lemma EarlyOwes(b: Terms, k: nat)
    requires Sound(b)
    ensures (forall i :: 0 <= i < |b.discounts| ==> b.discounts[i].daysBeforeDue > k) ==> AmountDue(b, b.due - k) == b.principal
    ensures forall i :: 0 <= i < |b.discounts| && b.discounts[i].daysBeforeDue <= k ==>
      AmountDue(b, b.due - k) <= b.principal - TierCents(b.discounts[i], b.principal)
    ensures AmountDue(b, b.due - k) != b.principal ==>
      exists i :: 0 <= i < |b.discounts| && b.discounts[i].daysBeforeDue <= k
        && AmountDue(b, b.due - k) == b.principal - TierCents(b.discounts[i], b.principal)
  {
    FirstTierIsATier(b.discounts, k, b.principal, 0);
    forall i | 0 <= i < |b.discounts| && b.discounts[i].daysBeforeDue <= k
      ensures AmountDue(b, b.due - k) <= b.principal - TierCents(b.discounts[i], b.principal)
    {
      FirstTierIsBest(b.discounts, k, b.principal, 0, i);
    }
  }

  /** The discount is none, or that of a tier reached. */
  lemma {:induction false} FirstTierIsATier(tiers: seq<Tier>, early: int, principal: int, i: nat)
    requires i <= |tiers|
    ensures var c := FirstTier(tiers, early, principal, i);
      || (c == 0 && forall j :: i <= j < |tiers| ==> tiers[j].daysBeforeDue > early)
      || exists j :: i <= j < |tiers| && tiers[j].daysBeforeDue <= early && c == TierCents(tiers[j], principal)
    decreases |tiers| - i
  {
    if i < |tiers| && tiers[i].daysBeforeDue > early {
      FirstTierIsATier(tiers, early, principal, i + 1);
    }
  }

  /** A tier is worth its fixed amount, or else its share of the principal. */
  lemma TierWorth(days: int, bps: int, fixed: int, principal: int)
    ensures fixed > 0 ==> TierCents(Tier(days, bps, fixed), principal) == fixed
    ensures fixed <= 0 ==> TierCents(Tier(days, bps, fixed), principal) == RoundDiv(principal * bps, 10_000)
  {
  }

  lemma {:induction false} FirstTierBounds(tiers: seq<Tier>, early: int, principal: int, i: nat)
    requires Schedule(tiers, principal) && principal > 0 && i <= |tiers|
    ensures 0 <= FirstTier(tiers, early, principal, i) < principal
    ensures i > 0 ==> FirstTier(tiers, early, principal, i) < TierCents(tiers[i - 1], principal)
    decreases |tiers| - i
  {
    if i > 0 { assert TierOk(tiers[i - 1], principal); }
    if i < |tiers| {
      FirstTierBounds(tiers, early, principal, i + 1);
      assert TierOk(tiers[i], principal);
      if i > 0 { assert TierCents(tiers[i - 1], principal) > TierCents(tiers[i], principal); }
    }
  }

  /** The first tier that applies is the most generous one that applies. */
  lemma {:induction false} FirstTierIsBest(tiers: seq<Tier>, early: int, principal: int, i: nat, k: nat)
    requires Schedule(tiers, principal) && principal > 0 && i <= k < |tiers| && tiers[k].daysBeforeDue <= early
    ensures TierCents(tiers[k], principal) <= FirstTier(tiers, early, principal, i)
    decreases |tiers| - i
  {
    if tiers[i].daysBeforeDue <= early {
      if i < k { assert TierCents(tiers[i], principal) > TierCents(tiers[k], principal); }
    } else {
      FirstTierIsBest(tiers, early, principal, i + 1, k);
    }
  }

  lemma {:induction false} EarlierEarnsMore(tiers: seq<Tier>, e1: int, e2: int, principal: int, i: nat)
    requires Schedule(tiers, principal) && principal > 0 && i <= |tiers| && e1 <= e2
    ensures FirstTier(tiers, e1, principal, i) <= FirstTier(tiers, e2, principal, i)
    decreases |tiers| - i
  {
    if i < |tiers| && tiers[i].daysBeforeDue > e1 {
      if tiers[i].daysBeforeDue <= e2 {
        FirstTierBounds(tiers, e1, principal, i + 1);
      } else {
        EarlierEarnsMore(tiers, e1, e2, principal, i + 1);
      }
    }
  }

  lemma LateChargesGrow(b: Terms, d1: int, d2: int)
    requires Sound(b) && d1 <= d2
    ensures 0 <= FineCents(b, d1) <= FineCents(b, d2) && 0 <= InterestCents(b, d1) <= InterestCents(b, d2)
  {
    assert 0 <= b.principal * b.fineBps;
    RoundDivMonotone(0, b.principal * b.fineBps, BPS);
    var rate := b.principal * b.interestBps;
    assert 0 <= rate;
    MulMonotone(0, DaysLate(b, d1), rate);
    MulMonotone(DaysLate(b, d1), DaysLate(b, d2), rate);
    RoundDivMonotone(0, rate * DaysLate(b, d1), BPS * 30);
    RoundDivMonotone(rate * DaysLate(b, d1), rate * DaysLate(b, d2), BPS * 30);
  }

  /** Waiting never pays: for every sound boleto the amount due is positive and never falls from one day to
      a later one, across the discount tiers, the due date and the late charges. */
  lemma WaitingNeverPays(b: Terms, d1: int, d2: int)
    requires Sound(b) && d1 <= d2
    ensures 0 < AmountDue(b, d1) <= AmountDue(b, d2)
  {
    LateChargesGrow(b, d1, d2);
    FirstTierBounds(b.discounts, DaysEarly(b, d1), b.principal, 0);
    FirstTierBounds(b.discounts, DaysEarly(b, d2), b.principal, 0);
    EarlierEarnsMore(b.discounts, DaysEarly(b, d2), DaysEarly(b, d1), b.principal, 0);
  }

  /** The fine never exceeds the legal two percent, whichever way it is expressed. */
  lemma FineWithinTheLaw(b: Terms, day: int)
    requires Sound(b)
    ensures FineCents(b, day) <= RoundDiv(b.principal * 200, 10_000)
  {
    MulMonotone(b.fineBps, 200, b.principal);
    MulMonotone(0, 200, b.principal);
    RoundDivMonotone(b.principal * b.fineBps, b.principal * 200, BPS);
    RoundDivMonotone(0, b.principal * 200, BPS);
  }
}
