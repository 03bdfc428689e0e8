/** Amending a registered boleto: a partial request is merged onto what the bank holds, the merged boleto is
    validated whole, and a patch is sent to a bank that replaces the fee block wholesale. The second half
    follows the patch onto the C6 wire, where expiry is a day count and an empty fee block cannot be said. */
module BoletoAmendment {
  import opened Wrappers
  import opened Text
  import opened BoletoTerms

  const MAX_TIERS := 12
  const DEFAULT_CURRENCY := "BRL"

  /** An absent field means leave alone, never set to zero. */
  datatype Amendment = Amendment(
    amountCents: Option<int>,
    currency: string,
    due: Option<int>,
    validUntil: Option<int>,
    fineBps: Option<int>,
    fineFixedCents: Option<int>,
    interestBps: Option<int>,
    discounts: Option<seq<Tier>>)

  predicate TouchesFees(a: Amendment) {
    a.fineBps.Some? || a.fineFixedCents.Some? || a.interestBps.Some? || a.discounts.Some?
  }

  predicate CurrencyOk(c: string) {
    |c| == 3 && forall i :: 0 <= i < 3 ==> 'A' <= c[i] <= 'Z'
  }

  function Or<T>(o: Option<T>, d: T): T {
    if o.Some? then o.value else d
  }

  /** The registered state with the amendment laid over it, or nothing when the request is invalid. */
  function Merge(current: Terms, a: Amendment): Option<Terms> {
    var currency := Trim(a.currency);
    if a.amountCents.Some? && currency == "" then None
    else if Or(a.amountCents, current.principal) <= 0 then None
    else if !CurrencyOk(if currency == "" then DEFAULT_CURRENCY else currency) then None
    else if a.discounts.Some? && |a.discounts.value| > MAX_TIERS then None
    else Some(Terms(
      Or(a.amountCents, current.principal),
      Or(a.due, current.due),
      if a.validUntil.Some? then a.validUntil else current.validUntil,
      Or(a.fineBps, current.fineBps),
      Or(a.fineFixedCents, current.fineFixedCents),
      Or(a.interestBps, current.interestBps),
      Or(a.discounts, current.discounts)))
  }

  predicate UpperLetters(c: string) {
    |c| == 3 && 'A' <= c[0] <= 'Z' && 'A' <= c[1] <= 'Z' && 'A' <= c[2] <= 'Z'
  }

  /** A request is refused before validation exactly when it amends the amount without a currency, names a
      currency that is not three capital letters, leaves an amount that is not positive, or lists more than
      twelve discount tiers. */
  lemma MergeRefusesExactly(current: Terms, a: Amendment)
    ensures Merge(current, a).None? <==>
      (|| (a.amountCents.Some? && Trim(a.currency) == "")
       || (Trim(a.currency) != "" && !UpperLetters(Trim(a.currency)))
       || (if a.amountCents.Some? then a.amountCents.value <= 0 else current.principal <= 0)
       || (a.discounts.Some? && |a.discounts.value| > 12))
  {
    assert CurrencyOk(DEFAULT_CURRENCY);
  }

  /** Each field of the merged boleto is the one asked for, or else the registered one. */
  lemma MergeIsFieldwise(current: Terms, a: Amendment)
    requires Merge(current, a).Some?
    ensures var m := Merge(current, a).value;
      && (match a.amountCents case Some(x) => m.principal == x case None => m.principal == current.principal)
      && (match a.due case Some(x) => m.due == x case None => m.due == current.due)
      && (match a.validUntil case Some(x) => m.validUntil == Some(x) case None => m.validUntil == current.validUntil)
      && (match a.fineBps case Some(x) => m.fineBps == x case None => m.fineBps == current.fineBps)
      && (match a.fineFixedCents case Some(x) => m.fineFixedCents == x case None => m.fineFixedCents == current.fineFixedCents)
      && (match a.interestBps case Some(x) => m.interestBps == x case None => m.interestBps == current.interestBps)
      && (match a.discounts case Some(x) => m.discounts == x case None => m.discounts == current.discounts)
  {
  }

  datatype Fees = Fees(fineBps: int, fineFixedCents: int, interestBps: int, discounts: seq<Tier>)

  datatype Patch = Patch(amountCents: Option<int>, due: Option<int>, validUntil: Option<int>, fees: Option<Fees>)

  /** Touching any fee restates all of them, from the merged view. */
  function ToPatch(a: Amendment, m: Terms): Patch {
    Patch(a.amountCents, a.due, a.validUntil,
          if TouchesFees(a) then Some(Fees(m.fineBps, m.fineFixedCents, m.interestBps, m.discounts)) else None)
  }

  /** A bank that leaves absent fields alone and replaces the fee block as one. */
  function ApplyPatch(current: Terms, p: Patch): Terms {
    var c := current.(
      principal := Or(p.amountCents, current.principal),
      due := Or(p.due, current.due),
      validUntil := if p.validUntil.Some? then p.validUntil else current.validUntil);
    if p.fees.None? then c
    else c.(fineBps := p.fees.value.fineBps, fineFixedCents := p.fees.value.fineFixedCents,
            interestBps := p.fees.value.interestBps, discounts := p.fees.value.discounts)
  }

  /** The amendment call: the patch goes out only when the merged boleto is sound. */
  method UpdateBoleto(current: Terms, a: Amendment) returns (r: Option<Patch>)
    ensures r.Some? <==> Merge(current, a).Some? && Sound(Merge(current, a).value)
    ensures r.Some? ==> ApplyPatch(current, r.value) == Merge(current, a).value
    ensures r.Some? ==> (r.value.fees.Some? <==> TouchesFees(a))
    ensures r.Some? ==> r.value.amountCents == a.amountCents && r.value.due == a.due && r.value.validUntil == a.validUntil
  {
    var merged := Merge(current, a);
    if merged.None? { return None; }
    var built := Build(merged.value);
    if built.None? { return None; }
    return Some(ToPatch(a, merged.value));
  }

  // ---- runs of amendments ----

  /** The bank after an amendment attempt, through the patch. */
  ghost function Amend(current: Terms, a: Amendment): Terms {
    var m := Merge(current, a);
    if m.Some? && Sound(m.value) then ApplyPatch(current, ToPatch(a, m.value)) else current
  }

  ghost function AmendAll(current: Terms, asked: seq<Amendment>): Terms {
    if asked == [] then current else Amend(AmendAll(current, asked[..|asked| - 1]), asked[|asked| - 1])
  }

  /** The field-by-field meaning of a run, with no patch in it: each accepted amendment overwrites just the
      fields it names. */
  ghost function Overlay(current: Terms, asked: seq<Amendment>): Terms {
    if asked == [] then current
    else
      var before := Overlay(current, asked[..|asked| - 1]);
      var m := Merge(before, asked[|asked| - 1]);
      if m.Some? && Sound(m.value) then m.value else before
  }

  /** No run of partial amendments ever loses a rate or a discount tier: the bank holds exactly the overlay
      of what was asked and validated, and stays sound. */
  lemma {:induction false} AmendmentsLoseNothing(current: Terms, asked: seq<Amendment>)
    requires Sound(current)
    ensures AmendAll(current, asked) == Overlay(current, asked) && Sound(AmendAll(current, asked))
  {
    if asked != [] {
      AmendmentsLoseNothing(current, asked[..|asked| - 1]);
    }
  }

  /** What would happen if only the fees the caller named were sent. */
  function NaivePatch(a: Amendment): Patch {
    Patch(a.amountCents, a.due, a.validUntil,
          if TouchesFees(a) then Some(Fees(Or(a.fineBps, 0), Or(a.fineFixedCents, 0), Or(a.interestBps, 0), Or(a.discounts, [])))
          else None)
  }

  /** Restating is needed: sending only the named fees keeps the merged boleto exactly when every fee left
      unnamed was absent to begin with. */
  lemma NaivePatchLosesFees(current: Terms, a: Amendment)
    requires Merge(current, a).Some?
    ensures ApplyPatch(current, NaivePatch(a)) == Merge(current, a).value <==>
      (TouchesFees(a) ==>
         && (a.fineBps.None? ==> current.fineBps == 0)
         && (a.fineFixedCents.None? ==> current.fineFixedCents == 0)
         && (a.interestBps.None? ==> current.interestBps == 0)
         && (a.discounts.None? ==> current.discounts == []))
  {
  }

  // ---- the C6 wire ----

  const MAX_AMOUNT_CENTS := 500_000_000

  datatype WireFine = WireFine(fixed: bool, value: int)

  datatype WireDiscount = WireDiscount(fixed: bool, value: int, deadline: int)

  datatype WireFees = WireFees(fine: Option<WireFine>, interest: Option<int>, discount: Option<WireDiscount>)

  /** A slip as the bank stores it: expiry is a count of days after the due date, zero meaning none. */
  datatype Slip = Slip(amountCents: int, due: int, daysAfterDue: nat, fees: WireFees)

  datatype WireBody = WireBody(amountCents: Option<int>, due: Option<int>, daysAfterDue: Option<nat>, fees: Option<WireFees>)

  function ToWireFees(f: Fees): (r: WireFees) {
    WireFees(
      if f.fineBps > 0 then Some(WireFine(false, f.fineBps))
      else if f.fineFixedCents > 0 then Some(WireFine(true, f.fineFixedCents)) else None,
      if f.interestBps > 0 then Some(f.interestBps) else None,
      if |f.discounts| != 1 then None
      else if f.discounts[0].bps > 0 then Some(WireDiscount(false, f.discounts[0].bps, f.discounts[0].daysBeforeDue))
      else if f.discounts[0].fixedCents > 0 then Some(WireDiscount(true, f.discounts[0].fixedCents, f.discounts[0].daysBeforeDue))
      else None)
  }

  /** How each fee is said on the wire: the percentage fine before the fixed one, the interest, and a single
      tier as a percentage or a fixed value with its deadline. */
  lemma WireSays(f: Fees)
    ensures var w := ToWireFees(f);
      && (f.fineBps > 0 ==> w.fine == Some(WireFine(false, f.fineBps)))
      && (f.fineBps <= 0 && f.fineFixedCents > 0 ==> w.fine == Some(WireFine(true, f.fineFixedCents)))
      && (f.fineBps <= 0 && f.fineFixedCents <= 0 ==> w.fine == None)
      && w.interest == (if f.interestBps > 0 then Some(f.interestBps) else None)
    ensures forall days, x :: x > 0 ==>
      && ToWireFees(f.(discounts := [Tier(days, x, 0)])).discount == Some(WireDiscount(false, x, days))
      && ToWireFees(f.(discounts := [Tier(days, 0, x)])).discount == Some(WireDiscount(true, x, days))
    ensures ToWireFees(f.(discounts := [])).discount == None
  {
  }

  const NO_FEES := WireFees(None, None, None)

  /** The patch body, or nothing when the adapter refuses: an amount over the bank's limit, a validity
      without its due date, more than one discount tier, or nothing to change. */
  function ToBody(p: Patch): Option<WireBody> {
    if p.amountCents.Some? && p.amountCents.value > MAX_AMOUNT_CENTS then None
    else if p.validUntil.Some? && p.due.None? then None
    else if p.fees.Some? && |p.fees.value.discounts| > 1 then None
    else
      var days := if p.validUntil.Some? && p.validUntil.value > p.due.value then Some(p.validUntil.value - p.due.value) else None;
      var fees := if p.fees.Some? && ToWireFees(p.fees.value) != NO_FEES then Some(ToWireFees(p.fees.value)) else None;
      var body := WireBody(p.amountCents, p.due, days, fees);
      if body == WireBody(None, None, None, None) then None else Some(body)
  }

  /** The adapter refuses exactly: an amount over five million reais, a validity without its due date, more than
      one tier, or a patch that says nothing (a fee block without a fee, or a validity not after the due date,
      says nothing). */
  lemma WireRefusesExactly(p: Patch)
    ensures ToBody(p).None? <==>
      (|| (p.amountCents.Some? && p.amountCents.value > 500_000_000)
       || (p.validUntil.Some? && p.due.None?)
       || (p.fees.Some? && |p.fees.value.discounts| > 1)
       || (p.amountCents.None? && p.due.None? && (p.fees.None? || ToWireFees(p.fees.value) == WireFees(None, None, None))))
    ensures ToBody(p).Some? ==> var b := ToBody(p).value;
      && b.amountCents == p.amountCents && b.due == p.due
      && (b.daysAfterDue.Some? <==> p.validUntil.Some? && p.due.value < p.validUntil.value)
      && (b.daysAfterDue.Some? ==> b.daysAfterDue.value == p.validUntil.value - p.due.value)
  {
  }

  function PatchSlip(s: Slip, b: WireBody): Slip {
    Slip(Or(b.amountCents, s.amountCents), Or(b.due, s.due), Or(b.daysAfterDue, s.daysAfterDue), Or(b.fees, s.fees))
  }

  function ReadSlip(s: Slip): Terms {
    Terms(
      s.amountCents,
      s.due,
      if s.daysAfterDue > 0 then Some(s.due + s.daysAfterDue) else None,
      if s.fees.fine.Some? && !s.fees.fine.value.fixed then s.fees.fine.value.value else 0,
      if s.fees.fine.Some? && s.fees.fine.value.fixed then s.fees.fine.value.value else 0,
      Or(s.fees.interest, 0),
      if s.fees.discount.None? then []
      else
        var d := s.fees.discount.value;
        [Tier(d.deadline, if d.fixed then 0 else d.value, if d.fixed then d.value else 0)])
  }

  /** What the bank can hold: a fee that is present is positive. */
  predicate WellFormed(s: Slip) {
    && (s.fees.fine.Some? ==> s.fees.fine.value.value > 0)
    && (s.fees.interest.Some? ==> s.fees.interest.value > 0)
    && (s.fees.discount.Some? ==> s.fees.discount.value.value > 0)
  }

  predicate HasFees(t: Terms) {
    t.fineBps > 0 || t.fineFixedCents > 0 || t.interestBps > 0 || t.discounts != []
  }

  /** The amendments whose validated result is what the bank ends up holding. Three kinds are not: moving
      the due date of a slip with an expiry (the day count moves with it), a validity equal to the due date
      (no count can say it), and clearing the last fee (an empty block is not sent). A negative fixed fine
      passes validation and is dropped on the wire. */
  predicate SurvivesTheWire(current: Terms, a: Amendment, m: Terms) {
    && (a.validUntil.None? && a.due.Some? && current.validUntil.Some? ==> a.due.value == current.due)
    && (a.validUntil.Some? ==> m.due < a.validUntil.value)
    && (TouchesFees(a) && !HasFees(m) ==> !HasFees(current))
    && m.fineFixedCents >= 0
  }

  /** Validity alone, on the wire. */
  lemma ExpirySurvives(s: Slip, a: Amendment, m: Terms, b: WireBody)
    requires Merge(ReadSlip(s), a) == Some(m) && Sound(m) && ToBody(ToPatch(a, m)) == Some(b)
    ensures ReadSlip(PatchSlip(s, b)).validUntil == m.validUntil <==>
      (&& (a.validUntil.None? && a.due.Some? && ReadSlip(s).validUntil.Some? ==> a.due.value == s.due)
       && (a.validUntil.Some? ==> m.due < a.validUntil.value))
  {
  }

  lemma FeesSurvive(s: Slip, a: Amendment, m: Terms, b: WireBody)
    requires WellFormed(s) && Merge(ReadSlip(s), a) == Some(m) && Sound(m) && ToBody(ToPatch(a, m)) == Some(b)
    ensures var r := ReadSlip(PatchSlip(s, b));
      (r.fineBps == m.fineBps && r.fineFixedCents == m.fineFixedCents && r.interestBps == m.interestBps && r.discounts == m.discounts)
      <==> ((TouchesFees(a) && !HasFees(m) ==> !HasFees(ReadSlip(s))) && m.fineFixedCents >= 0)
  {
  }

  /** On the wire the validated boleto is what the bank holds exactly for the surviving amendments. */
  lemma WireHoldsWhatWasValidated(s: Slip, a: Amendment, m: Terms, b: WireBody)
    requires WellFormed(s) && Merge(ReadSlip(s), a) == Some(m) && Sound(m) && ToBody(ToPatch(a, m)) == Some(b)
    ensures ReadSlip(PatchSlip(s, b)) == m <==> SurvivesTheWire(ReadSlip(s), a, m)
  {
    ExpirySurvives(s, a, m, b);
    FeesSurvive(s, a, m, b);
  }

  const UNTOUCHED := Amendment(None, "", None, None, None, None, None, None)

  /** Moving only the due date by ten days: the merged view keeps the expiry on day 130, the bank moves it
      to day 140. */
  lemma DueDateDragsTheExpiry()
    ensures var s := Slip(1000, 100, 30, NO_FEES); var a := UNTOUCHED.(due := Some(110));
      && Merge(ReadSlip(s), a).Some? && Sound(Merge(ReadSlip(s), a).value) && Merge(ReadSlip(s), a).value.validUntil == Some(130)
      && var b := ToBody(ToPatch(a, Merge(ReadSlip(s), a).value));
         b.Some? && ReadSlip(PatchSlip(s, b.value)).validUntil == Some(140)
  {
  }

  /** Dropping the only fee together with another change: the merged view has no fine, the bank keeps it. */
  lemma LastFeeCannotBeCleared()
    ensures var s := Slip(1000, 100, 0, NO_FEES.(fine := Some(WireFine(false, 200))));
      var a := UNTOUCHED.(fineBps := Some(0), due := Some(101));
      && Merge(ReadSlip(s), a).Some? && Sound(Merge(ReadSlip(s), a).value) && Merge(ReadSlip(s), a).value.fineBps == 0
      && var b := ToBody(ToPatch(a, Merge(ReadSlip(s), a).value));
         b.Some? && ReadSlip(PatchSlip(s, b.value)).fineBps == 200
  {
  }
}
