/** Freezing metered consumption into append-only invoices: one per tenant and period, and the account batch
    that bills every tenant with consumption. */
module Invoicing {
  import opened Wrappers
  import opened StringOrder
  import opened Consumption

  datatype Invoice = Invoice(tenant: Name, period: Range, lines: seq<Line>, total: Usage)

  /** What a call of the batch meets: nothing, a fault before the k-th invoice is saved, or one after it. */
  datatype Fault = NoFault | BeforeSave(k: nat) | AfterSave(k: nat)

  predicate Bounded(rng: Range) {
    rng.start.Some? && rng.end.Some? && rng.start.value < rng.end.value
  }

  /** A tenant's own ledger. */
  function Own(ledger: seq<Entry>, t: Name): seq<Entry> {
    if ledger == [] then []
    else
      var e := ledger[|ledger| - 1];
      Own(ledger[..|ledger| - 1], t) + if e.tenant == t then [e] else []
  }

  lemma {:induction false} OwnTally(ledger: seq<Entry>, t: Name, rng: Range, m: Measure)
    ensures Tally(Own(ledger, t), Query(rng, None, None), m) == Tally(ledger, Query(rng, Some(t), None), m)
  {
    if ledger != [] {
      var init, e := ledger[..|ledger| - 1], ledger[|ledger| - 1];
      OwnTally(init, t, rng, m);
      TallySnoc(Own(init, t), e, Query(rng, None, None), m);
      assert Own(init, t) + [] == Own(init, t);
    }
  }

  /** The sum over the lines, as an invoice computes its own totals. */
  method SumUp(lines: seq<Line>) returns (total: Usage)
    ensures total == Usage(SumLines(lines, Calls), SumLines(lines, Cents))
  {
    total := NOTHING;
    for i := 0 to |lines|
      invariant total == Usage(SumLines(lines[..i], Calls), SumLines(lines[..i], Cents))
    {
      assert lines[..i + 1][..i] == lines[..i];
      total := Usage(total.calls + lines[i].usage.calls, total.cents + lines[i].usage.cents);
    }
    assert lines[..|lines|] == lines;
  }

  /** An invoice that bills exactly what the tenant's ledger records for its period. */
  ghost predicate Bills(inv: Invoice, ledger: seq<Entry>, t: Name, rng: Range) {
    && inv.tenant == t && inv.period == rng
    && inv.total == UsageOf(ledger, Query(rng, Some(t), None))
    && IsListing(inv.lines, ByEndpoint, Own(ledger, t), Query(rng, None, None))
  }

  /** The tenants with consumption, in order. */
  ghost function Buyers(tenants: seq<Name>, ledger: seq<Entry>, rng: Range): seq<Name> {
    if tenants == [] then []
    else
      var t := tenants[|tenants| - 1];
      Buyers(tenants[..|tenants| - 1], ledger, rng) + if Tally(ledger, Query(rng, Some(t), None), Calls) == 0 then [] else [t]
  }

  /** One invoice for each of these tenants. */
  ghost predicate BillsEach(invs: seq<Invoice>, names: seq<Name>, ledger: seq<Entry>, rng: Range) {
    |invs| == |names| && forall i :: 0 <= i < |invs| ==> Bills(invs[i], ledger, names[i], rng)
  }

  /** The batch over some tenants: in order, one invoice for each that has consumption. */
  ghost predicate IsBatch(invs: seq<Invoice>, tenants: seq<Name>, ledger: seq<Entry>, rng: Range) {
    BillsEach(invs, Buyers(tenants, ledger, rng), ledger, rng)
  }

  lemma BuyersSnoc(tenants: seq<Name>, i: nat, ledger: seq<Entry>, rng: Range)
    requires i < |tenants|
    ensures Buyers(tenants[..i + 1], ledger, rng) ==
      Buyers(tenants[..i], ledger, rng) + if Tally(ledger, Query(rng, Some(tenants[i]), None), Calls) == 0 then [] else [tenants[i]]
  {
    assert tenants[..i + 1][..i] == tenants[..i];
  }

  /** An invoice needs both bounds, in order. */
  lemma BoundedExactly(a: int, b: int)
    ensures Bounded(Range(Some(a), Some(b))) <==> a < b
    ensures !Bounded(Range(None, Some(b))) && !Bounded(Range(Some(a), None)) && !Bounded(Range(None, None))
  {
  }

  class InvoiceStore {
    var invoices: seq<Invoice>

    constructor ()
      ensures invoices == []
    {
      invoices := [];
    }

    /** The stored invoice stays even when the audit entry after it fails. */
    method GenerateInvoice(ledger: seq<Entry>, t: Name, rng: Range, saveFault: bool, auditFault: bool) returns (r: Option<Invoice>)
      modifies this
      ensures !Bounded(rng) || saveFault ==> r.None? && invoices == old(invoices)
      ensures Bounded(rng) && !saveFault ==>
        && |invoices| == |old(invoices)| + 1 && old(invoices) <= invoices && Bills(invoices[|old(invoices)|], ledger, t, rng)
        && r == if auditFault then None else Some(invoices[|old(invoices)|])
    {
      if rng.start.None? || rng.end.None? { return None; }
      if rng.start.value >= rng.end.value { return None; }
      var rep := ConsumptionInRange(Own(ledger, t), rng);
      ghost var q := Query(rng, None, None);
      ReportBalances(rep, Own(ledger, t), q, Calls);
      ReportBalances(rep, Own(ledger, t), q, Cents);
      OwnTally(ledger, t, rng, Calls);
      OwnTally(ledger, t, rng, Cents);
      var total := SumUp(rep.lines);
      var inv := Invoice(t, rng, rep.lines, total);
      if saveFault { return None; }
      invoices := invoices + [inv];
      if auditFault { return None; }
      return Some(inv);
    }

    /** One tenant of the batch: an invoice when there is consumption. It reports whether the batch may go
        on, and the tenants it invoiced. */
    method BillTenant(ledger: seq<Entry>, t: Name, rng: Range, saveFault: bool, auditFault: bool)
      returns (ok: bool, added: seq<Invoice>, ghost reached: bool)
      requires Bounded(rng)
      modifies this
      ensures invoices == old(invoices) + added
      ensures reached ==> BillsEach(added, if Tally(ledger, Query(rng, Some(t), None), Calls) == 0 then [] else [t], ledger, rng)
      ensures !reached ==> added == [] && saveFault && !ok
      ensures !ok ==> saveFault || auditFault
    {
      var rep := ConsumptionInRange(Own(ledger, t), rng);
      OwnTally(ledger, t, rng, Calls);
      if rep.total.calls == 0 { return true, [], true; }
      var inv := GenerateInvoice(ledger, t, rng, saveFault, auditFault);
      if saveFault { return false, [], false; }
      return inv.Some?, [invoices[|invoices| - 1]], true;
    }

    /** The tenants in turn, until one fails. */
    method BillTenants(ledger: seq<Entry>, tenants: seq<Name>, rng: Range, fault: Fault)
      returns (ok: bool, made: seq<Invoice>, ghost done: nat)
      requires Bounded(rng)
      modifies this
      ensures invoices == old(invoices) + made && done <= |tenants|
      ensures IsBatch(made, tenants[..done], ledger, rng)
      ensures ok ==> done == |tenants|
      ensures fault.NoFault? ==> ok
    {
      made, ok, done := [], true, 0;
      ghost var names: seq<Name> := [];
      var i := 0;
      while ok && i < |tenants|
        invariant 0 <= i <= |tenants| && done <= |tenants| && (ok ==> done == i)
        invariant fault.NoFault? ==> ok
        invariant invoices == old(invoices) + made
        invariant names == Buyers(tenants[..done], ledger, rng) && BillsEach(made, names, ledger, rng)
      {
        var added;
        ghost var reached;
        ok, added, reached := BillTenant(ledger, tenants[i], rng, fault == BeforeSave(i), fault == AfterSave(i));
        BuyersSnoc(tenants, i, ledger, rng);
        if reached {
          done := i + 1;
          names := Buyers(tenants[..i + 1], ledger, rng);
        }
        made := made + added;
        i := i + 1;
      }
    }

    /** The account batch. On success the new invoices are the whole batch; a fault leaves the invoices of
        the tenants before it, and of the k-th itself when the fault comes after its save. */
    method GenerateAccountInvoices(ledger: seq<Entry>, tenants: seq<Name>, rng: Range, fault: Fault)
      returns (out: Option<seq<Invoice>>, ghost made: seq<Invoice>, ghost done: nat)
      modifies this
      ensures invoices == old(invoices) + made && done <= |tenants|
      ensures !Bounded(rng) ==> out.None? && made == []
      ensures Bounded(rng) ==> IsBatch(made, tenants[..done], ledger, rng)
      ensures out.Some? ==> out.value == made && IsBatch(made, tenants, ledger, rng)
      ensures fault.NoFault? && Bounded(rng) ==> out.Some?
    {
      if rng.start.None? || rng.end.None? { return None, [], 0; }
      if rng.start.value >= rng.end.value { return None, [], 0; }
      var ok, invs, n := BillTenants(ledger, tenants, rng, fault);
      assert tenants[..|tenants|] == tenants;
      return if ok then Some(invs) else None, invs, n;
    }
  }

  // ---- a batch bills the ledger ----

  function Billed(invs: seq<Invoice>, m: Measure): nat {
    if invs == [] then 0 else Billed(invs[..|invs| - 1], m) + Part(invs[|invs| - 1].total, m)
  }

  lemma {:induction false} NoCallsNoCents(es: seq<Entry>, q: Query, m: Measure)
    requires Tally(es, q, Calls) == 0
    ensures Tally(es, q, m) == 0
  {
    if es != [] { NoCallsNoCents(es[..|es| - 1], q, m); }
  }

  lemma {:induction false} EachBilled(invs: seq<Invoice>, names: seq<Name>, ledger: seq<Entry>, rng: Range, m: Measure)
    requires BillsEach(invs, names, ledger, rng)
    ensures Billed(invs, m) == SumOver(SplitOf(ByTenant, ledger, Query(rng, None, None), m), names)
    decreases |names|
  {
    if names != [] {
      EachBilled(invs[..|invs| - 1], names[..|names| - 1], ledger, rng, m);
    }
  }

  lemma {:induction false} OnlyBuyersCount(tenants: seq<Name>, ledger: seq<Entry>, rng: Range, m: Measure)
    ensures var f := SplitOf(ByTenant, ledger, Query(rng, None, None), m);
      SumOver(f, Buyers(tenants, ledger, rng)) == SumOver(f, tenants)
    decreases |tenants|
  {
    if tenants != [] {
      var init, t := tenants[..|tenants| - 1], tenants[|tenants| - 1];
      OnlyBuyersCount(init, ledger, rng, m);
      var buyers := Buyers(init, ledger, rng);
      if Tally(ledger, Query(rng, Some(t), None), Calls) == 0 {
        NoCallsNoCents(ledger, Query(rng, Some(t), None), m);
        assert buyers + [] == buyers;
      } else {
        assert (buyers + [t])[..|buyers|] == buyers;
      }
    }
  }

  lemma BatchBillsItsTenants(invs: seq<Invoice>, tenants: seq<Name>, ledger: seq<Entry>, rng: Range, m: Measure)
    requires IsBatch(invs, tenants, ledger, rng)
    ensures Billed(invs, m) == SumOver(SplitOf(ByTenant, ledger, Query(rng, None, None), m), tenants)
  {
    EachBilled(invs, Buyers(tenants, ledger, rng), ledger, rng, m);
    OnlyBuyersCount(tenants, ledger, rng, m);
  }

  /** The account's tenants, each listed once, own every entry of its ledger. */
  ghost predicate Covers(tenants: seq<Name>, ledger: seq<Entry>) {
    Distinct(tenants) && forall e :: e in ledger ==> e.tenant in tenants
  }

  /** A batch bills exactly what the whole account's ledger records for the period. */
  lemma BatchBillsTheWindow(invs: seq<Invoice>, tenants: seq<Name>, ledger: seq<Entry>, rng: Range, m: Measure)
    requires IsBatch(invs, tenants, ledger, rng) && Covers(tenants, ledger)
    ensures Billed(invs, m) == Tally(ledger, Query(rng, None, None), m)
  {
    BatchBillsItsTenants(invs, tenants, ledger, rng, m);
    ElementsBound(tenants);
    assert Keys(ByTenant, ledger, Query(rng, None, None)) <= Elements(tenants);
    LinesSumToTotal(ByTenant, tenants, ledger, Query(rng, None, None), m);
  }

  lemma {:induction false} BilledAppends(a: seq<Invoice>, b: seq<Invoice>, m: Measure)
    ensures Billed(a + b, m) == Billed(a, m) + Billed(b, m)
    decreases |b|
  {
    if b == [] {
      assert a + b == a;
    } else {
      assert (a + b)[..|a + b| - 1] == a + b[..|b| - 1];
      BilledAppends(a, b[..|b| - 1], m);
    }
  }

  /** A batch that fails part-way and is run again bills the tenants it had reached a second time: the excess
      over the ledger is exactly what they owe, so it is none exactly when they owe nothing. */
  lemma RetriedBatchBillsTwice(first: seq<Invoice>, again: seq<Invoice>, tenants: seq<Name>, done: nat, ledger: seq<Entry>, rng: Range, m: Measure)
    requires done <= |tenants| && Covers(tenants, ledger)
    requires IsBatch(first, tenants[..done], ledger, rng) && IsBatch(again, tenants, ledger, rng)
    ensures Billed(first + again, m) == Tally(ledger, Query(rng, None, None), m)
      + SumOver(SplitOf(ByTenant, ledger, Query(rng, None, None), m), tenants[..done])
  {
    BilledAppends(first, again, m);
    BatchBillsItsTenants(first, tenants[..done], ledger, rng, m);
    BatchBillsTheWindow(again, tenants, ledger, rng, m);
  }

  // ---- consecutive windows ----

  function Window(a: int, b: int): Range {
    Range(Some(a), Some(b))
  }

  lemma {:induction false} AdjacentWindows(es: seq<Entry>, a: int, b: int, c: int, m: Measure)
    requires a <= b <= c
    ensures Tally(es, Query(Window(a, c), None, None), m) ==
      Tally(es, Query(Window(a, b), None, None), m) + Tally(es, Query(Window(b, c), None, None), m)
  {
    if es != [] { AdjacentWindows(es[..|es| - 1], a, b, c, m); }
  }

  ghost predicate Increasing(cuts: seq<int>) {
    forall i, j :: 0 <= i < j < |cuts| ==> cuts[i] < cuts[j]
  }

  /** One closed period: its invoices were drawn from the ledger as it stood at that moment. */
  datatype Closing = Closing(invoices: seq<Invoice>, ledgerLen: nat)

  ghost predicate Closed(c: Closing, tenants: seq<Name>, ledger: seq<Entry>, a: int, b: int) {
    c.ledgerLen <= |ledger| && IsBatch(c.invoices, tenants, ledger[..c.ledgerLen], Window(a, b))
  }

  function BilledAll(cs: seq<Closing>, m: Measure): nat {
    if cs == [] then 0 else BilledAll(cs[..|cs| - 1], m) + Billed(cs[|cs| - 1].invoices, m)
  }

  /** What was appended after the closing and yet belongs to its period. */
  function Missed(c: Closing, ledger: seq<Entry>, a: int, b: int, m: Measure): nat {
    if c.ledgerLen > |ledger| then 0 else Tally(ledger[c.ledgerLen..], Query(Window(a, b), None, None), m)
  }

  /** Consecutive periods, each closed once. */
  ghost predicate AllClosed(cs: seq<Closing>, cuts: seq<int>, tenants: seq<Name>, ledger: seq<Entry>) {
    && |cuts| == |cs| + 1 && Increasing(cuts)
    && forall i :: 0 <= i < |cs| ==> Closed(cs[i], tenants, ledger, cuts[i], cuts[i + 1])
  }

  function MissedAll(cs: seq<Closing>, cuts: seq<int>, ledger: seq<Entry>, m: Measure): nat
    requires |cuts| == |cs| + 1
  {
    if cs == [] then 0
    else
      var k := |cs| - 1;
      MissedAll(cs[..k], cuts[..k + 1], ledger, m) + Missed(cs[k], ledger, cuts[k], cuts[k + 1], m)
  }

  lemma EarlierClosed(cs: seq<Closing>, cuts: seq<int>, tenants: seq<Name>, ledger: seq<Entry>)
    requires cs != [] && AllClosed(cs, cuts, tenants, ledger)
    ensures AllClosed(cs[..|cs| - 1], cuts[..|cs|], tenants, ledger)
    ensures Closed(cs[|cs| - 1], tenants, ledger, cuts[|cs| - 1], cuts[|cs|]) && cuts[0] <= cuts[|cs| - 1] <= cuts[|cs|]
  {
  }

  lemma TallySplits(ledger: seq<Entry>, n: nat, q: Query, m: Measure)
    requires n <= |ledger|
    ensures Tally(ledger[..n], q, m) + Tally(ledger[n..], q, m) == Tally(ledger, q, m)
  {
    TallyConcat(ledger[..n], ledger[n..], q, m);
    assert ledger[..n] + ledger[n..] == ledger;
  }

  lemma CoversPrefix(tenants: seq<Name>, ledger: seq<Entry>, n: nat)
    requires Covers(tenants, ledger) && n <= |ledger|
    ensures Covers(tenants, ledger[..n])
  {
  }

  lemma ClosingFallsShortByTheMissed(c: Closing, tenants: seq<Name>, ledger: seq<Entry>, a: int, b: int, m: Measure)
    requires Closed(c, tenants, ledger, a, b) && Covers(tenants, ledger)
    ensures Billed(c.invoices, m) + Missed(c, ledger, a, b, m) == Tally(ledger, Query(Window(a, b), None, None), m)
  {
    CoversPrefix(tenants, ledger, c.ledgerLen);
    BatchBillsTheWindow(c.invoices, tenants, ledger[..c.ledgerLen], Window(a, b), m);
    TallySplits(ledger, c.ledgerLen, Query(Window(a, b), None, None), m);
  }

  /** Invoicing consecutive half-open periods once each bills the ledger of the whole span short of exactly
      the entries that were appended to a period after its closing; nothing is billed twice. */
  lemma {:induction false} PeriodsFallShortByTheMissed(cs: seq<Closing>, cuts: seq<int>, tenants: seq<Name>, ledger: seq<Entry>, m: Measure)
    requires Covers(tenants, ledger) && AllClosed(cs, cuts, tenants, ledger)
    ensures BilledAll(cs, m) + MissedAll(cs, cuts, ledger, m) ==
      Tally(ledger, Query(Window(cuts[0], cuts[|cuts| - 1]), None, None), m)
    decreases |cs|
  {
    if cs == [] {
      EmptyWindow(ledger, cuts[0], m);
    } else {
      var k := |cs| - 1;
      EarlierClosed(cs, cuts, tenants, ledger);
      PeriodsFallShortByTheMissed(cs[..k], cuts[..k + 1], tenants, ledger, m);
      ClosingFallsShortByTheMissed(cs[k], tenants, ledger, cuts[k], cuts[k + 1], m);
      AdjacentWindows(ledger, cuts[0], cuts[k], cuts[k + 1], m);
    }
  }

  /** No entry was appended to the period after its closing. */
  ghost predicate Final(c: Closing, ledger: seq<Entry>, a: int, b: int) {
    forall k :: c.ledgerLen <= k < |ledger| ==> !Includes(Window(a, b), ledger[k].at)
  }

  lemma {:induction false} NothingPickedIsNothing(es: seq<Entry>, q: Query)
    ensures Tally(es, q, Calls) == 0 <==> forall k :: 0 <= k < |es| ==> !Picks(q, es[k])
  {
    if es != [] { NothingPickedIsNothing(es[..|es| - 1], q); }
  }

  lemma FinalExactlyWhenNothingMissed(c: Closing, ledger: seq<Entry>, a: int, b: int)
    requires c.ledgerLen <= |ledger|
    ensures Final(c, ledger, a, b) <==> Missed(c, ledger, a, b, Calls) == 0
  {
    var late, q := ledger[c.ledgerLen..], Query(Window(a, b), None, None);
    NothingPickedIsNothing(late, q);
    if forall k :: 0 <= k < |late| ==> !Picks(q, late[k]) {
      forall k | c.ledgerLen <= k < |ledger| ensures !Includes(Window(a, b), ledger[k].at) {
        assert late[k - c.ledgerLen] == ledger[k];
      }
    }
  }

  lemma {:induction false} MissedNothingExactly(cs: seq<Closing>, cuts: seq<int>, tenants: seq<Name>, ledger: seq<Entry>)
    requires AllClosed(cs, cuts, tenants, ledger)
    ensures MissedAll(cs, cuts, ledger, Calls) == 0 <==> forall i :: 0 <= i < |cs| ==> Final(cs[i], ledger, cuts[i], cuts[i + 1])
    decreases |cs|
  {
    if cs != [] {
      var k := |cs| - 1;
      EarlierClosed(cs, cuts, tenants, ledger);
      MissedNothingExactly(cs[..k], cuts[..k + 1], tenants, ledger);
      FinalExactlyWhenNothingMissed(cs[k], ledger, cuts[k], cuts[k + 1]);
    }
  }

  /** Every call of the span is billed once exactly when no period had an entry appended after its closing. */
  lemma PeriodsBillTheLedgerOnceExactly(cs: seq<Closing>, cuts: seq<int>, tenants: seq<Name>, ledger: seq<Entry>)
    requires Covers(tenants, ledger) && AllClosed(cs, cuts, tenants, ledger)
    ensures BilledAll(cs, Calls) == Tally(ledger, Query(Window(cuts[0], cuts[|cuts| - 1]), None, None), Calls)
      <==> forall i :: 0 <= i < |cs| ==> Final(cs[i], ledger, cuts[i], cuts[i + 1])
  {
    PeriodsFallShortByTheMissed(cs, cuts, tenants, ledger, Calls);
    MissedNothingExactly(cs, cuts, tenants, ledger);
  }

  /** An entry is stamped before the transaction that appends it. One stamped just before the cut and
      committed after the closing is in no invoice, of this period or of any later one. */
  lemma LateCommitIsNeverInvoiced(e: Entry, a: int, b: int, c: int)
    requires a <= e.at < b < c
    ensures var ledger, none := [e], Closing([], 0);
      && Closed(none, [e.tenant], ledger, a, b) && Closed(Closing([], 1), [e.tenant], ledger, b, c)
      && BilledAll([none, Closing([], 1)], Calls) == 0 && Tally(ledger, Query(Window(a, c), None, None), Calls) == 1
  {
    var ledger, next := [e], Closing([], 1);
    assert [e.tenant][..0] == [] && ledger[..0] == [] && ledger[..1] == ledger;
    assert Tally(ledger[..0], Query(Window(a, b), Some(e.tenant), None), Calls) == 0;
    assert Tally(ledger[..0], Query(Window(b, c), Some(e.tenant), None), Calls) == 0;
    assert Tally(ledger, Query(Window(b, c), Some(e.tenant), None), Calls) == 0;
    assert [Closing([], 0), next][..1] == [Closing([], 0)];
    assert BilledAll([Closing([], 0)], Calls) == 0;
  }

  lemma {:induction false} EmptyWindow(es: seq<Entry>, a: int, m: Measure)
    ensures Tally(es, Query(Window(a, a), None, None), m) == 0
  {
    if es != [] { EmptyWindow(es[..|es| - 1], a, m); }
  }

  /** Every entry of the span falls in exactly one of the periods. */
  lemma {:induction false} EntryFallsInOnePeriod(cuts: seq<int>, at: int) returns (i: nat)
    requires |cuts| >= 2 && Increasing(cuts) && cuts[0] <= at < cuts[|cuts| - 1]
    ensures i + 1 < |cuts| && Includes(Window(cuts[i], cuts[i + 1]), at)
    ensures forall j :: 0 <= j < |cuts| - 1 && Includes(Window(cuts[j], cuts[j + 1]), at) ==> j == i
  {
    i := 0;
    while at >= cuts[i + 1]
      invariant i + 1 < |cuts| && cuts[i] <= at
      decreases |cuts| - i
    {
      i := i + 1;
    }
  }
}
