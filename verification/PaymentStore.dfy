/** The transactional store behind charges and webhooks, and the bodies that run inside one
    transaction: saving a payment, finalising a charge, settling a webhook.

    A lookup is a relation rather than a function, because the (tenant, tx id) index is not
    unique and the row order is the database's choice. */
module PaymentStore {
  import opened Wrappers
  import opened Text

  datatype Status = Pending | Paid | Canceled

  datatype Payment = Payment(
    id: string, tenant: string, endpoint: string, key: string, amountCents: int,
    status: Status, txId: string)

  datatype LedgerEntry = LedgerEntry(
    id: string, tenant: string, endpoint: string, reference: string, priceCents: nat)

  datatype Mismatch = Mismatch(tenant: string, txId: string, expectedCents: int, receivedCents: int)

  datatype Db = Db(
    payments: map<string, Payment>,
    ledger: seq<LedgerEntry>,
    processed: set<(string, string)>,
    audit: seq<Mismatch>)

  const EMPTY_DB := Db(map[], [], {}, [])

  // ---- the payment aggregate ----

  /** A fresh pending payment, or nothing when a required field is blank or the amount is not positive. */
  function NewPayment(id: string, tenant: string, endpoint: string, key: string, amountCents: int): (r: Option<Payment>)
  {
    if amountCents <= 0 || Trim(id) == "" || Trim(tenant) == "" || Trim(endpoint) == "" || Trim(key) == "" then None
    else Some(Payment(Trim(id), Trim(tenant), Trim(endpoint), Trim(key), amountCents, Pending, ""))
  }

  datatype MarkResult = Marked(p: Payment) | BlankTxId | ConflictingTxId | InvalidTransition

  function MarkPaid(p: Payment, txId: string): MarkResult {
    var t := Trim(txId);
    if t == "" then BlankTxId
    else if p.status == Paid then (if p.txId == t then Marked(p) else ConflictingTxId)
    else if p.status != Pending then InvalidTransition
    else Marked(p.(status := Paid, txId := t))
  }

  // ---- the repository ----

  ghost predicate FoundByKey(db: Db, tenant: string, key: string, r: Option<Payment>) {
    match r
    case Some(p) => p.id in db.payments && db.payments[p.id] == p && p.tenant == tenant && p.key == key
    case None => !KeyTaken(db, tenant, key)
  }

  ghost predicate FoundByTx(db: Db, tenant: string, txId: string, r: Option<Payment>) {
    match r
    case Some(p) => p.id in db.payments && db.payments[p.id] == p && p.tenant == tenant && p.txId == txId
    case None => forall id :: id in db.payments ==> !(db.payments[id].tenant == tenant && db.payments[id].txId == txId)
  }

  predicate KeyTaken(db: Db, tenant: string, key: string) {
    exists id :: id in db.payments && db.payments[id].tenant == tenant && db.payments[id].key == key
  }

  datatype SaveOutcome = Saved(db: Db) | Conflict

  /** Insert-or-update by id: an existing row changes only its status and tx id; a new row whose
      (tenant, key) is taken violates the unique index. */
  function SavePayment(db: Db, p: Payment): SaveOutcome {
    if p.id in db.payments then
      Saved(db.(payments := db.payments[p.id := db.payments[p.id].(status := p.status, txId := p.txId)]))
    else if KeyTaken(db, p.tenant, p.key) then Conflict
    else Saved(db.(payments := db.payments[p.id := p]))
  }

  // ---- the finalising transaction of every creation service ----

  datatype Finalized = Adopted(p: Payment) | Billed(db: Db) | SaveRefused

  function Finalize(db: Db, found: Option<Payment>, p: Payment, entry: LedgerEntry): Finalized {
    if found.Some? && found.value.txId != "" then Adopted(found.value)
    else match SavePayment(db, p)
      case Conflict => SaveRefused
      case Saved(db1) => Billed(db1.(ledger := db1.ledger + [entry]))
  }

  // ---- the settling transaction ----

  const PAID := "paid"

  datatype PaymentEvent = PaymentEvent(tenant: string, txId: string, eventKey: string, claimsSettlement: bool)

  /** The reconciled bank state; an empty settlement key means the event's own tx id. */
  datatype ChargeResult = ChargeResult(status: string, expectedCents: int, receivedCents: int, settlementKey: string)

  predicate AmountReconciled(res: ChargeResult) {
    res.expectedCents > 0 && res.receivedCents == res.expectedCents
  }

  datatype Reading = ReadFailed | Read(res: ChargeResult)

  /** Which store operations of one delivery fail. */
  datatype Faults = Faults(mark: bool, audit: bool, find: bool, save: bool, commit: bool)

  const NO_FAULTS := Faults(false, false, false, false, false)

  datatype Outcome =
    | Rejected | Duplicate | Failed | Lagging | NotYetPayable | NoPayment | Refused
    | Diverged | AlreadySettled | Settled(p: Payment)

  /** The outcomes after which the anti-replay mark is kept. */
  predicate Terminal(o: Outcome) {
    o.Diverged? || o.AlreadySettled? || o.Settled?
  }

  datatype SettleResult = SettleResult(db: Db, outcome: Outcome)

  function SettlementKey(ev: PaymentEvent, res: ChargeResult): string {
    if res.settlementKey == "" then ev.txId else res.settlementKey
  }

  predicate Addressed(ev: PaymentEvent) {
    Trim(ev.tenant) != "" && Trim(ev.txId) != "" && Trim(ev.eventKey) != ""
  }

  predicate IsPaid(res: ChargeResult) {
    EqualFold(res.status, PAID)
  }

  function Settle(db: Db, ev: PaymentEvent, reading: Reading, found: Option<Payment>, f: Faults): SettleResult
  {
    if !Addressed(ev) then SettleResult(db, Rejected)
    else if f.mark then SettleResult(db, Failed)
    else if (ev.tenant, ev.eventKey) in db.processed then SettleResult(db, if f.commit then Failed else Duplicate)
    else if reading.ReadFailed? then SettleResult(db, Failed)
    else if !IsPaid(reading.res) then SettleResult(db, if ev.claimsSettlement then Lagging else NotYetPayable)
    else
      var marked := db.(processed := db.processed + {(ev.tenant, ev.eventKey)});
      if !AmountReconciled(reading.res) then
        if f.audit || f.commit then SettleResult(db, Failed)
        else SettleResult(marked.(audit := marked.audit
          + [Mismatch(ev.tenant, ev.txId, reading.res.expectedCents, reading.res.receivedCents)]), Diverged)
      else if f.find then SettleResult(db, Failed)
      else if found.None? then SettleResult(db, NoPayment)
      else SettleFound(db, marked, SettlementKey(ev, reading.res), found.value, f)
  }

  function SettleFound(db: Db, marked: Db, key: string, p: Payment, f: Faults): SettleResult {
    match MarkPaid(p, key)
    case ConflictingTxId => if f.commit then SettleResult(db, Failed) else SettleResult(marked, AlreadySettled)
    case BlankTxId => SettleResult(db, Refused)
    case InvalidTransition => SettleResult(db, Refused)
    case Marked(p') =>
      match SavePayment(marked, p')
      case Conflict => SettleResult(db, Failed)
      case Saved(db') => if f.save || f.commit then SettleResult(db, Failed) else SettleResult(db', Settled(p'))
  }

  // ---- counting ----

  /** How many ledger entries bill the payment `ref`. */
  function Bills(ledger: seq<LedgerEntry>, ref: string): nat {
    if ledger == [] then 0
    else Bills(ledger[..|ledger| - 1], ref) + (if ledger[|ledger| - 1].reference == ref then 1 else 0)
  }

  lemma BillsAppend(ledger: seq<LedgerEntry>, e: LedgerEntry, ref: string)
    ensures Bills(ledger + [e], ref) == Bills(ledger, ref) + (if e.reference == ref then 1 else 0)
  {
  }

  // ---- the invariant every transaction keeps ----

  predicate BilledOnce(db: Db, id: string) {
    Bills(db.ledger, id) == (if id in db.payments && db.payments[id].txId != "" then 1 else 0)
  }

  ghost predicate UniqueKeys(db: Db) {
    forall i, j | i in db.payments && j in db.payments ::
      db.payments[i].tenant == db.payments[j].tenant && db.payments[i].key == db.payments[j].key ==> i == j
  }

  predicate WellFormedRow(id: string, p: Payment) {
    p.id == id && Trimmed(p.txId) && (p.txId == "" ==> p.status == Pending)
  }

  ghost predicate Valid(db: Db) {
    && UniqueKeys(db)
    && (forall id :: id in db.payments ==> WellFormedRow(id, db.payments[id]))
    && (forall id :: BilledOnce(db, id))
  }

  /** Rows are never dropped or re-keyed, a tx id once set never changes, and paid stays paid. */
  ghost predicate Advances(a: Db, b: Db) {
    forall id :: id in a.payments ==>
      && id in b.payments
      && b.payments[id].tenant == a.payments[id].tenant && b.payments[id].key == a.payments[id].key
      && (a.payments[id].txId != "" ==> b.payments[id].txId == a.payments[id].txId)
      && (a.payments[id].status == Paid ==> b.payments[id].status == Paid)
  }

  /** Reserving a key inserts an unbilled row or changes nothing. */
  lemma ReserveKeepsValid(db: Db, p: Payment)
    requires Valid(db) && p.id !in db.payments && p.txId == "" && p.status == Pending
    ensures SavePayment(db, p).Saved? ==> Valid(SavePayment(db, p).db) && Advances(db, SavePayment(db, p).db)
  {
    if SavePayment(db, p).Saved? {
      var db' := SavePayment(db, p).db;
      forall id ensures BilledOnce(db', id) { assert BilledOnce(db, id); }
    }
  }

  /** Finalising bills the row at most once, whatever stale snapshot the caller holds, provided the
      lookup key names the row and the bank's tx id is not blank. */
  lemma FinalizeKeepsValid(db: Db, found: Option<Payment>, p: Payment, entry: LedgerEntry)
    requires Valid(db) && p.id in db.payments
    requires FoundByKey(db, db.payments[p.id].tenant, db.payments[p.id].key, found)
    requires p.status == Pending && p.txId != "" && Trimmed(p.txId)
    requires entry.reference == p.id
    ensures var r := Finalize(db, found, p, entry);
      && !r.SaveRefused?
      && (r.Adopted? ==> r.p == db.payments[p.id])
      && (r.Billed? ==> Valid(r.db) && Advances(db, r.db) && r.db.payments[p.id].txId == p.txId)
  {
    assert found.Some? && found.value.id == p.id;
    var r := Finalize(db, found, p, entry);
    if r.Billed? {
      forall id ensures BilledOnce(r.db, id) {
        assert BilledOnce(db, id);
        BillsAppend(db.ledger, entry, id);
      }
    }
  }

  /** The mark is committed exactly on a terminal outcome; every other outcome leaves the store
      untouched, so it cannot block a later delivery. */
  lemma MarkedExactlyWhenTerminal(db: Db, ev: PaymentEvent, reading: Reading, found: Option<Payment>, f: Faults)
    ensures var r := Settle(db, ev, reading, found, f);
      if Terminal(r.outcome)
      then (ev.tenant, ev.eventKey) !in db.processed && r.db.processed == db.processed + {(ev.tenant, ev.eventKey)}
      else r.db == db
  {
  }

  /** The delivery is well addressed, new, and the bank's word for the charge is paid, in any letter case. */
  predicate Payable(db: Db, ev: PaymentEvent, reading: Reading, f: Faults) {
    && Trim(ev.tenant) != "" && Trim(ev.txId) != "" && Trim(ev.eventKey) != "" && !f.mark
    && (ev.tenant, ev.eventKey) !in db.processed
    && reading.Read? && EqualFold(reading.res.status, "paid")
  }

  /** Money decides: a payable delivery settles exactly when the bank received what it expected, something,
      and a row that can still be marked is found and saved; then that row is paid under its own tx id. */
  lemma SettledExactlyWhenPaidInFull(db: Db, ev: PaymentEvent, reading: Reading, found: Option<Payment>, f: Faults)
    requires Valid(db) && (reading.Read? ==> FoundByTx(db, ev.tenant, SettlementKey(ev, reading.res), found))
    ensures var r := Settle(db, ev, reading, found, f);
      r.outcome.Settled? <==>
        (&& Payable(db, ev, reading, f) && reading.res.receivedCents == reading.res.expectedCents > 0
         && found.Some? && found.value.status != Canceled && found.value.txId != ""
         && !f.find && !f.save && !f.commit)
    ensures var r := Settle(db, ev, reading, found, f);
      r.outcome.Settled? ==> r.db == db.(payments := db.payments[found.value.id := found.value.(status := Paid)],
                                         processed := db.processed + {(ev.tenant, ev.eventKey)})
  {
    if reading.Read? { TrimShape(SettlementKey(ev, reading.res)); }
  }

  /** The remaining outcomes, each exactly when: a repeat, a charge not yet paid (asked back when the notice
      claimed a payment), and a paid one whose row is not found, is under another tx id, or can no longer be
      paid. None of them changes a payment. */
  lemma OtherOutcomesExactly(db: Db, ev: PaymentEvent, reading: Reading, found: Option<Payment>)
    requires Trim(ev.tenant) != "" && Trim(ev.txId) != "" && Trim(ev.eventKey) != ""
    ensures var o := Settle(db, ev, reading, found, NO_FAULTS).outcome;
      if (ev.tenant, ev.eventKey) in db.processed then o == Duplicate
      else if reading.ReadFailed? then o == Failed
      else if !EqualFold(reading.res.status, "paid") then o == (if ev.claimsSettlement then Lagging else NotYetPayable)
      else if !(reading.res.receivedCents == reading.res.expectedCents > 0) then o == Diverged
      else if found.None? then o == NoPayment
      else
        var key := Trim(if reading.res.settlementKey == "" then ev.txId else reading.res.settlementKey);
        && (key == "" ==> o == Refused)
        && (key != "" && found.value.status == Paid && found.value.txId != key ==> o == AlreadySettled)
        && (key != "" && found.value.status == Canceled ==> o == Refused)
    ensures var r := Settle(db, ev, reading, found, NO_FAULTS); !r.outcome.Settled? ==> r.db.payments == db.payments
  {
  }

  /** A payable delivery with any other money is refused exactly once, with the two amounts on the audit
      trail, and no payment changes. */
  lemma DivergenceIsAuditedExactly(db: Db, ev: PaymentEvent, reading: Reading, found: Option<Payment>, f: Faults)
    ensures var r := Settle(db, ev, reading, found, f);
      r.outcome.Diverged? <==>
        (&& Payable(db, ev, reading, f) && !(reading.res.receivedCents == reading.res.expectedCents > 0)
         && !f.audit && !f.commit)
    ensures var r := Settle(db, ev, reading, found, f);
      if r.outcome.Diverged?
      then r.db == db.(processed := db.processed + {(ev.tenant, ev.eventKey)},
                       audit := db.audit + [Mismatch(ev.tenant, ev.txId, reading.res.expectedCents, reading.res.receivedCents)])
      else r.db.audit == db.audit
  {
  }

  /** Settling turns one row paid and changes nothing else about any payment. */
  ghost predicate OnlyPays(a: Db, b: Db, o: Outcome) {
    && b.ledger == a.ledger
    && b.payments ==
       if o.Settled? && o.p.id in a.payments
       then a.payments[o.p.id := a.payments[o.p.id].(status := Paid)]
       else a.payments
  }

  lemma SettleFoundOnlyPays(db: Db, marked: Db, key: string, p: Payment, f: Faults)
    requires Valid(db) && marked.payments == db.payments && marked.ledger == db.ledger
    requires p.id in db.payments && db.payments[p.id] == p && p.txId == key
    ensures var r := SettleFound(db, marked, key, p, f);
      && OnlyPays(db, r.db, r.outcome)
      && !r.outcome.AlreadySettled?
      && (r.outcome.Settled? ==> r.outcome.p.id == p.id && p.txId != "")
  {
  }

  lemma OnlyPaysKeepsValid(a: Db, b: Db, o: Outcome)
    requires Valid(a) && OnlyPays(a, b, o)
    requires o.Settled? && o.p.id in a.payments ==> a.payments[o.p.id].txId != ""
    ensures Valid(b) && Advances(a, b)
  {
    forall id ensures BilledOnce(b, id) { assert BilledOnce(a, id); }
  }

  /** Every delivery, with any bank reading and any store fault, keeps the store valid; a payment that
      settles already carried the tx id it settles under, so the conflicting-tx branch is dead. */
  lemma SettleKeepsValid(db: Db, ev: PaymentEvent, reading: Reading, found: Option<Payment>, f: Faults)
    requires Valid(db)
    requires reading.Read? ==> FoundByTx(db, ev.tenant, SettlementKey(ev, reading.res), found)
    ensures var r := Settle(db, ev, reading, found, f);
      && Valid(r.db) && Advances(db, r.db)
      && OnlyPays(db, r.db, r.outcome)
      && !r.outcome.AlreadySettled?
  {
    var r := Settle(db, ev, reading, found, f);
    if reading.Read? && found.Some? {
      var marked := db.(processed := db.processed + {(ev.tenant, ev.eventKey)});
      SettleFoundOnlyPays(db, marked, SettlementKey(ev, reading.res), found.value, f);
    }
    OnlyPaysKeepsValid(db, r.db, r.outcome);
  }

  /** Whatever the bank calls an unpaid charge, including a dead one, no mark survives it. */
  lemma UnpaidStatusLeavesNoMark(db: Db, ev: PaymentEvent, res: ChargeResult, found: Option<Payment>, f: Faults)
    requires !IsPaid(res)
    ensures Settle(db, ev, Read(res), found, f).db == db
  {
  }

  /** A fault-free delivery for a known row the bank reports paid in full settles it. */
  lemma PaidDeliverySettles(db: Db, ev: PaymentEvent, res: ChargeResult, found: Option<Payment>)
    requires Valid(db) && Addressed(ev) && (ev.tenant, ev.eventKey) !in db.processed
    requires IsPaid(res) && AmountReconciled(res)
    requires found.Some? && FoundByTx(db, ev.tenant, SettlementKey(ev, res), found)
    requires Trim(SettlementKey(ev, res)) != "" && found.value.status != Canceled
    ensures var r := Settle(db, ev, Read(res), found, NO_FAULTS);
      && r.outcome == Settled(db.payments[found.value.id].(status := Paid))
      && r.db.payments == db.payments[found.value.id := db.payments[found.value.id].(status := Paid)]
  {
  }
}
