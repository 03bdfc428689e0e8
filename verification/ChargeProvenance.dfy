/** Where the stored values come from. In every run of the charge protocol a payment carries the amount it was
    asked for, a tx id the bank gave, and is paid only on money the bank reported received in full. */
module ChargeProvenance {
  import opened Wrappers
  import opened Text
  import opened PaymentStore
  import opened ChargeProtocol

  /** Some creation call got this tx id from the bank. */
  ghost predicate Answered(steps: seq<Step>, txId: string) {
    exists i :: 0 <= i < |steps| && steps[i].BankCreate? && steps[i].tx.Some? && Trim(steps[i].tx.value) == txId
  }

  predicate FullReading(step: Step, txId: string) {
    && step.Deliver? && step.reading.Read? && SettlementKey(step.ev, step.reading.res) == txId
    && EqualFold(step.reading.res.status, "paid")
    && step.reading.res.receivedCents == step.reading.res.expectedCents > 0
  }

  /** Some delivery found the charge paid in full under this tx id. */
  ghost predicate Received(steps: seq<Step>, txId: string) {
    exists i :: 0 <= i < |steps| && FullReading(steps[i], txId)
  }

  predicate AsksFor(step: Step, p: Payment) {
    && step.Begin? && step.req.tenant == p.tenant && step.req.key == p.key
    && step.req.amountCents == p.amountCents && Trim(step.req.endpoint) == p.endpoint
  }

  /** Some request asked for this amount, of this endpoint, under this tenant and key. */
  ghost predicate Asked(steps: seq<Step>, p: Payment) {
    exists i :: 0 <= i < |steps| && AsksFor(steps[i], p)
  }

  ghost predicate Begun(steps: seq<Step>, req: Request) {
    exists i :: 0 <= i < |steps| && steps[i].Begin? && steps[i].req == req.(pc := Looking)
  }

  /** A request for this endpoint, under the row's tenant and key. */
  predicate AsksAt(step: Step, tenant: string, key: string, endpoint: string) {
    step.Begin? && step.req.tenant == tenant && step.req.key == key && step.req.endpoint == endpoint
  }

  ghost predicate AskedAt(steps: seq<Step>, tenant: string, key: string, endpoint: string) {
    exists i :: 0 <= i < |steps| && AsksAt(steps[i], tenant, key, endpoint)
  }

  /** Some finalising transaction appended the entry, with this id and price, for a row of its tenant and on
      behalf of a request for its endpoint under the row's key. */
  ghost predicate Entered(steps: seq<Step>, db: Db, e: LedgerEntry) {
    && e.reference in db.payments && db.payments[e.reference].tenant == e.tenant
    && AskedAt(steps, e.tenant, db.payments[e.reference].key, e.endpoint)
    && exists i :: 0 <= i < |steps| && steps[i].Finalise? && steps[i].entryId == e.id && steps[i].priceCents == e.priceCents
  }

  ghost predicate HeldOk(steps: seq<Step>, p: Payment) {
    Asked(steps, p) && (p.txId != "" ==> Answered(steps, p.txId))
  }

  ghost predicate RowOk(steps: seq<Step>, p: Payment) {
    HeldOk(steps, p) && (p.status == Paid ==> Received(steps, p.txId))
  }

  ghost predicate RequestFrom(steps: seq<Step>, req: Request) {
    && Begun(steps, req)
    && match req.pc
       case Reserving(p) => HeldOk(steps, p)
       case Holding(p) => HeldOk(steps, p)
       case Charged(p) => HeldOk(steps, p)
       case _ => true
  }

  ghost predicate Sourced(steps: seq<Step>, s: State) {
    && (forall id :: id in s.db.payments ==> RowOk(steps, s.db.payments[id]))
    && (forall r :: r in s.requests ==> RequestFrom(steps, s.requests[r]))
    && (forall e :: e in s.db.ledger ==> Entered(steps, s.db, e))
  }

  /** A longer run has all the sources of a shorter one. */
  lemma SourcesStay(steps: seq<Step>, n: nat)
    requires n <= |steps|
    ensures forall p :: RowOk(steps[..n], p) ==> RowOk(steps, p)
    ensures forall p :: HeldOk(steps[..n], p) ==> HeldOk(steps, p)
    ensures forall req :: RequestFrom(steps[..n], req) ==> RequestFrom(steps, req)
    ensures forall db, e :: Entered(steps[..n], db, e) ==> Entered(steps, db, e)
  {
    var init := steps[..n];
    forall i | 0 <= i < n ensures init[i] == steps[i] {
    }
    forall p | Asked(init, p) ensures Asked(steps, p) {
      var i :| 0 <= i < |init| && AsksFor(init[i], p);
      assert AsksFor(steps[i], p);
    }
    forall tx | Answered(init, tx) ensures Answered(steps, tx) {
      var i :| 0 <= i < |init| && init[i].BankCreate? && init[i].tx.Some? && Trim(init[i].tx.value) == tx;
      assert steps[i].BankCreate?;
    }
    forall tx | Received(init, tx) ensures Received(steps, tx) {
      var i :| 0 <= i < |init| && FullReading(init[i], tx);
      assert FullReading(steps[i], tx);
    }
    forall req | Begun(init, req) ensures Begun(steps, req) {
      var i :| 0 <= i < |init| && init[i].Begin? && init[i].req == req.(pc := Looking);
      assert steps[i].Begin?;
    }
    forall t, k, p | AskedAt(init, t, k, p) ensures AskedAt(steps, t, k, p) {
      var i :| 0 <= i < |init| && AsksAt(init[i], t, k, p);
      assert AsksAt(steps[i], t, k, p);
    }
    forall db, e | Entered(init, db, e) ensures Entered(steps, db, e) {
      var i :| 0 <= i < |init| && init[i].Finalise? && init[i].entryId == e.id && init[i].priceCents == e.priceCents;
      assert steps[i].Finalise?;
    }
  }

  /** One request moved on: the others and the rows are as sourced as before. */
  lemma MoveIsSourced(steps: seq<Step>, s: State, s': State, r: nat)
    requires Sourced(steps, s) && r in s.requests && r in s'.requests
    requires s'.db == s.db && s'.requests == s.requests[r := s'.requests[r]]
    requires RequestFrom(steps, s'.requests[r])
    ensures Sourced(steps, s')
  {
  }

  lemma LookupIsSourced(steps: seq<Step>, s: State, step: Step)
    requires Inv(s) && Sourced(steps, s) && Enabled(s, step) && step.Lookup?
    ensures Sourced(steps, Apply(s, step))
  {
    var req, s' := s.requests[step.r], Apply(s, step);
    assert RequestFrom(steps, req) && RequestOk(s.db, s.issued, req);
    NewPaymentKeepsKey(step.freshId, req.tenant, req.endpoint, req.key, req.amountCents);
    if step.found.None? && s'.requests[step.r].pc.Reserving? {
      var i :| 0 <= i < |steps| && steps[i].Begin? && steps[i].req == req.(pc := Looking);
      assert AsksFor(steps[i], s'.requests[step.r].pc.p);
    }
    MoveIsSourced(steps, s, s', step.r);
  }

  ghost predicate StoreSourced(steps: seq<Step>, db: Db) {
    && (forall id :: id in db.payments ==> RowOk(steps, db.payments[id]))
    && (forall e :: e in db.ledger ==> Entered(steps, db, e))
  }

  /** A sourced store, one request moved on to a sourced place. */
  lemma StoreAndMoveAreSourced(steps: seq<Step>, s: State, s': State, r: nat)
    requires Sourced(steps, s) && r in s.requests && r in s'.requests && s'.requests == s.requests[r := s'.requests[r]]
    requires StoreSourced(steps, s'.db) && RequestFrom(steps, s'.requests[r])
    ensures Sourced(steps, s')
  {
  }

  lemma LedgerSurvives(steps: seq<Step>, db: Db, db': Db)
    requires (forall e :: e in db.ledger ==> Entered(steps, db, e)) && Advances(db, db')
    ensures forall e :: e in db.ledger ==> Entered(steps, db', e)
  {
    forall e | e in db.ledger ensures Entered(steps, db', e) {
      assert Entered(steps, db, e);
    }
  }

  lemma ReservedStore(steps: seq<Step>, db: Db, p: Payment)
    requires StoreSourced(steps, db) && Valid(db) && p.id !in db.payments && p.txId == "" && p.status == Pending && HeldOk(steps, p)
    ensures SavePayment(db, p).Saved? ==> StoreSourced(steps, SavePayment(db, p).db)
  {
    ReserveKeepsValid(db, p);
    if SavePayment(db, p).Saved? { LedgerSurvives(steps, db, SavePayment(db, p).db); }
  }

  lemma ReserveIsSourced(steps: seq<Step>, s: State, step: Step)
    requires Inv(s) && Sourced(steps, s) && Enabled(s, step) && step.Reserve?
    ensures Sourced(steps, Apply(s, step))
  {
    var req := s.requests[step.r];
    assert RequestFrom(steps, req) && RequestOk(s.db, s.issued, req);
    ReservedStore(steps, s.db, req.pc.p);
    StoreAndMoveAreSourced(steps, s, Apply(s, step), step.r);
  }

  lemma BankCreateIsSourced(steps: seq<Step>, s: State, n: nat)
    requires n < |steps| && Sourced(steps, s) && Enabled(s, steps[n]) && steps[n].BankCreate?
    ensures Sourced(steps, Apply(s, steps[n]))
  {
    var step := steps[n];
    assert RequestFrom(steps, s.requests[step.r]);
    var s' := Apply(s, step);
    if s'.requests[step.r].pc.Charged? {
      var p, q := s.requests[step.r].pc.p, s'.requests[step.r].pc.p;
      assert Answered(steps, q.txId);
      var i :| 0 <= i < |steps| && AsksFor(steps[i], p);
      assert AsksFor(steps[i], q);
    }
    MoveIsSourced(steps, s, s', step.r);
  }

  lemma BegunAsks(steps: seq<Step>, req: Request)
    requires Begun(steps, req)
    ensures AskedAt(steps, req.tenant, req.key, req.endpoint)
  {
    var i :| 0 <= i < |steps| && steps[i].Begin? && steps[i].req == req.(pc := Looking);
    assert AsksAt(steps[i], req.tenant, req.key, req.endpoint);
  }

  /** A finalising step ends its request, and the store is as before or as billed. */
  lemma FinaliseShape(s: State, step: Step)
    requires Enabled(s, step) && step.Finalise?
    ensures var s', req := Apply(s, step), s.requests[step.r];
      var f := Finalize(s.db, step.found, req.pc.p, LedgerEntry(step.entryId, req.tenant, req.endpoint, req.pc.p.id, step.priceCents));
      && step.r in s'.requests && s'.requests == s.requests[step.r := s'.requests[step.r]]
      && s'.requests[step.r] == req.(pc := s'.requests[step.r].pc) && s'.requests[step.r].pc.Finished?
      && (s'.db == s.db || (f.Billed? && s'.db == f.db))
  {
  }

  lemma FinaliseIsSourced(steps: seq<Step>, s: State, n: nat)
    requires n < |steps| && Inv(s) && Sourced(steps, s) && Enabled(s, steps[n]) && steps[n].Finalise?
    ensures Sourced(steps, Apply(s, steps[n]))
  {
    var step := steps[n];
    var req := s.requests[step.r];
    assert RequestFrom(steps, req) && RequestOk(s.db, s.issued, req);
    var entry := LedgerEntry(step.entryId, req.tenant, req.endpoint, req.pc.p.id, step.priceCents);
    BegunAsks(steps, req);
    BilledStore(steps, s.db, step.found, req.pc.p, entry, n);
    FinaliseShape(s, step);
    StoreAndMoveAreSourced(steps, s, Apply(s, step), step.r);
  }

  /** The billed row keeps what was asked and takes the tx id the request holds. */
  lemma BilledRowOk(steps: seq<Step>, row: Payment, p: Payment)
    requires RowOk(steps, row) && HeldOk(steps, p) && p.status == Pending
    ensures RowOk(steps, row.(status := p.status, txId := p.txId))
  {
    var i :| 0 <= i < |steps| && AsksFor(steps[i], row);
    assert AsksFor(steps[i], row.(status := p.status, txId := p.txId));
  }

  lemma BilledStore(steps: seq<Step>, db: Db, found: Option<Payment>, p: Payment, entry: LedgerEntry, n: nat)
    requires n < |steps| && steps[n].Finalise? && steps[n].entryId == entry.id && steps[n].priceCents == entry.priceCents
    requires StoreSourced(steps, db) && Valid(db) && p.id in db.payments && HeldOk(steps, p)
    requires FoundByKey(db, db.payments[p.id].tenant, db.payments[p.id].key, found)
    requires p.status == Pending && p.txId != "" && Trimmed(p.txId)
    requires entry.reference == p.id && entry.tenant == db.payments[p.id].tenant
    requires AskedAt(steps, entry.tenant, db.payments[p.id].key, entry.endpoint)
    ensures var f := Finalize(db, found, p, entry); f.Billed? ==> StoreSourced(steps, f.db)
  {
    var f := Finalize(db, found, p, entry);
    if f.Billed? {
      FinalizeKeepsValid(db, found, p, entry);
      LedgerSurvives(steps, db, f.db);
      assert Entered(steps, f.db, entry);
      BilledRowOk(steps, db.payments[p.id], p);
    }
  }

  lemma DeliverIsSourced(steps: seq<Step>, s: State, n: nat)
    requires n < |steps| && Inv(s) && Sourced(steps, s) && Enabled(s, steps[n]) && steps[n].Deliver?
    ensures Sourced(steps, Apply(s, steps[n]))
  {
    var step, s' := steps[n], Apply(s, steps[n]);
    SettledExactlyWhenPaidInFull(s.db, step.ev, step.reading, step.found, step.faults);
    SettleKeepsValid(s.db, step.ev, step.reading, step.found, step.faults);
    var o := Settle(s.db, step.ev, step.reading, step.found, step.faults).outcome;
    forall id | id in s'.db.payments ensures RowOk(steps, s'.db.payments[id]) {
      assert RowOk(steps, s.db.payments[id]);
      if o.Settled? && id == step.found.value.id {
        assert FullReading(steps[n], s'.db.payments[id].txId);
        var i :| 0 <= i < |steps| && AsksFor(steps[i], s.db.payments[id]);
        assert AsksFor(steps[i], s'.db.payments[id]);
      }
    }
    LedgerSurvives(steps, s.db, s'.db);
  }

  lemma StepIsSourced(steps: seq<Step>, s: State, n: nat)
    requires n < |steps| && Inv(s) && Sourced(steps, s) && Enabled(s, steps[n])
    ensures Sourced(steps, Apply(s, steps[n]))
  {
    match steps[n]
    case Begin(r, req) => assert Begun(steps, req);
    case Lookup(_, _, _) => LookupIsSourced(steps, s, steps[n]);
    case Reserve(_, _) => ReserveIsSourced(steps, s, steps[n]);
    case BankCreate(_, _) => BankCreateIsSourced(steps, s, n);
    case Finalise(_, _, _, _, _) => FinaliseIsSourced(steps, s, n);
    case Deliver(_, _, _, _, _) => DeliverIsSourced(steps, s, n);
    case Resolve(r, _) => OwnMoveIsSourced(steps, s, steps[n], r);
    case Replay(r) => OwnMoveIsSourced(steps, s, steps[n], r);
    case Crash(r) => OwnMoveIsSourced(steps, s, steps[n], r);
  }

  lemma OwnMoveIsSourced(steps: seq<Step>, s: State, step: Step, r: nat)
    requires Sourced(steps, s) && Enabled(s, step) && (step == Replay(r) || step == Crash(r) || (step.Resolve? && step.r == r))
    ensures Sourced(steps, Apply(s, step))
  {
    assert RequestFrom(steps, s.requests[r]);
    MoveIsSourced(steps, s, Apply(s, step), r);
  }

  lemma {:induction false} RunIsSourced(steps: seq<Step>)
    requires Legal(steps) && WellFed(steps)
    ensures Sourced(steps, After(steps))
    decreases |steps|
  {
    if steps != [] {
      var n := |steps| - 1;
      RunIsSourced(steps[..n]);
      RunKeepsInv(steps[..n]);
      SourcesStay(steps, n);
      StepIsSourced(steps, After(steps[..n]), n);
    }
  }

  /** In every run each payment was asked for with this amount, endpoint, tenant and key; its tx id is one the
      bank gave; and it is paid only if a delivery found it received in full under that tx id. */
  lemma PaymentsAreSourced(steps: seq<Step>, id: string)
    requires Legal(steps) && WellFed(steps) && id in After(steps).db.payments
    ensures var p := After(steps).db.payments[id];
      && Asked(steps, p) && (p.txId != "" ==> Answered(steps, p.txId)) && (p.status == Paid ==> Received(steps, p.txId))
  {
    RunIsSourced(steps);
    assert RowOk(steps, After(steps).db.payments[id]);
  }

  /** In every run each ledger entry bills a payment of its own tenant, for an endpoint that was asked for under
      the payment's key, with the id and price of some finalising transaction. */
  lemma EntriesAreSourced(steps: seq<Step>, e: LedgerEntry)
    requires Legal(steps) && WellFed(steps) && e in After(steps).db.ledger
    ensures Entered(steps, After(steps).db, e)
  {
    RunIsSourced(steps);
  }
}
