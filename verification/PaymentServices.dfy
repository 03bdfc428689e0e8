/** The imperative services over a mutable repository: reserve, charge, finalise, settle. Each is proved
    against the transaction functions of PaymentStore. The bank's answer, minted ids and store faults
    are parameters. */
module PaymentServices {
  import opened Wrappers
  import opened Text
  import S = PaymentStore
  import opened ChargeProtocol

  class Repository {
    var payments: map<string, S.Payment>
    var ledger: seq<S.LedgerEntry>
    var processed: set<(string, string)>
    var audit: seq<S.Mismatch>

    constructor ()
      ensures View() == S.EMPTY_DB && S.Valid(View())
    {
      payments, ledger, processed, audit := map[], [], {}, [];
    }

    function View(): S.Db
      reads this
    {
      S.Db(payments, ledger, processed, audit)
    }

    method FindPaymentByIdempotencyKey(tenant: string, key: string) returns (r: Option<S.Payment>)
      requires forall id :: id in payments ==> payments[id].id == id
      ensures S.FoundByKey(View(), tenant, key, r)
    {
      if S.KeyTaken(View(), tenant, key) {
        var id :| id in payments && payments[id].tenant == tenant && payments[id].key == key;
        return Some(payments[id]);
      }
      return None;
    }

    method FindPaymentByTxID(tenant: string, txId: string) returns (r: Option<S.Payment>)
      requires forall id :: id in payments ==> payments[id].id == id
      ensures S.FoundByTx(View(), tenant, txId, r)
    {
      if id :| id in payments && payments[id].tenant == tenant && payments[id].txId == txId {
        return Some(payments[id]);
      }
      return None;
    }

    method SavePayment(p: S.Payment) returns (saved: bool)
      modifies this
      ensures saved == S.SavePayment(old(View()), p).Saved?
      ensures View() == if saved then S.SavePayment(old(View()), p).db else old(View())
    {
      if p.id in payments {
        payments := payments[p.id := payments[p.id].(status := p.status, txId := p.txId)];
        return true;
      }
      if S.KeyTaken(View(), p.tenant, p.key) { return false; }
      payments := payments[p.id := p];
      return true;
    }

    method MarkProcessed(tenant: string, eventKey: string) returns (first: bool)
      modifies this`processed
      ensures first <==> (tenant, eventKey) !in old(processed)
      ensures processed == old(processed) + {(tenant, eventKey)}
    {
      first := (tenant, eventKey) !in processed;
      processed := processed + {(tenant, eventKey)};
    }

    /** Undo every write of a failed transaction. */
    method Rollback(to: S.Db)
      modifies this
      ensures View() == to
    {
      payments, ledger, processed, audit := to.payments, to.ledger, to.processed, to.audit;
    }
  }

  /** The minted ids and faults of one creation call. */
  datatype Supply = Supply(paymentId: string, entryId: string, priceCents: nat,
                           bankTx: Option<string>, reserveFault: bool, finaliseFault: bool)

  predicate FreshFor(db: S.Db, su: Supply) {
    Trimmed(su.paymentId) && su.paymentId !in db.payments
  }

  /** The request carries what a payment needs, and the store takes it. */
  predicate Reservable(req: Request, su: Supply) {
    && !su.reserveFault && req.amountCents > 0
    && Trim(su.paymentId) != "" && req.tenant != "" && Trim(req.endpoint) != "" && req.key != ""
  }

  /** Finds or reserves the payment of one idempotency key. */
  method ReservePayment(repo: Repository, req: Request, su: Supply) returns (r: Option<S.Payment>)
    requires S.Valid(repo.View()) && FreshFor(repo.View(), su)
    modifies repo
    ensures S.Valid(repo.View()) && S.Advances(old(repo.View()), repo.View())
    ensures repo.ledger == old(repo.ledger) && repo.processed == old(repo.processed) && repo.audit == old(repo.audit)
    ensures r.Some? ==> r.value.id in repo.payments && repo.payments[r.value.id] == r.value
    ensures r.Some? && Trimmed(req.tenant) && Trimmed(req.key)
      ==> S.FoundByKey(repo.View(), req.tenant, req.key, r)
    ensures S.KeyTaken(old(repo.View()), req.tenant, req.key) ==>
      repo.View() == old(repo.View()) && r.Some? && S.FoundByKey(repo.View(), req.tenant, req.key, r)
    ensures repo.payments != old(repo.payments) ==>
      && req.amountCents > 0 && !su.reserveFault
      && r == Some(S.Payment(Trim(su.paymentId), Trim(req.tenant), Trim(req.endpoint), Trim(req.key), req.amountCents, S.Pending, ""))
      && repo.payments == old(repo.payments)[r.value.id := r.value]
    ensures Trimmed(req.tenant) && Trimmed(req.key) ==>
      (r.Some? <==> (S.KeyTaken(old(repo.View()), req.tenant, req.key) || Reservable(req, su)))
  {
    var existing := repo.FindPaymentByIdempotencyKey(req.tenant, req.key);
    if existing.Some? { return existing; }
    var made := S.NewPayment(su.paymentId, req.tenant, req.endpoint, req.key, req.amountCents);
    if made.None? || su.reserveFault { return None; }
    TrimShape(su.paymentId);
    TrimShape(req.tenant);
    TrimShape(req.key);
    S.ReserveKeepsValid(repo.View(), made.value);
    var saved := repo.SavePayment(made.value);
    if saved { return made; }
    r := repo.FindPaymentByIdempotencyKey(req.tenant, req.key);
  }

  /** One creation call run on its own, for any of the five services. Under a trimmed key and a
      non-blank bank tx id it bills the key exactly once however often it is repeated, and a failed
      call bills nothing. */
  method CreateCharge(repo: Repository, req: Request, su: Supply) returns (r: Option<S.Payment>)
    requires S.Valid(repo.View()) && FreshFor(repo.View(), su) && Trimmed(req.tenant)
    modifies repo
    ensures Trimmed(req.key) && (su.bankTx.Some? ==> Trim(su.bankTx.value) != "") ==>
      && S.Valid(repo.View()) && S.Advances(old(repo.View()), repo.View())
      && (r.Some? ==>
           && r.value.id in repo.payments && repo.payments[r.value.id] == r.value
           && r.value.tenant == req.tenant && r.value.key == req.key
           && r.value.txId != "" && S.Bills(repo.ledger, r.value.id) == 1)
      && (r.None? ==> repo.ledger == old(repo.ledger))
    ensures old(repo.ledger) <= repo.ledger && |repo.ledger| <= |old(repo.ledger)| + 1
    ensures (exists id :: id in old(repo.payments) && Owns(old(repo.View()), req, old(repo.payments)[id])
                          && old(repo.payments)[id].txId != "") ==> repo.View() == old(repo.View())
    ensures req.key != "" && (exists id :: id in old(repo.payments) && Owns(old(repo.View()), req, old(repo.payments)[id])
                                           && old(repo.payments)[id].txId != "") ==>
      (r.None? <==> ((req.service.HostedCheckout? || req.service.BoletoRegistration?) && su.bankTx.None?))
    ensures repo.ledger != old(repo.ledger) ==>
      && r.Some? && su.bankTx.Some? && r.value.txId == Trim(su.bankTx.value)
      && r.value.id in repo.payments && repo.payments[r.value.id].txId == r.value.txId
      && repo.ledger == old(repo.ledger) + [S.LedgerEntry(su.entryId, req.tenant, req.endpoint, r.value.id, su.priceCents)]
  {
    if req.key == "" { return None; }
    var held := ReservePayment(repo, req, su);
    if held.None? { return None; }
    var p := held.value;
    assert S.BilledOnce(repo.View(), p.id);
    if p.txId != "" && !CallsBankOnReplay(req.service) { return Some(p); }
    if su.bankTx.None? { return None; }
    if p.txId != "" { return Some(p); }
    TrimShape(su.bankTx.value);
    p := p.(txId := Trim(su.bankTx.value));
    r := FinaliseCharge(repo, req, p, su);
  }

  /** A charged snapshot of an unbilled row, filed under the request's own tenant and key. */
  predicate Finalisable(db: S.Db, req: Request, p: S.Payment) {
    && Owns(db, req, p) && p == db.payments[p.id].(txId := p.txId)
    && p.status == S.Pending && p.txId != "" && Trimmed(p.txId)
  }

  /** The atomic finalise: re-read the payment, adopt a billed one, else save the tx id and bill it. */
  method FinaliseCharge(repo: Repository, req: Request, p: S.Payment, su: Supply) returns (r: Option<S.Payment>)
    requires S.Valid(repo.View())
    modifies repo
    ensures old(repo.ledger) <= repo.ledger && |repo.ledger| <= |old(repo.ledger)| + 1
    ensures r.None? ==> repo.View() == old(repo.View())
    ensures Finalisable(old(repo.View()), req, p) ==>
      && S.Valid(repo.View()) && S.Advances(old(repo.View()), repo.View())
      && (r.Some? ==>
           && r.value.id == p.id && repo.payments[p.id] == r.value
           && r.value.txId != "" && S.Bills(repo.ledger, p.id) == 1)
    ensures repo.ledger != old(repo.ledger) ==>
      && r == Some(p) && p.id in repo.payments && repo.payments[p.id].txId == p.txId
      && repo.ledger == old(repo.ledger) + [S.LedgerEntry(su.entryId, req.tenant, req.endpoint, p.id, su.priceCents)]
  {
    ghost var before := repo.View();
    var entry := S.LedgerEntry(su.entryId, req.tenant, req.endpoint, p.id, su.priceCents);
    var current := repo.FindPaymentByIdempotencyKey(req.tenant, req.key);
    if Finalisable(before, req, p) {
      S.FinalizeKeepsValid(before, current, p, entry);
      assert S.BilledOnce(before, p.id);
    }
    if current.Some? && current.value.txId != "" { return current; }
    if su.finaliseFault { return None; }
    var saved := repo.SavePayment(p);
    if !saved { return None; }
    repo.ledger := repo.ledger + [entry];
    assert S.Finalize(before, current, p, entry) == S.Billed(repo.View());
    assert Finalisable(before, req, p) ==> S.BilledOnce(repo.View(), p.id);
    return Some(p);
  }

  /** The settlement core: mark, reconcile, then settle, audit a divergence, or roll everything back. */
  method Settle(repo: Repository, ev: S.PaymentEvent, reading: S.Reading, f: S.Faults)
    returns (outcome: S.Outcome, ghost found: Option<S.Payment>)
    requires S.Valid(repo.View())
    modifies repo
    ensures reading.Read? ==> S.FoundByTx(old(repo.View()), ev.tenant, S.SettlementKey(ev, reading.res), found)
    ensures S.SettleResult(repo.View(), outcome) == S.Settle(old(repo.View()), ev, reading, found, f)
    ensures S.Valid(repo.View())
  {
    var before := repo.View();
    var row: Option<S.Payment> := None;
    if reading.Read? {
      row := repo.FindPaymentByTxID(ev.tenant, S.SettlementKey(ev, reading.res));
    }
    found := row;
    S.SettleKeepsValid(before, ev, reading, row, f);
    if !S.Addressed(ev) { return S.Rejected, found; }
    if f.mark { return S.Failed, found; }
    var first := repo.MarkProcessed(ev.tenant, ev.eventKey);
    if !first {
      repo.Rollback(before);
      return if f.commit then S.Failed else S.Duplicate, found;
    }
    match reading
    case ReadFailed =>
      repo.Rollback(before);
      outcome := S.Failed;
    case Read(res) =>
      if !S.IsPaid(res) {
        repo.Rollback(before);
        outcome := if ev.claimsSettlement then S.Lagging else S.NotYetPayable;
      } else if !S.AmountReconciled(res) {
        if f.audit || f.commit {
          repo.Rollback(before);
          return S.Failed, found;
        }
        repo.audit := repo.audit + [S.Mismatch(ev.tenant, ev.txId, res.expectedCents, res.receivedCents)];
        outcome := S.Diverged;
      } else if f.find || row.None? {
        repo.Rollback(before);
        outcome := if f.find then S.Failed else S.NoPayment;
      } else {
        outcome := SettleRow(repo, before, S.SettlementKey(ev, res), row.value, f);
      }
  }

  method SettleRow(repo: Repository, before: S.Db, key: string, p: S.Payment, f: S.Faults) returns (outcome: S.Outcome)
    modifies repo
    ensures S.SettleResult(repo.View(), outcome) == S.SettleFound(before, old(repo.View()), key, p, f)
  {
    var m := S.MarkPaid(p, key);
    if m.ConflictingTxId? && !f.commit { return S.AlreadySettled; }
    if !m.Marked? {
      repo.Rollback(before);
      return if m.ConflictingTxId? then S.Failed else S.Refused;
    }
    var saved := repo.SavePayment(m.p);
    if !saved || f.save || f.commit {
      repo.Rollback(before);
      return S.Failed;
    }
    return S.Settled(m.p);
  }
}
