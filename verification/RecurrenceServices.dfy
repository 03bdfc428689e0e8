/** The recurrence services over a mutable store, each proved to be the run of its own protocol steps.
    The bank's answers and store faults are parameters; a transaction that fails restores the store. */
module RecurrenceServices {
  import opened Wrappers
  import R = Recurrence
  import C = RecurrenceCalls

  datatype Refusal = MandateNotFound | MandateNotApproved | ChargeExceedsMandate | InvalidAmount | BankRefused | StoreFailed

  class RecurrenceStore {
    var recs: map<R.Id, R.Rec>
    var cobrs: map<R.Id, R.CobR>
    var trail: seq<R.Transition>
    var bills: seq<R.Bill>
    var processed: set<R.Id>
    var asked: seq<R.Event>

    constructor ()
      ensures View() == R.INIT
    {
      recs, cobrs, trail, bills, processed, asked := map[], map[], [], [], {}, [];
    }

    /** The store and the bank's log, with no call in flight. */
    function View(): R.State
      reads this
    {
      R.State(R.Db(recs, cobrs, trail, bills, processed), asked, map[])
    }

    method SaveRec(id: R.Id, rec: R.Rec)
      modifies this`recs
      ensures recs == old(recs)[id := if id in old(recs) then old(recs)[id].(status := rec.status) else rec]
    {
      recs := recs[id := if id in recs then recs[id].(status := rec.status) else rec];
    }

    method SaveCobR(key: R.Id, charge: R.CobR)
      modifies this`cobrs
      ensures cobrs == R.PutCharge(old(View()).db, key, charge).cobrs
    {
      cobrs := cobrs[key := if key in cobrs then cobrs[key].(status := charge.status) else charge];
    }

    method MarkProcessed(mark: R.Id) returns (first: bool)
      modifies this`processed
      ensures first == (mark !in old(processed)) && processed == old(processed) + {mark}
    {
      first := mark !in processed;
      processed := processed + {mark};
    }

    method RecordRec(id: R.Id, answer: R.RecAnswer)
      requires answer.Mandate?
      modifies this`recs, this`trail
      ensures View().db == R.RecordRec(old(View()).db, id, answer)
    {
      var rec: R.Rec;
      if id in recs {
        rec := recs[id];
        if answer.status == R.Known(rec.status) { return; }
        if answer.status.Foreign? || !R.LegalMove(rec.status, answer.status.status) { return; }
        rec := rec.(status := answer.status.status);
      } else {
        if !answer.representable || answer.valorCents < 0 { return; }
        rec := R.Rec(answer.valorCents, R.Criada);
        if answer.status != R.Known(rec.status) {
          if answer.status.Foreign? { return; }
          rec := rec.(status := answer.status.status);
        }
      }
      SaveRec(id, rec);
      trail := trail + [R.Transition(id, rec.status)];
    }

    method HandleRecEvent(id: R.Id, eventKey: string, answer: R.RecAnswer, fault: R.Fault)
      modifies this
      ensures View() == C.Do(old(View()), C.MandateNotified(id, eventKey, answer, fault))
    {
      ghost var before := View();
      C.DoIsAtomic(before, C.MandateNotified(id, eventKey, answer, fault));
      if fault.MarkFault? { return; }
      var recs0, trail0, processed0 := recs, trail, processed;
      var first := MarkProcessed(R.Id(id.tenant, eventKey));
      if !first {
        assert processed == before.db.processed;
        return;
      }
      if answer.Mandate? {
        asked := asked + [R.Read(id, answer.status)];
        RecordRec(id, answer);
      }
      if answer.Unavailable? || fault.StoreFault? {
        recs, trail, processed := recs0, trail0, processed0;
      }
    }

    method RecordCobR(key: R.Id, answer: R.CobRAnswer)
      requires answer.Charge?
      modifies this`cobrs
      ensures View().db == R.RecordCobR(old(View()).db, key, answer)
    {
      var charge: R.CobR;
      if key in cobrs {
        charge := cobrs[key];
        if answer.status == Some(charge.status) { return; }
        if answer.status.None? || !R.LegalChargeMove(charge.status, answer.status.value) { return; }
        charge := charge.(status := answer.status.value);
      } else {
        if !answer.representable || answer.valorCents <= 0 { return; }
        charge := R.CobR(answer.idRec, answer.valorCents, R.CriadaR);
        if answer.status.Some? && answer.status.value != charge.status {
          charge := charge.(status := answer.status.value);
        }
      }
      SaveCobR(key, charge);
    }

    method HandleCobREvent(key: R.Id, eventKey: string, answer: R.CobRAnswer, fault: R.Fault)
      modifies this
      ensures View() == C.Do(old(View()), C.ChargeNotified(key, eventKey, answer, fault))
    {
      ghost var before := View();
      C.DoIsAtomic(before, C.ChargeNotified(key, eventKey, answer, fault));
      if fault.MarkFault? { return; }
      var cobrs0, processed0 := cobrs, processed;
      var first := MarkProcessed(R.Id(key.tenant, eventKey));
      if !first {
        assert processed == before.db.processed;
        return;
      }
      if answer.Charge? { RecordCobR(key, answer); }
      if answer.ChargeUnavailable? || fault.StoreFault? {
        cobrs, processed := cobrs0, processed0;
      }
    }

    /** The bank has answered with the mandate's identity before this store is read. */
    method CreateMandate(id: R.Id, valorCents: int, fault: bool) returns (r: Option<R.Rec>)
      modifies this
      ensures View() == C.Do(old(View()), C.CreateMandate(id, valorCents, fault))
      ensures r.Some? ==> id in recs && recs[id] == r.value
      ensures r.None? <==> valorCents < 0 || (fault && id !in old(recs))
      ensures r.Some? && id in old(recs) ==> View() == old(View())
      ensures r.Some? && id !in old(recs) ==>
        && r.value == R.Rec(valorCents, R.Criada) && recs == old(recs)[id := r.value]
        && trail == old(trail) + [R.Transition(id, R.Criada)] && bills == old(bills) + [R.MandateBill(id)]
      ensures asked == old(asked) && cobrs == old(cobrs) && processed == old(processed)
    {
      C.DoIsAtomic(View(), C.CreateMandate(id, valorCents, fault));
      if valorCents < 0 { return None; }
      if id in recs { return Some(recs[id]); }
      if fault { return None; }
      var rec := R.Rec(valorCents, R.Criada);
      SaveRec(id, rec);
      trail := trail + [R.Transition(id, rec.status)];
      bills := bills + [R.MandateBill(id)];
      return Some(rec);
    }

    method CancelMandate(id: R.Id, fault: bool)
      modifies this
      ensures View() == C.Do(old(View()), C.CancelMandate(id, fault))
      ensures !fault && id in old(recs) && (old(recs)[id].status == R.Criada || old(recs)[id].status == R.Aprovada) ==>
        recs == old(recs)[id := old(recs)[id].(status := R.Cancelada)] && trail == old(trail) + [R.Transition(id, R.Cancelada)]
      ensures fault || id !in old(recs) || R.IsTerminal(old(recs)[id].status) ==> View() == old(View())
    {
      C.DoIsAtomic(View(), C.CancelMandate(id, fault));
      if fault || id !in recs { return; }
      var rec := recs[id];
      if rec.status == R.Cancelada { return; }
      if !R.LegalMove(rec.status, R.Cancelada) { return; }
      SaveRec(id, rec.(status := R.Cancelada));
      trail := trail + [R.Transition(id, R.Cancelada)];
    }

    /** Idempotency lookup, referential gate, over-charge gate, bank, then one transaction. The refusal says
        which gate closed; the bank was asked exactly when all of them were open. */
    method OriginateCobR(id: R.Id, txId: string, valorCents: int, accepted: bool, fault: bool)
      returns (r: Option<R.CobR>, why: Option<Refusal>)
      modifies this
      ensures View() == C.Do(old(View()), C.OriginateCobR(id, txId, valorCents, accepted, fault))
      ensures r.Some? <==> why.None?
      ensures r.Some? ==> R.Id(id.tenant, txId) in cobrs && cobrs[R.Id(id.tenant, txId)] == r.value
      ensures R.Id(id.tenant, txId) in old(cobrs) ==> why == None && View() == old(View())
      ensures R.Id(id.tenant, txId) !in old(cobrs) ==>
        why == if id !in old(recs) then Some(MandateNotFound)
               else if old(recs)[id].status != R.Aprovada then Some(MandateNotApproved)
               else if 0 < old(recs)[id].valorCents < valorCents then Some(ChargeExceedsMandate)
               else if valorCents <= 0 then Some(InvalidAmount)
               else if !accepted then Some(BankRefused)
               else if fault then Some(StoreFailed) else None
      ensures recs == old(recs) && trail == old(trail) && processed == old(processed)
      ensures asked == if R.Id(id.tenant, txId) !in old(cobrs) && (why.None? || why == Some(BankRefused) || why == Some(StoreFailed))
                       then old(asked) + [R.Debit(id, txId, valorCents)] else old(asked)
      ensures R.Id(id.tenant, txId) !in old(cobrs) && why.None? ==>
        && r.value == R.CobR(id.name, valorCents, R.CriadaR) && cobrs == old(cobrs)[R.Id(id.tenant, txId) := r.value]
        && bills == old(bills) + [R.ChargeBill(R.Id(id.tenant, txId))]
      ensures why.Some? ==> cobrs == old(cobrs) && bills == old(bills)
    {
      C.DoIsAtomic(View(), C.OriginateCobR(id, txId, valorCents, accepted, fault));
      var key := R.Id(id.tenant, txId);
      if key in cobrs { return Some(cobrs[key]), None; }
      if id !in recs { return None, Some(MandateNotFound); }
      if recs[id].status != R.Aprovada { return None, Some(MandateNotApproved); }
      if recs[id].valorCents > 0 && valorCents > recs[id].valorCents { return None, Some(ChargeExceedsMandate); }
      if valorCents <= 0 { return None, Some(InvalidAmount); }
      asked := asked + [R.Debit(id, txId, valorCents)];
      if !accepted { return None, Some(BankRefused); }
      if fault { return None, Some(StoreFailed); }
      var charge := R.CobR(id.name, valorCents, R.CriadaR);
      SaveCobR(key, charge);
      bills := bills + [R.ChargeBill(key)];
      return Some(charge), None;
    }

    method RetryCobR(id: R.Id, txId: string) returns (why: Option<Refusal>)
      modifies this`asked
      ensures View() == C.Do(old(View()), C.RetryCobR(id, txId))
      ensures why == if id !in recs then Some(MandateNotFound) else if recs[id].status != R.Aprovada then Some(MandateNotApproved) else None
      ensures asked == if why.None? then old(asked) + [R.Retried(id, txId)] else old(asked)
    {
      C.DoIsAtomic(View(), C.RetryCobR(id, txId));
      if id !in recs { return Some(MandateNotFound); }
      if recs[id].status != R.Aprovada { return Some(MandateNotApproved); }
      asked := asked + [R.Retried(id, txId)];
      return None;
    }

    method CancelCobR(key: R.Id, fault: bool) returns (found: bool)
      modifies this`cobrs
      ensures View() == C.Do(old(View()), C.CancelCobR(key, fault))
      ensures found == (key in old(cobrs))
      ensures cobrs == if found && !fault && (old(cobrs)[key].status == R.CriadaR || old(cobrs)[key].status == R.Ativa)
                       then old(cobrs)[key := old(cobrs)[key].(status := R.CanceladaR)] else old(cobrs)
    {
      C.DoIsAtomic(View(), C.CancelCobR(key, fault));
      if key !in cobrs { return false; }
      if fault { return true; }
      var current := cobrs[key];
      if current.status == R.CanceladaR { return true; }
      if !R.LegalChargeMove(current.status, R.CanceladaR) { return true; }
      SaveCobR(key, current.(status := R.CanceladaR));
      return true;
    }
  }
}
