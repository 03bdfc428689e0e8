/** PIX Automático mandates and recurring charges. The durable mandate moves through tenant calls and
    reconciled webhooks; gates read it before the bank is asked to debit. Transactions, bank calls and
    the lookups between them are separate steps that interleave freely; a whole call is a run of its own
    steps with nothing in between. */
module Recurrence {
  import opened Wrappers

  datatype RecStatus = Criada | Aprovada | Rejeitada | Expirada | Cancelada

  predicate IsTerminal(s: RecStatus) {
    s.Rejeitada? || s.Expirada? || s.Cancelada?
  }

  /** The legal mandate moves; anything else is denied. */
  predicate LegalMove(from: RecStatus, to: RecStatus) {
    match from
    case Criada => !to.Criada?
    case Aprovada => to.Cancelada? || to.Expirada?
    case _ => false
  }

  /** A status as the bank spells it: one we know, or one outside the vocabulary. */
  datatype Wire = Known(status: RecStatus) | Foreign

  datatype Id = Id(tenant: string, name: string)

  datatype Rec = Rec(valorCents: int, status: RecStatus)

  datatype CobRStatus = CriadaR | Ativa | Concluida | ExpiradaR | RejeitadaR | CanceladaR

  predicate LegalChargeMove(from: CobRStatus, to: CobRStatus) {
    match from
    case CriadaR => !to.CriadaR?
    case Ativa => !to.CriadaR? && !to.Ativa?
    case _ => false
  }

  datatype CobR = CobR(idRec: string, valorCents: int, status: CobRStatus)

  /** One ledger entry: the priced endpoint and what it was billed for. */
  datatype Bill = MandateBill(id: Id) | ChargeBill(id: Id)

  datatype Transition = Transition(id: Id, status: RecStatus)

  datatype Db = Db(
    recs: map<Id, Rec>,
    cobrs: map<Id, CobR>,
    trail: seq<Transition>,
    bills: seq<Bill>,
    processed: set<Id>)

  /** What happened at the bank, in order: authoritative mandate reads and requests to debit. A retry reaches
      the bank with the charge's tx id alone; the mandate in it is the one the caller named at the gate. */
  datatype Event = Read(id: Id, status: Wire) | Debit(id: Id, txId: string, valorCents: int) | Retried(id: Id, txId: string)

  /** A call between two of its steps. */
  datatype Pending =
    | Registered(id: Id, valorCents: int)
    | Saving(id: Id, valorCents: int)
    | CancelledAtBank(id: Id)
    | Unrecorded(id: Id, txId: string, valorCents: int)
    | Gated(id: Id, txId: string, valorCents: int)
    | Debited(id: Id, txId: string, valorCents: int)
    | RetryGated(id: Id, txId: string)
    | Cancelling(key: Id)
    | ChargeCancelledAtBank(key: Id)

  datatype State = State(db: Db, log: seq<Event>, calls: map<nat, Pending>)

  const INIT := State(Db(map[], map[], [], [], {}), [], map[])

  // ---- transaction bodies ----

  /** Where the transaction of a notification fails, if it does: at the mark, before the bank is read, or
      after. */
  datatype Fault = NoFault | MarkFault | StoreFault

  datatype RecAnswer = NoSuchMandate | Unavailable | Mandate(status: Wire, valorCents: int, representable: bool)

  datatype CobRAnswer = NoSuchCharge | ChargeUnavailable | Charge(idRec: string, valorCents: int, status: Option<CobRStatus>, representable: bool)

  function SaveStatus(db: Db, id: Id, valorCents: int, status: RecStatus): Db {
    db.(recs := db.recs[id := if id in db.recs then db.recs[id].(status := status) else Rec(valorCents, status)],
        trail := db.trail + [Transition(id, status)])
  }

  /** Records a reconciled mandate: create it on first sight, move it when legal, drop anything stale. */
  function RecordRec(db: Db, id: Id, m: RecAnswer): Db
    requires m.Mandate?
  {
    if id in db.recs then
      if m.status.Known? && LegalMove(db.recs[id].status, m.status.status)
      then SaveStatus(db, id, m.valorCents, m.status.status) else db
    else if !m.representable || m.valorCents < 0 || m.status.Foreign? then db
    else SaveStatus(db, id, m.valorCents, m.status.status)
  }

  function HandleRec(db: Db, id: Id, eventKey: string, answer: RecAnswer, fault: Fault): Db {
    var mark := Id(id.tenant, eventKey);
    if mark in db.processed || !fault.NoFault? || answer.Unavailable? then db
    else
      var marked := db.(processed := db.processed + {mark});
      if answer.NoSuchMandate? then marked else RecordRec(marked, id, answer)
  }

  /** Persists a mandate just registered at the bank; the insert becomes a status overwrite when the row
      already exists. */
  function SaveMandate(db: Db, id: Id, valorCents: int): Db {
    SaveStatus(db, id, valorCents, Criada).(bills := db.bills + [MandateBill(id)])
  }

  function CommitCancel(db: Db, id: Id): Db {
    if id in db.recs && LegalMove(db.recs[id].status, Cancelada) then SaveStatus(db, id, 0, Cancelada) else db
  }

  /** The charge upsert: a row already there keeps its registration and takes the new status. */
  function PutCharge(db: Db, key: Id, c: CobR): Db {
    db.(cobrs := db.cobrs[key := if key in db.cobrs then db.cobrs[key].(status := c.status) else c])
  }

  function SaveCharge(db: Db, id: Id, txId: string, valorCents: int): Db {
    var key := Id(id.tenant, txId);
    PutCharge(db, key, CobR(id.name, valorCents, CriadaR)).(bills := db.bills + [ChargeBill(key)])
  }

  function CommitChargeCancel(db: Db, key: Id): Db {
    if key in db.cobrs && LegalChargeMove(db.cobrs[key].status, CanceladaR)
    then PutCharge(db, key, db.cobrs[key].(status := CanceladaR)) else db
  }

  /** Records a reconciled charge. One first heard of here is kept even when its status is unknown. */
  function RecordCobR(db: Db, key: Id, c: CobRAnswer): Db
    requires c.Charge?
  {
    if key in db.cobrs then
      if c.status.Some? && LegalChargeMove(db.cobrs[key].status, c.status.value)
      then PutCharge(db, key, db.cobrs[key].(status := c.status.value)) else db
    else if !c.representable || c.valorCents <= 0 then db
    else PutCharge(db, key, CobR(c.idRec, c.valorCents, if c.status.Some? then c.status.value else CriadaR))
  }

  function HandleCobR(db: Db, key: Id, eventKey: string, answer: CobRAnswer, fault: Fault): Db {
    var mark := Id(key.tenant, eventKey);
    if mark in db.processed || !fault.NoFault? || answer.ChargeUnavailable? then db
    else
      var marked := db.(processed := db.processed + {mark});
      if answer.NoSuchCharge? then marked else RecordCobR(marked, key, answer)
  }

  /** What a fault-free notification under a new event key does to a charge on record, status by status: an
      unsettled one takes any status later than its own, a settled one keeps its own. */
  lemma ChargeTakesTheReading(db: Db, key: Id, eventKey: string, answer: CobRAnswer)
    requires key in db.cobrs && Id(key.tenant, eventKey) !in db.processed && answer.Charge?
    ensures var db' := HandleCobR(db, key, eventKey, answer, NoFault);
      && db' == db.(processed := db.processed + {Id(key.tenant, eventKey)}, cobrs := db'.cobrs)
      && db'.cobrs == db.cobrs[key := db'.cobrs[key]] && db'.cobrs[key] == db.cobrs[key].(status := db'.cobrs[key].status)
      && db'.cobrs[key].status ==
           (match db.cobrs[key].status
            case CriadaR => if answer.status.Some? then answer.status.value else CriadaR
            case Ativa =>
              if answer.status == Some(Concluida) || answer.status == Some(ExpiradaR)
                 || answer.status == Some(RejeitadaR) || answer.status == Some(CanceladaR) then answer.status.value else Ativa
            case Concluida => Concluida
            case ExpiradaR => ExpiradaR
            case RejeitadaR => RejeitadaR
            case CanceladaR => CanceladaR)
  {
  }

  /** The same for a mandate, with its audit entry exactly when it moves. */
  lemma MandateTakesTheReading(db: Db, id: Id, eventKey: string, answer: RecAnswer)
    requires id in db.recs && Id(id.tenant, eventKey) !in db.processed && answer.Mandate?
    ensures var db' := HandleRec(db, id, eventKey, answer, NoFault);
      && db' == db.(processed := db.processed + {Id(id.tenant, eventKey)}, recs := db'.recs, trail := db'.trail)
      && db'.recs == db.recs[id := db'.recs[id]] && db'.recs[id] == db.recs[id].(status := db'.recs[id].status)
      && db'.recs[id].status ==
           (match db.recs[id].status
            case Criada => if answer.status.Known? then answer.status.status else Criada
            case Aprovada =>
              if answer.status == Known(Cancelada) || answer.status == Known(Expirada) then answer.status.status else Aprovada
            case Rejeitada => Rejeitada
            case Expirada => Expirada
            case Cancelada => Cancelada)
      && db'.trail == if db'.recs[id].status != db.recs[id].status then db.trail + [Transition(id, answer.status.status)] else db.trail
  {
  }

  /** First sight: the row is created as the bank describes it, a mandate only at a known status. */
  lemma FirstSightCreatesTheRow(db: Db, id: Id, eventKey: string, m: RecAnswer, c: CobRAnswer)
    requires Id(id.tenant, eventKey) !in db.processed && m.Mandate? && c.Charge?
    ensures var recs := HandleRec(db, id, eventKey, m, NoFault).recs;
      id !in db.recs ==>
        (if m.representable && m.valorCents >= 0 && m.status.Known?
         then recs == db.recs[id := Rec(m.valorCents, m.status.status)] else recs == db.recs)
    ensures var cobrs := HandleCobR(db, id, eventKey, c, NoFault).cobrs;
      id !in db.cobrs ==>
        (if c.representable && c.valorCents > 0
         then cobrs == db.cobrs[id := CobR(c.idRec, c.valorCents, if c.status.Some? then c.status.value else CriadaR)] else cobrs == db.cobrs)
  {
  }

  /** A delivery that was seen before, fails, or finds the bank silent changes nothing; one the bank does not
      know only leaves its mark. */
  lemma IdleNotifications(db: Db, id: Id, eventKey: string, m: RecAnswer, c: CobRAnswer, fault: Fault)
    ensures Id(id.tenant, eventKey) in db.processed || fault != NoFault || m == Unavailable ==> HandleRec(db, id, eventKey, m, fault) == db
    ensures Id(id.tenant, eventKey) in db.processed || fault != NoFault || c == ChargeUnavailable ==> HandleCobR(db, id, eventKey, c, fault) == db
    ensures Id(id.tenant, eventKey) !in db.processed ==>
      && HandleRec(db, id, eventKey, NoSuchMandate, NoFault) == db.(processed := db.processed + {Id(id.tenant, eventKey)})
      && HandleCobR(db, id, eventKey, NoSuchCharge, NoFault) == db.(processed := db.processed + {Id(id.tenant, eventKey)})
  {
  }

  /** The gate before any debit: a durable approved mandate of the same tenant, and the payer's ceiling. */
  predicate MayDebit(db: Db, id: Id, valorCents: int) {
    && id in db.recs && db.recs[id].status == Aprovada
    && (db.recs[id].valorCents > 0 ==> valorCents <= db.recs[id].valorCents)
    && valorCents > 0
  }

  predicate MayRetry(db: Db, id: Id) {
    id in db.recs && db.recs[id].status == Aprovada
  }

  // ---- steps ----

  datatype Step =
    | RecEvent(id: Id, eventKey: string, answer: RecAnswer, broken: Fault)
    | CobREvent(key: Id, eventKey: string, charge: CobRAnswer, broken: Fault)
    | RegisterAtBank(c: nat, id: Id, valorCents: int)
    | LookUpMandate(c: nat)
    | StoreMandate(c: nat, fault: bool)
    | CancelAtBank(c: nat, id: Id)
    | StoreCancel(c: nat, fault: bool)
    | LookUpCharge(c: nat, id: Id, txId: string, valorCents: int)
    | PassGate(c: nat)
    | DebitAtBank(c: nat, accepted: bool)
    | StoreCharge(c: nat, fault: bool)
    | PassRetryGate(c: nat, id: Id, txId: string)
    | RetryAtBank(c: nat)
    | FindCharge(c: nat, key: Id)
    | CancelChargeAtBank(c: nat)
    | StoreChargeCancel(c: nat, fault: bool)
    | Crash(c: nat)

  function Ended(s: State, c: nat): State {
    s.(calls := s.calls - {c})
  }

  function Waiting(s: State, c: nat, p: Pending): State {
    s.(calls := s.calls[c := p])
  }

  /** One step; a step its call is not ready for does nothing. */
  function Apply(s: State, step: Step): State {
    match step
    case RecEvent(id, key, answer, fault) =>
      var read := answer.Mandate? && Id(id.tenant, key) !in s.db.processed && !fault.MarkFault?;
      s.(db := HandleRec(s.db, id, key, answer, fault),
         log := if read then s.log + [Read(id, answer.status)] else s.log)
    case CobREvent(key, eventKey, charge, fault) => s.(db := HandleCobR(s.db, key, eventKey, charge, fault))
    case RegisterAtBank(c, id, v) => if c in s.calls || v < 0 then s else Waiting(s, c, Registered(id, v))
    case LookUpMandate(c) =>
      if !(c in s.calls && s.calls[c].Registered?) then s
      else if s.calls[c].id in s.db.recs then Ended(s, c)
      else Waiting(s, c, Saving(s.calls[c].id, s.calls[c].valorCents))
    case StoreMandate(c, fault) =>
      if !(c in s.calls && s.calls[c].Saving?) then s
      else Ended(s, c).(db := if fault then s.db else SaveMandate(s.db, s.calls[c].id, s.calls[c].valorCents))
    case CancelAtBank(c, id) => if c in s.calls then s else Waiting(s, c, CancelledAtBank(id))
    case StoreCancel(c, fault) =>
      if !(c in s.calls && s.calls[c].CancelledAtBank?) then s
      else Ended(s, c).(db := if fault then s.db else CommitCancel(s.db, s.calls[c].id))
    case LookUpCharge(c, id, tx, v) =>
      if c in s.calls || Id(id.tenant, tx) in s.db.cobrs then s else Waiting(s, c, Unrecorded(id, tx, v))
    case PassGate(c) =>
      if !(c in s.calls && s.calls[c].Unrecorded?) then s
      else
        var u := s.calls[c];
        if MayDebit(s.db, u.id, u.valorCents) then Waiting(s, c, Gated(u.id, u.txId, u.valorCents)) else Ended(s, c)
    case DebitAtBank(c, accepted) =>
      if !(c in s.calls && s.calls[c].Gated?) then s
      else
        var g := s.calls[c];
        var asked := s.(log := s.log + [Debit(g.id, g.txId, g.valorCents)]);
        if accepted then Waiting(asked, c, Debited(g.id, g.txId, g.valorCents)) else Ended(asked, c)
    case StoreCharge(c, fault) =>
      if !(c in s.calls && s.calls[c].Debited?) then s
      else
        var d := s.calls[c];
        Ended(s, c).(db := if fault then s.db else SaveCharge(s.db, d.id, d.txId, d.valorCents))
    case PassRetryGate(c, id, tx) =>
      if c in s.calls || !MayRetry(s.db, id) then s else Waiting(s, c, RetryGated(id, tx))
    case RetryAtBank(c) =>
      if !(c in s.calls && s.calls[c].RetryGated?) then s
      else Ended(s, c).(log := s.log + [Retried(s.calls[c].id, s.calls[c].txId)])
    case FindCharge(c, key) =>
      if c in s.calls || key !in s.db.cobrs then s else Waiting(s, c, Cancelling(key))
    case CancelChargeAtBank(c) =>
      if !(c in s.calls && s.calls[c].Cancelling?) then s
      else Waiting(s, c, ChargeCancelledAtBank(s.calls[c].key))
    case StoreChargeCancel(c, fault) =>
      if !(c in s.calls && s.calls[c].ChargeCancelledAtBank?) then s
      else Ended(s, c).(db := if fault then s.db else CommitChargeCancel(s.db, s.calls[c].key))
    case Crash(c) => Ended(s, c)
  }

  /** A crash ends its own call and nothing else. */
  lemma CrashForgetsTheCall(s: State, c: nat)
    ensures var s' := Apply(s, Crash(c)); s'.db == s.db && s'.log == s.log && c !in s'.calls
    ensures forall d :: d != c ==> (d in Apply(s, Crash(c)).calls <==> d in s.calls) && (d in s.calls ==> Apply(s, Crash(c)).calls[d] == s.calls[d])
  {
  }

  function Run(s: State, steps: seq<Step>): State {
    if steps == [] then s else Apply(Run(s, steps[..|steps| - 1]), steps[|steps| - 1])
  }

  lemma RunTwo(s: State, a: Step, b: Step)
    ensures Run(s, [a, b]) == Apply(Apply(s, a), b)
  {
    assert [a, b][..1] == [a] && [a][..0] == [];
    assert Run(s, [a]) == Apply(Run(s, []), a);
  }

  lemma RunThree(s: State, a: Step, b: Step, c: Step)
    ensures Run(s, [a, b, c]) == Apply(Apply(Apply(s, a), b), c)
  {
    RunTwo(s, a, b);
    assert [a, b, c][..2] == [a, b];
  }

  lemma RunAppends(s: State, a: seq<Step>, b: seq<Step>)
    ensures Run(s, a + b) == Run(Run(s, a), b)
    decreases |b|
  {
    if b == [] {
      assert a + b == a;
    } else {
      assert (a + b)[..|a + b| - 1] == a + b[..|b| - 1];
      RunAppends(s, a, b[..|b| - 1]);
    }
  }

  // ---- every interleaving: no debit without approval, none above the ceiling ----

  ghost predicate ApprovedBefore(log: seq<Event>, k: nat, id: Id) {
    exists j :: 0 <= j < k && j < |log| && log[j] == Read(id, Known(Aprovada))
  }

  predicate WithinCeiling(db: Db, id: Id, valorCents: int) {
    id in db.recs && (db.recs[id].valorCents > 0 ==> valorCents <= db.recs[id].valorCents)
  }

  ghost predicate EventOk(s: State, k: nat)
    requires k < |s.log|
  {
    match s.log[k]
    case Read(_, _) => true
    case Debit(id, _, v) => ApprovedBefore(s.log, k, id) && WithinCeiling(s.db, id, v)
    case Retried(id, _) => ApprovedBefore(s.log, k, id)
  }

  ghost predicate PendingOk(s: State, p: Pending) {
    match p
    case Gated(id, _, v) => ApprovedBefore(s.log, |s.log|, id) && WithinCeiling(s.db, id, v)
    case RetryGated(id, _) => ApprovedBefore(s.log, |s.log|, id)
    case _ => true
  }

  ghost predicate Inv(s: State) {
    && (forall id :: id in s.db.recs && s.db.recs[id].status == Aprovada ==> ApprovedBefore(s.log, |s.log|, id))
    && (forall k :: 0 <= k < |s.log| ==> EventOk(s, k))
    && (forall c :: c in s.calls ==> PendingOk(s, s.calls[c]))
  }

  /** Rows are never dropped and the authorised value never changes. */
  ghost predicate Keeps(a: Db, b: Db) {
    forall id :: id in a.recs ==> id in b.recs && b.recs[id].valorCents == a.recs[id].valorCents
  }

  lemma StepKeepsRows(s: State, step: Step)
    ensures Keeps(s.db, Apply(s, step).db)
    ensures s.log <= Apply(s, step).log
  {
  }

  /** Facts about the past survive a longer log and a store that only keeps its rows. */
  lemma PastSurvives(s: State, s': State)
    requires Inv(s) && Keeps(s.db, s'.db) && s.log <= s'.log
    ensures forall k :: 0 <= k < |s.log| ==> EventOk(s', k)
    ensures forall p :: PendingOk(s, p) ==> PendingOk(s', p)
    ensures forall id, k: nat :: ApprovedBefore(s.log, k, id) ==> ApprovedBefore(s'.log, k, id)
    ensures forall id :: ApprovedBefore(s.log, |s.log|, id) ==> ApprovedBefore(s'.log, |s'.log|, id)
  {
    forall id, k: nat | ApprovedBefore(s.log, k, id) ensures ApprovedBefore(s'.log, k, id) {
      var j :| 0 <= j < k && j < |s.log| && s.log[j] == Read(id, Known(Aprovada));
      assert s'.log[j] == s.log[j];
    }
    forall id | ApprovedBefore(s.log, |s.log|, id) ensures ApprovedBefore(s'.log, |s'.log|, id) {
      var j :| 0 <= j < |s.log| && s.log[j] == Read(id, Known(Aprovada));
      assert s'.log[j] == s.log[j];
    }
    forall k | 0 <= k < |s.log| ensures EventOk(s', k) {
      assert EventOk(s, k) && s'.log[k] == s.log[k];
    }
  }

  lemma RecEventKeepsInv(s: State, step: Step)
    requires Inv(s) && step.RecEvent?
    ensures Inv(Apply(s, step))
  {
    var s' := Apply(s, step);
    StepKeepsRows(s, step);
    PastSurvives(s, s');
    forall id | id in s'.db.recs && s'.db.recs[id].status == Aprovada ensures ApprovedBefore(s'.log, |s'.log|, id) {
      if id in s.db.recs && s.db.recs[id].status == Aprovada {
        assert ApprovedBefore(s.log, |s.log|, id);
      } else {
        assert s'.log == s.log + [Read(id, Known(Aprovada))];
        assert s'.log[|s.log|] == Read(id, Known(Aprovada));
      }
    }
  }

  lemma BankStepKeepsInv(s: State, step: Step)
    requires Inv(s) && (step.DebitAtBank? || step.RetryAtBank?)
    ensures Inv(Apply(s, step))
  {
    var s' := Apply(s, step);
    StepKeepsRows(s, step);
    PastSurvives(s, s');
    if s'.log != s.log {
      var p := s.calls[step.c];
      assert PendingOk(s, p);
      assert ApprovedBefore(s'.log, |s.log|, p.id);
      assert EventOk(s', |s.log|);
    }
  }

  /** Only a notification approves a mandate. */
  lemma ApprovalsComeFromNotices(s: State, step: Step, id: Id)
    requires !step.RecEvent? && id in Apply(s, step).db.recs && Apply(s, step).db.recs[id].status == Aprovada
    ensures id in s.db.recs && s.db.recs[id].status == Aprovada
  {
  }

  lemma StepKeepsInv(s: State, step: Step)
    requires Inv(s)
    ensures Inv(Apply(s, step))
  {
    var s' := Apply(s, step);
    if step.RecEvent? {
      RecEventKeepsInv(s, step);
    } else if step.DebitAtBank? || step.RetryAtBank? {
      BankStepKeepsInv(s, step);
    } else {
      StepKeepsRows(s, step);
      PastSurvives(s, s');
      assert s'.log == s.log;
      forall id | id in s'.db.recs && s'.db.recs[id].status == Aprovada ensures ApprovedBefore(s'.log, |s'.log|, id) {
        ApprovalsComeFromNotices(s, step, id);
      }
    }
  }

  lemma {:induction false} RunKeepsInv(steps: seq<Step>)
    ensures Inv(Run(INIT, steps))
  {
    if steps != [] {
      RunKeepsInv(steps[..|steps| - 1]);
      StepKeepsInv(Run(INIT, steps[..|steps| - 1]), steps[|steps| - 1]);
    }
  }

  /** The charge is on record under this mandate. */
  predicate OwnCharge(db: Db, id: Id, txId: string) {
    Id(id.tenant, txId) in db.cobrs && db.cobrs[Id(id.tenant, txId)].idRec == id.name
  }

  /** In every interleaving, each request to debit follows an authoritative approved reading of the same
      tenant's mandate and stays within a fixed mandate's ceiling; each retry follows such a reading of the
      mandate its caller named, which is the charge's own when it is on record under that one. */
  lemma DebitsAreAuthorised(steps: seq<Step>, k: nat)
    requires k < |Run(INIT, steps).log|
    ensures var s := Run(INIT, steps);
      && (s.log[k].Debit? ==> ApprovedBefore(s.log, k, s.log[k].id) && WithinCeiling(s.db, s.log[k].id, s.log[k].valorCents))
      && (s.log[k].Retried? ==> ApprovedBefore(s.log, k, s.log[k].id))
      && (s.log[k].Retried? && OwnCharge(s.db, s.log[k].id, s.log[k].txId) ==>
            ApprovedBefore(s.log, k, Id(s.log[k].id.tenant, s.db.cobrs[Id(s.log[k].id.tenant, s.log[k].txId)].idRec)))
  {
    RunKeepsInv(steps);
    assert EventOk(Run(INIT, steps), k);
  }

  // ---- when a mandate and a charge move only legally ----

  ghost predicate Monotone(a: Db, b: Db) {
    && (forall id :: id in a.recs && id in b.recs && a.recs[id] != b.recs[id] ==> LegalMove(a.recs[id].status, b.recs[id].status))
    && (forall key :: key in a.cobrs && key in b.cobrs && a.cobrs[key] != b.cobrs[key] ==> LegalChargeMove(a.cobrs[key].status, b.cobrs[key].status))
  }

  /** Creation and origination look for an existing row outside their transaction, so the write can land
      on a row that appeared and moved on in between. */
  predicate Overwrites(s: State, step: Step) {
    || (&& step.StoreMandate? && !step.fault && step.c in s.calls && s.calls[step.c].Saving?
        && s.calls[step.c].id in s.db.recs && s.db.recs[s.calls[step.c].id].status != Criada)
    || (&& step.StoreCharge? && !step.fault && step.c in s.calls && s.calls[step.c].Debited?
        && var key := Id(s.calls[step.c].id.tenant, s.calls[step.c].txId);
           key in s.db.cobrs && s.db.cobrs[key].status != CriadaR)
  }

  /** A step moves every mandate and charge legally exactly when it is not such an overwrite. */
  lemma MonotoneExactlyUnlessOverwriting(s: State, step: Step)
    ensures Monotone(s.db, Apply(s, step).db) <==> !Overwrites(s, step)
  {
    var s' := Apply(s, step);
    if Overwrites(s, step) {
      var p := s.calls[step.c];
      if step.StoreMandate? {
        assert s.db.recs[p.id] != s'.db.recs[p.id];
      } else {
        var key := Id(p.id.tenant, p.txId);
        assert s.db.cobrs[key] != s'.db.cobrs[key];
      }
    }
  }

  lemma RunFour(s: State, a: Step, b: Step, c: Step, d: Step)
    ensures Run(s, [a, b, c, d]) == Apply(Apply(Apply(Apply(s, a), b), c), d)
  {
    RunThree(s, a, b, c);
    assert [a, b, c, d][..3] == [a, b, c];
  }

  /** The race itself: a webhook cancels the mandate between the creation's lookup and its write, and
      the write brings a terminal mandate back. */
  lemma CreationCanReviveAMandate(id: Id)
    ensures var steps := [RegisterAtBank(0, id, 0), LookUpMandate(0),
                          RecEvent(id, "k", Mandate(Known(Cancelada), 0, true), NoFault), StoreMandate(0, false)];
      && Run(INIT, steps[..3]).db.recs == map[id := Rec(0, Cancelada)]
      && Run(INIT, steps).db.recs == map[id := Rec(0, Criada)]
  {
    var steps := [RegisterAtBank(0, id, 0), LookUpMandate(0),
                  RecEvent(id, "k", Mandate(Known(Cancelada), 0, true), NoFault), StoreMandate(0, false)];
    RunThree(INIT, steps[0], steps[1], steps[2]);
    RunFour(INIT, steps[0], steps[1], steps[2], steps[3]);
    assert steps[..3] == [steps[0], steps[1], steps[2]];
  }

  /** The mandate approved, and an origination under it carried through to the bank. */
  function Underway(id: Id, tx: string): seq<Step> {
    [RecEvent(id, "m", Mandate(Known(Aprovada), 0, true), NoFault), LookUpCharge(0, id, tx, 1), PassGate(0), DebitAtBank(0, true)]
  }

  lemma UnderwayRuns(id: Id, tx: string)
    ensures var s := Run(INIT, Underway(id, tx));
      s.db.cobrs == map[] && s.db.processed == {Id(id.tenant, "m")} && 0 in s.calls && s.calls[0] == Debited(id, tx, 1)
  {
    var u := Underway(id, tx);
    RunFour(INIT, u[0], u[1], u[2], u[3]);
    var s1 := Apply(INIT, u[0]);
    assert MayDebit(s1.db, id, 1) && s1.calls == map[];
  }

  /** The same race for a charge: a webhook records it as settled before the origination's own write, which
      puts it back to its initial state. */
  lemma OriginationCanReviveACharge(id: Id, tx: string)
    ensures var key := Id(id.tenant, tx); var u := Underway(id, tx);
      var settled := CobREvent(key, "c", Charge(id.name, 1, Some(Concluida), true), NoFault);
      && Run(INIT, u + [settled]).db.cobrs == map[key := CobR(id.name, 1, Concluida)]
      && Run(INIT, u + [settled, StoreCharge(0, false)]).db.cobrs == map[key := CobR(id.name, 1, CriadaR)]
  {
    var key, u := Id(id.tenant, tx), Underway(id, tx);
    var settled := CobREvent(key, "c", Charge(id.name, 1, Some(Concluida), true), NoFault);
    UnderwayRuns(id, tx);
    assert "c"[0] != "m"[0];
    assert (u + [settled])[..|u|] == u;
    RunAppends(INIT, u, [settled, StoreCharge(0, false)]);
    RunTwo(Run(INIT, u), settled, StoreCharge(0, false));
  }
}
