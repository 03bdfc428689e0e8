/** Charge creation and webhook settlement as one interleaved state machine. Each transaction body is
    one atomic step; everything between two of them (a lookup outside a transaction, the bank call, a
    crash) is a step of its own, and any number of requests and deliveries interleave freely. */
module ChargeProtocol {
  import opened Wrappers
  import opened Text
  import opened PaymentStore

  /** The five services that create a billable charge over one tenant's idempotency-key space. */
  datatype Service = GenericCharge | PixImmediate | PixDue | HostedCheckout | BoletoRegistration

  /** Checkout and boleto call the bank on a replay too, and only then notice it was billed. */
  predicate CallsBankOnReplay(s: Service) {
    s.HostedCheckout? || s.BoletoRegistration?
  }

  /** Where one request stands. A held payment is the snapshot the request read, not the row. */
  datatype Pc =
    | Looking
    | Reserving(p: Payment)
    | Resolving
    | Holding(p: Payment)
    | Charged(p: Payment)
    | Finished(result: Option<Payment>)

  datatype Request = Request(
    service: Service, tenant: string, key: string, endpoint: string, amountCents: int, pc: Pc)

  datatype Delivery = Delivery(tenant: string, eventKey: string, outcome: Outcome)

  /** A paid event announced to the bus. */
  datatype Publication = Publication(tenant: string, eventKey: string, payment: string)

  datatype State = State(
    db: Db,
    requests: map<nat, Request>,
    issued: set<string>,
    deliveries: seq<Delivery>,
    published: seq<Publication>)

  const INIT := State(EMPTY_DB, map[], {}, [], [])

  datatype Step =
    | Begin(r: nat, req: Request)
    | Lookup(r: nat, found: Option<Payment>, freshId: string)
    | Reserve(r: nat, fault: bool)
    | Resolve(r: nat, found: Option<Payment>)
    | Replay(r: nat)
    | BankCreate(r: nat, tx: Option<string>)
    | Finalise(r: nat, found: Option<Payment>, entryId: string, priceCents: nat, fault: bool)
    | Crash(r: nat)
    | Deliver(ev: PaymentEvent, reading: Reading, found: Option<Payment>, faults: Faults, crashed: bool)

  /** Tenant ids come from the tenant store, which holds them trimmed; ids are freshly minted. */
  ghost predicate Enabled(s: State, step: Step) {
    match step
    case Begin(r, req) => r !in s.requests && req.pc == Looking && req.key != "" && Trimmed(req.tenant)
    case Lookup(r, found, freshId) =>
      && r in s.requests && s.requests[r].pc.Looking?
      && FoundByKey(s.db, s.requests[r].tenant, s.requests[r].key, found)
      && Trimmed(freshId) && freshId !in s.issued
    case Reserve(r, _) => r in s.requests && s.requests[r].pc.Reserving?
    case Resolve(r, found) =>
      && r in s.requests && s.requests[r].pc.Resolving?
      && FoundByKey(s.db, s.requests[r].tenant, s.requests[r].key, found)
    case Replay(r) =>
      && r in s.requests && s.requests[r].pc.Holding?
      && s.requests[r].pc.p.txId != "" && !CallsBankOnReplay(s.requests[r].service)
    case BankCreate(r, _) =>
      && r in s.requests && s.requests[r].pc.Holding?
      && (s.requests[r].pc.p.txId == "" || CallsBankOnReplay(s.requests[r].service))
    case Finalise(r, found, entryId, _, _) =>
      && r in s.requests && s.requests[r].pc.Charged?
      && FoundByKey(s.db, s.requests[r].tenant, s.requests[r].key, found)
      && entryId !in s.issued
    case Crash(r) => r in s.requests
    case Deliver(ev, reading, found, _, _) =>
      reading.Read? ==> FoundByTx(s.db, ev.tenant, SettlementKey(ev, reading.res), found)
  }

  /** A replay of a billed key answers from the row, except that checkout and boleto ask the bank first. */
  lemma ReplaysExactly(s: State, r: nat, tx: Option<string>)
    requires r in s.requests && s.requests[r].pc.Holding?
    ensures Enabled(s, Replay(r)) <==>
      (s.requests[r].pc.p.txId != "" && (s.requests[r].service.GenericCharge? || s.requests[r].service.PixImmediate? || s.requests[r].service.PixDue?))
    ensures Enabled(s, BankCreate(r, tx)) <==> !Enabled(s, Replay(r))
  {
  }

  function At(s: State, r: nat, pc: Pc): State
    requires r in s.requests
  {
    s.(requests := s.requests[r := s.requests[r].(pc := pc)])
  }

  ghost function Apply(s: State, step: Step): State
    requires Enabled(s, step)
  {
    match step
    case Begin(r, req) => s.(requests := s.requests[r := req])
    case Lookup(r, found, freshId) =>
      var req := s.requests[r];
      if found.Some? then At(s, r, Holding(found.value))
      else
        (match NewPayment(freshId, req.tenant, req.endpoint, req.key, req.amountCents)
         case None => At(s, r, Finished(None))
         case Some(p) => At(s, r, Reserving(p)).(issued := s.issued + {freshId}))
    case Reserve(r, fault) =>
      var p := s.requests[r].pc.p;
      if fault then At(s, r, Finished(None))
      else
        (match SavePayment(s.db, p)
         case Conflict => At(s, r, Resolving)
         case Saved(db) => At(s, r, Holding(p)).(db := db))
    case Resolve(r, found) =>
      At(s, r, if found.Some? then Holding(found.value) else Finished(None))
    case Replay(r) => At(s, r, Finished(Some(s.requests[r].pc.p)))
    case BankCreate(r, tx) =>
      var p := s.requests[r].pc.p;
      At(s, r, if tx.None? then Finished(None)
               else if p.txId != "" then Finished(Some(p))
               else Charged(p.(txId := Trim(tx.value))))
    case Finalise(r, found, entryId, price, fault) =>
      var req := s.requests[r];
      var entry := LedgerEntry(entryId, req.tenant, req.endpoint, req.pc.p.id, price);
      if fault then At(s, r, Finished(None))
      else
        (match Finalize(s.db, found, req.pc.p, entry)
         case Adopted(p) => At(s, r, Finished(Some(p)))
         case SaveRefused => At(s, r, Finished(None))
         case Billed(db) => At(s, r, Finished(Some(req.pc.p))).(db := db, issued := s.issued + {entryId}))
    case Crash(r) => At(s, r, Finished(None))
    case Deliver(ev, reading, found, faults, crashed) =>
      var res := Settle(s.db, ev, reading, found, faults);
      s.(db := res.db,
         deliveries := s.deliveries + [Delivery(ev.tenant, ev.eventKey, res.outcome)],
         published := if res.outcome.Settled? && !crashed then s.published + [Publication(ev.tenant, ev.eventKey, res.outcome.p.id)] else s.published)
  }

  // ---- runs ----

  ghost predicate Legal(steps: seq<Step>)
    decreases |steps|, 0
  {
    steps == [] || (var n := |steps| - 1; Legal(steps[..n]) && Enabled(After(steps[..n]), steps[n]))
  }

  /** The state a legal run reaches from the empty system. */
  ghost function After(steps: seq<Step>): State
    requires Legal(steps)
    decreases |steps|, 1
  {
    if steps == [] then INIT
    else var n := |steps| - 1; Apply(After(steps[..n]), steps[n])
  }

  /** What the platform relies on from outside: the caller's key carries no surrounding space, and the
      bank's tx id is not blank. */
  predicate WellFedStep(step: Step) {
    match step
    case Begin(_, req) => Trimmed(req.key)
    case BankCreate(_, tx) => tx.Some? ==> Trim(tx.value) != ""
    case _ => true
  }

  predicate WellFed(steps: seq<Step>) {
    forall i :: 0 <= i < |steps| ==> WellFedStep(steps[i])
  }

  // ---- the invariant over requests ----

  /** The request's payment is a row of the store under the request's own tenant and key. */
  predicate Owns(db: Db, req: Request, p: Payment) {
    p.id in db.payments && db.payments[p.id].tenant == req.tenant && db.payments[p.id].key == req.key
  }

  predicate RequestOk(db: Db, issued: set<string>, req: Request) {
    && Trimmed(req.key) && Trimmed(req.tenant)
    && match req.pc
       case Looking => true
       case Resolving => true
       case Finished(_) => true
       case Reserving(p) =>
         && p.id in issued && p.id !in db.payments
         && p.txId == "" && p.status == Pending && p.tenant == req.tenant && p.key == req.key
       case Holding(p) => Owns(db, req, p) && (p.txId == "" ==> p.status == Pending)
       case Charged(p) => Owns(db, req, p) && p.status == Pending && p.txId != "" && Trimmed(p.txId)
  }

  ghost predicate RequestsOk(s: State) {
    forall r :: r in s.requests ==> RequestOk(s.db, s.issued, s.requests[r])
  }

  /** Two requests never reserve the same freshly minted id. */
  ghost predicate DistinctReservations(s: State) {
    forall r, q | r in s.requests && q in s.requests && s.requests[r].pc.Reserving? && s.requests[q].pc.Reserving? ::
      s.requests[r].pc.p.id == s.requests[q].pc.p.id ==> r == q
  }

  ghost predicate Inv(s: State) {
    Valid(s.db) && s.db.payments.Keys <= s.issued && RequestsOk(s) && DistinctReservations(s)
  }

  /** A request stays well placed when the store only advances and no new row takes its reserved id. */
  lemma RequestsSurvive(s: State, db: Db, issued: set<string>)
    requires RequestsOk(s) && Advances(s.db, db) && s.issued <= issued
    requires forall r :: r in s.requests && s.requests[r].pc.Reserving? && s.requests[r].pc.p.id in db.payments
               ==> s.requests[r].pc.p.id in s.db.payments
    ensures forall r :: r in s.requests ==> RequestOk(db, issued, s.requests[r])
  {
  }

  /** A payment built for a trimmed tenant and key carries them unchanged. */
  lemma NewPaymentKeepsKey(id: string, tenant: string, endpoint: string, key: string, amountCents: int)
    requires Trimmed(id) && Trimmed(tenant) && Trimmed(key)
    ensures var p := NewPayment(id, tenant, endpoint, key, amountCents);
      p.Some? ==> p.value.id == id && p.value.tenant == tenant && p.value.key == key
  {
  }

  /** One request moves on while the store advances: the others stay as they were. */
  lemma MoveKeepsInv(s: State, r: nat, pc: Pc, db: Db, issued: set<string>)
    requires Inv(s) && r in s.requests && Valid(db) && Advances(s.db, db)
    requires s.issued <= issued && db.payments.Keys <= issued
    requires forall q :: q in s.requests && q != r && s.requests[q].pc.Reserving? ==>
      (s.requests[q].pc.p.id in db.payments ==> s.requests[q].pc.p.id in s.db.payments)
      && (pc.Reserving? ==> s.requests[q].pc.p.id != pc.p.id)
    requires RequestOk(db, issued, s.requests[r].(pc := pc))
    ensures Inv(At(s, r, pc).(db := db, issued := issued))
  {
    var rest := s.(requests := s.requests - {r});
    RequestsSurvive(rest, db, issued);
  }

  lemma LookupKeepsInv(s: State, step: Step)
    requires Inv(s) && Enabled(s, step) && step.Lookup?
    ensures Inv(Apply(s, step)) && Apply(s, step).db == s.db
  {
    var req := s.requests[step.r];
    NewPaymentKeepsKey(step.freshId, req.tenant, req.endpoint, req.key, req.amountCents);
    assert RequestOk(s.db, s.issued, req);
    var s' := Apply(s, step);
    MoveKeepsInv(s, step.r, s'.requests[step.r].pc, s.db, s'.issued);
  }

  lemma ReserveKeepsInv(s: State, step: Step)
    requires Inv(s) && Enabled(s, step) && step.Reserve?
    ensures Inv(Apply(s, step)) && Advances(s.db, Apply(s, step).db)
  {
    var req := s.requests[step.r];
    assert RequestOk(s.db, s.issued, req);
    ReserveKeepsValid(s.db, req.pc.p);
    var s' := Apply(s, step);
    MoveKeepsInv(s, step.r, s'.requests[step.r].pc, s'.db, s.issued);
  }

  lemma FinaliseKeepsInv(s: State, step: Step)
    requires Inv(s) && Enabled(s, step) && step.Finalise?
    ensures Inv(Apply(s, step)) && Advances(s.db, Apply(s, step).db)
  {
    var req := s.requests[step.r];
    assert RequestOk(s.db, s.issued, req);
    var entry := LedgerEntry(step.entryId, req.tenant, req.endpoint, req.pc.p.id, step.priceCents);
    FinalizeKeepsValid(s.db, step.found, req.pc.p, entry);
    var s' := Apply(s, step);
    FinalizeKeepsKeys(s.db, step.found, req.pc.p, entry);
    MoveKeepsInv(s, step.r, s'.requests[step.r].pc, s'.db, s'.issued);
    assert s' == At(s, step.r, s'.requests[step.r].pc).(db := s'.db, issued := s'.issued);
  }

  lemma FinalizeKeepsKeys(db: Db, found: Option<Payment>, p: Payment, entry: LedgerEntry)
    requires p.id in db.payments
    ensures var f := Finalize(db, found, p, entry); f.Billed? ==> f.db.payments.Keys == db.payments.Keys
  {
  }

  lemma DeliverKeepsInv(s: State, step: Step)
    requires Inv(s) && Enabled(s, step) && step.Deliver?
    ensures Inv(Apply(s, step)) && Advances(s.db, Apply(s, step).db)
  {
    SettleKeepsValid(s.db, step.ev, step.reading, step.found, step.faults);
    var res := Settle(s.db, step.ev, step.reading, step.found, step.faults);
    RequestsSurvive(s, res.db, s.issued);
  }

  lemma BankCreateKeepsInv(s: State, step: Step)
    requires Inv(s) && Enabled(s, step) && WellFedStep(step) && step.BankCreate?
    ensures Inv(Apply(s, step)) && Apply(s, step).db == s.db
  {
    if step.tx.Some? { TrimShape(step.tx.value); }
    assert RequestOk(s.db, s.issued, s.requests[step.r]);
    var s' := Apply(s, step);
    MoveKeepsInv(s, step.r, s'.requests[step.r].pc, s.db, s.issued);
  }

  lemma OwnMoveKeepsInv(s: State, step: Step, r: nat)
    requires Inv(s) && Enabled(s, step) && (step == Replay(r) || step == Crash(r) || (step.Resolve? && step.r == r))
    ensures Inv(Apply(s, step)) && Apply(s, step).db == s.db
  {
    assert RequestOk(s.db, s.issued, s.requests[r]);
    MoveKeepsInv(s, r, Apply(s, step).requests[r].pc, s.db, s.issued);
  }

  lemma BeginKeepsInv(s: State, r: nat, req: Request)
    requires Inv(s) && r !in s.requests && req.pc.Looking? && Trimmed(req.key) && Trimmed(req.tenant)
    ensures Inv(s.(requests := s.requests[r := req]))
  {
  }

  lemma StepKeepsInv(s: State, step: Step)
    requires Inv(s) && Enabled(s, step) && WellFedStep(step)
    ensures Inv(Apply(s, step)) && Advances(s.db, Apply(s, step).db)
  {
    match step
    case Lookup(_, _, _) => LookupKeepsInv(s, step);
    case Reserve(_, _) => ReserveKeepsInv(s, step);
    case Finalise(_, _, _, _, _) => FinaliseKeepsInv(s, step);
    case Deliver(_, _, _, _, _) => DeliverKeepsInv(s, step);
    case Begin(r, req) => BeginKeepsInv(s, r, req);
    case BankCreate(_, _) => BankCreateKeepsInv(s, step);
    case Resolve(r, _) => OwnMoveKeepsInv(s, step, r);
    case Replay(r) => OwnMoveKeepsInv(s, step, r);
    case Crash(r) => OwnMoveKeepsInv(s, step, r);
  }

  lemma {:induction false} RunKeepsInv(steps: seq<Step>)
    requires Legal(steps) && WellFed(steps)
    ensures Inv(After(steps))
  {
    if steps != [] {
      var n := |steps| - 1;
      RunKeepsInv(steps[..n]);
      StepKeepsInv(After(steps[..n]), steps[n]);
    }
  }

  // ---- main results ----

  /** In every interleaving: a payment carries a tx id exactly when one ledger entry bills it, and none
      bills it otherwise; so a paid payment was billed exactly once. */
  lemma ChargedExactlyWhenBilledOnce(steps: seq<Step>, id: string)
    requires Legal(steps) && WellFed(steps)
    requires id in After(steps).db.payments
    ensures var db := After(steps).db;
      && (db.payments[id].txId != "" <==> Bills(db.ledger, id) == 1)
      && (db.payments[id].txId == "" <==> Bills(db.ledger, id) == 0)
      && (db.payments[id].status == Paid ==> Bills(db.ledger, id) == 1)
  {
    RunKeepsInv(steps);
    assert BilledOnce(After(steps).db, id);
  }

  lemma AdvancesTransitive(a: Db, b: Db, c: Db)
    requires Advances(a, b) && Advances(b, c)
    ensures Advances(a, c)
  {
  }

  /** Over any continuation of a run no row is lost, no tx id changes and a paid row stays paid: a late
      finalise never turns it back to pending. */
  lemma {:induction false} LaterStepsOnlyAdvance(steps: seq<Step>, k: nat)
    requires k <= |steps| && Legal(steps) && WellFed(steps)
    ensures Legal(steps[..k]) && Advances(After(steps[..k]).db, After(steps).db)
  {
    var n := |steps| - 1;
    if k == |steps| {
      assert steps[..k] == steps;
    } else {
      LaterStepsOnlyAdvance(steps[..n], k);
      assert steps[..n][..k] == steps[..k];
      RunKeepsInv(steps[..n]);
      StepKeepsInv(After(steps[..n]), steps[n]);
      AdvancesTransitive(After(steps[..k]).db, After(steps[..n]).db, After(steps).db);
    }
  }

  /** How many ledger entries bill a payment reserved under (tenant, key). */
  function BillsOfKey(db: Db, ledger: seq<LedgerEntry>, tenant: string, key: string): nat {
    if ledger == [] then 0
    else
      var ref := ledger[|ledger| - 1].reference;
      BillsOfKey(db, ledger[..|ledger| - 1], tenant, key)
      + (if ref in db.payments && db.payments[ref].tenant == tenant && db.payments[ref].key == key then 1 else 0)
  }

  lemma {:induction false} KeyBillsAreRowBills(db: Db, ledger: seq<LedgerEntry>, tenant: string, key: string, id: string)
    requires UniqueKeys(db)
    requires id in db.payments && db.payments[id].tenant == tenant && db.payments[id].key == key
    ensures BillsOfKey(db, ledger, tenant, key) == Bills(ledger, id)
  {
    if ledger != [] {
      KeyBillsAreRowBills(db, ledger[..|ledger| - 1], tenant, key, id);
    }
  }

  lemma {:induction false} NoRowNoBills(db: Db, ledger: seq<LedgerEntry>, tenant: string, key: string)
    requires !KeyTaken(db, tenant, key)
    ensures BillsOfKey(db, ledger, tenant, key) == 0
  {
    if ledger != [] {
      NoRowNoBills(db, ledger[..|ledger| - 1], tenant, key);
    }
  }

  /** Across all five services and any mix of endpoints, one (tenant, key) is billed at most once. */
  lemma KeyBilledAtMostOnce(steps: seq<Step>, tenant: string, key: string)
    requires Legal(steps) && WellFed(steps)
    ensures BillsOfKey(After(steps).db, After(steps).db.ledger, tenant, key) <= 1
  {
    RunKeepsInv(steps);
    var db := After(steps).db;
    if id :| id in db.payments && db.payments[id].tenant == tenant && db.payments[id].key == key {
      KeyBillsAreRowBills(db, db.ledger, tenant, key, id);
      assert BilledOnce(db, id);
    } else {
      NoRowNoBills(db, db.ledger, tenant, key);
    }
  }

  // ---- deliveries of one event key ----

  function Terminals(ds: seq<Delivery>, tenant: string, key: string): nat {
    if ds == [] then 0
    else
      var d := ds[|ds| - 1];
      Terminals(ds[..|ds| - 1], tenant, key) + (if d.tenant == tenant && d.eventKey == key && Terminal(d.outcome) then 1 else 0)
  }

  function Settlements(ds: seq<Delivery>, tenant: string, key: string): nat {
    if ds == [] then 0
    else
      var d := ds[|ds| - 1];
      Settlements(ds[..|ds| - 1], tenant, key) + (if d.tenant == tenant && d.eventKey == key && d.outcome.Settled? then 1 else 0)
  }

  function Published(ps: seq<Publication>, tenant: string, key: string): nat {
    if ps == [] then 0
    else Published(ps[..|ps| - 1], tenant, key) + (if ps[|ps| - 1].tenant == tenant && ps[|ps| - 1].eventKey == key then 1 else 0)
  }

  predicate KeyHistoryOk(s: State, tenant: string, key: string) {
    && Terminals(s.deliveries, tenant, key) == (if (tenant, key) in s.db.processed then 1 else 0)
    && Published(s.published, tenant, key) <= Settlements(s.deliveries, tenant, key) <= Terminals(s.deliveries, tenant, key)
  }

  lemma DeliveryExtendsHistory(s: State, step: Step, tenant: string, key: string)
    requires Enabled(s, step) && step.Deliver? && KeyHistoryOk(s, tenant, key)
    ensures KeyHistoryOk(Apply(s, step), tenant, key)
  {
    var res := Settle(s.db, step.ev, step.reading, step.found, step.faults);
    MarkedExactlyWhenTerminal(s.db, step.ev, step.reading, step.found, step.faults);
    var d := Delivery(step.ev.tenant, step.ev.eventKey, res.outcome);
    assert (s.deliveries + [d])[..|s.deliveries|] == s.deliveries;
    if res.outcome.Settled? {
      var e := Publication(step.ev.tenant, step.ev.eventKey, res.outcome.p.id);
      assert (s.published + [e])[..|s.published|] == s.published;
    }
  }

  lemma OtherStepsKeepMarks(s: State, step: Step)
    requires Enabled(s, step) && !step.Deliver?
    ensures Apply(s, step).db.processed == s.db.processed
    ensures Apply(s, step).deliveries == s.deliveries && Apply(s, step).published == s.published
  {
  }

  /** In every run, with bank state changing arbitrarily between deliveries: the anti-replay mark of a
      key is present exactly when one earlier delivery of it was terminal (settled, audited a divergence
      or hit the settled conflict), there is never a second, and at most one paid event is published. */
  lemma {:induction false} MarkTellsTheHistory(steps: seq<Step>, tenant: string, key: string)
    requires Legal(steps)
    ensures var s := After(steps);
      && Terminals(s.deliveries, tenant, key) == (if (tenant, key) in s.db.processed then 1 else 0)
      && Published(s.published, tenant, key) <= Settlements(s.deliveries, tenant, key) <= 1
    ensures KeyHistoryOk(After(steps), tenant, key)
  {
    if steps != [] {
      var n := |steps| - 1;
      MarkTellsTheHistory(steps[..n], tenant, key);
      if steps[n].Deliver? {
        DeliveryExtendsHistory(After(steps[..n]), steps[n], tenant, key);
      } else {
        OtherStepsKeepMarks(After(steps[..n]), steps[n]);
      }
    }
  }

  /** However many deliveries of a key came to nothing before, the next one that finds the charge paid
      in full settles the row. */
  lemma FruitlessDeliveriesNeverBlock(steps: seq<Step>, ev: PaymentEvent, res: ChargeResult, found: Option<Payment>)
    requires Legal(steps) && WellFed(steps)
    requires Terminals(After(steps).deliveries, ev.tenant, ev.eventKey) == 0
    requires Addressed(ev) && IsPaid(res) && AmountReconciled(res)
    requires Trim(SettlementKey(ev, res)) != ""
    requires found.Some? && found.value.status != Canceled
    requires FoundByTx(After(steps).db, ev.tenant, SettlementKey(ev, res), found)
    ensures Settle(After(steps).db, ev, Read(res), found, NO_FAULTS).outcome == Settled(found.value.(status := Paid))
  {
    MarkTellsTheHistory(steps, ev.tenant, ev.eventKey);
    RunKeepsInv(steps);
    PaidDeliverySettles(After(steps).db, ev, res, found);
  }

  // ---- announcements of one payment ----

  function Announced(ps: seq<Publication>, payment: string): nat {
    if ps == [] then 0 else Announced(ps[..|ps| - 1], payment) + (if ps[|ps| - 1].payment == payment then 1 else 0)
  }

  /** The event keys a payment was announced under. */
  function EventKeys(ps: seq<Publication>, payment: string): set<(string, string)> {
    if ps == [] then {}
    else
      var p := ps[|ps| - 1];
      EventKeys(ps[..|ps| - 1], payment) + if p.payment == payment then {(p.tenant, p.eventKey)} else {}
  }

  lemma {:induction false} AnnouncedKeyIsPublished(ps: seq<Publication>, payment: string, e: (string, string))
    requires e in EventKeys(ps, payment)
    ensures Published(ps, e.0, e.1) > 0
  {
    var init, p := ps[..|ps| - 1], ps[|ps| - 1];
    if e in EventKeys(init, payment) { AnnouncedKeyIsPublished(init, payment, e); }
  }

  lemma {:induction false} OneAnnouncementPerKey(ps: seq<Publication>, payment: string)
    requires forall t, k :: Published(ps, t, k) <= 1
    ensures Announced(ps, payment) == |EventKeys(ps, payment)|
  {
    if ps != [] {
      var init, p := ps[..|ps| - 1], ps[|ps| - 1];
      forall t, k ensures Published(init, t, k) <= 1 {
        assert Published(ps, t, k) <= 1;
      }
      OneAnnouncementPerKey(init, payment);
      assert Published(ps, p.tenant, p.eventKey) <= 1;
      if (p.tenant, p.eventKey) in EventKeys(init, payment) {
        AnnouncedKeyIsPublished(init, payment, (p.tenant, p.eventKey));
      }
    }
  }

  /** In every run a payment is announced exactly as often as there are event keys that announced it. */
  lemma PaymentAnnouncedOncePerEventKey(steps: seq<Step>, payment: string)
    requires Legal(steps)
    ensures var ps := After(steps).published; Announced(ps, payment) == |EventKeys(ps, payment)|
  {
    forall t, k ensures Published(After(steps).published, t, k) <= 1 {
      MarkTellsTheHistory(steps, t, k);
    }
    OneAnnouncementPerKey(After(steps).published, payment);
  }

  /** That can be more than once: marking a paid row paid again is no error, so a delivery under an event key
      not yet marked announces the payment again, whatever announced it before. */
  lemma EveryEventKeyAnnouncesAgain(steps: seq<Step>, ev: PaymentEvent, res: ChargeResult, found: Option<Payment>)
    requires Legal(steps) && WellFed(steps)
    requires Terminals(After(steps).deliveries, ev.tenant, ev.eventKey) == 0
    requires Addressed(ev) && IsPaid(res) && AmountReconciled(res)
    requires Trim(SettlementKey(ev, res)) != ""
    requires found.Some? && found.value.status != Canceled
    requires FoundByTx(After(steps).db, ev.tenant, SettlementKey(ev, res), found)
    ensures var s, step := After(steps), Deliver(ev, Read(res), found, NO_FAULTS, false);
      Enabled(s, step) && Announced(Apply(s, step).published, found.value.id) == Announced(s.published, found.value.id) + 1
  {
    FruitlessDeliveriesNeverBlock(steps, ev, res, found);
    var s := After(steps);
    var p := Publication(ev.tenant, ev.eventKey, found.value.id);
    assert (s.published + [p])[..|s.published|] == s.published;
  }
}
