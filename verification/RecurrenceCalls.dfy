/** Whole recurrence calls as steps: a call is its own micro-steps with nothing in between. Terminal
    mandates stay terminal and are never debited again, retries draw on the right mandate exactly when they
    name it, and the audit trail replays to the durable state. */
module RecurrenceCalls {
  import opened Recurrence

  datatype Call =
    | MandateNotified(id: Id, eventKey: string, answer: RecAnswer, broken: Fault)
    | ChargeNotified(key: Id, eventKey: string, charge: CobRAnswer, broken: Fault)
    | CreateMandate(id: Id, valorCents: int, fault: bool)
    | CancelMandate(id: Id, fault: bool)
    | OriginateCobR(id: Id, txId: string, valorCents: int, accepted: bool, fault: bool)
    | RetryCobR(id: Id, txId: string)
    | CancelCobR(key: Id, fault: bool)

  /** The steps of one call. A step the call did not get ready for does nothing, so one list serves every
      early return. */
  function Steps(call: Call): seq<Step> {
    match call
    case MandateNotified(id, key, answer, fault) => [RecEvent(id, key, answer, fault)]
    case ChargeNotified(key, eventKey, charge, fault) => [CobREvent(key, eventKey, charge, fault)]
    case CreateMandate(id, v, fault) => [RegisterAtBank(0, id, v), LookUpMandate(0), StoreMandate(0, fault)]
    case CancelMandate(id, fault) => [CancelAtBank(0, id), StoreCancel(0, fault)]
    case OriginateCobR(id, tx, v, accepted, fault) => [LookUpCharge(0, id, tx, v), PassGate(0), DebitAtBank(0, accepted), StoreCharge(0, fault)]
    case RetryCobR(id, tx) => [PassRetryGate(0, id, tx), RetryAtBank(0)]
    case CancelCobR(key, fault) => [FindCharge(0, key), CancelChargeAtBank(0), StoreChargeCancel(0, fault)]
  }

  function Do(s: State, call: Call): State {
    Run(s, Steps(call))
  }

  function DoAll(s: State, calls: seq<Call>): State {
    if calls == [] then s else Do(DoAll(s, calls[..|calls| - 1]), calls[|calls| - 1])
  }

  // ---- what one undisturbed call does to an idle system ----

  /** The store after a call on an idle system, in one step per call. */
  function Effect(db: Db, call: Call): Db {
    match call
    case MandateNotified(id, key, answer, fault) => HandleRec(db, id, key, answer, fault)
    case ChargeNotified(key, eventKey, charge, fault) => HandleCobR(db, key, eventKey, charge, fault)
    case CreateMandate(id, v, fault) => if v < 0 || id in db.recs || fault then db else SaveMandate(db, id, v)
    case CancelMandate(id, fault) => if fault then db else CommitCancel(db, id)
    case OriginateCobR(id, tx, v, accepted, fault) =>
      if Id(id.tenant, tx) in db.cobrs || !MayDebit(db, id, v) || !accepted || fault then db
      else SaveCharge(db, id, tx, v)
    case RetryCobR(_, _) => db
    case CancelCobR(key, fault) => if key !in db.cobrs || fault then db else CommitChargeCancel(db, key)
  }

  /** What the call says to the bank. */
  function Asks(db: Db, call: Call): seq<Event> {
    match call
    case MandateNotified(id, key, answer, fault) =>
      if answer.Mandate? && Id(id.tenant, key) !in db.processed && !fault.MarkFault? then [Read(id, answer.status)] else []
    case OriginateCobR(id, tx, v, _, _) =>
      if Id(id.tenant, tx) in db.cobrs || !MayDebit(db, id, v) then [] else [Debit(id, tx, v)]
    case RetryCobR(id, tx) => if MayRetry(db, id) then [Retried(id, tx)] else []
    case _ => []
  }

  ghost predicate Atomic(s: State, call: Call) {
    Do(s, call) == State(Effect(s.db, call), s.log + Asks(s.db, call), map[])
  }

  lemma NotificationIsAtomic(s: State, call: Call)
    requires s.calls == map[] && (call.MandateNotified? || call.ChargeNotified?)
    ensures Atomic(s, call)
  {
    var step := Steps(call)[0];
    assert Steps(call) == [step] && [step][..0] == [];
    assert Run(s, [step]) == Apply(Run(s, []), step);
  }

  lemma CancelMandateIsAtomic(s: State, call: Call)
    requires s.calls == map[] && call.CancelMandate?
    ensures Atomic(s, call)
  {
    var steps := Steps(call);
    RunTwo(s, steps[0], steps[1]);
    assert Apply(Apply(s, steps[0]), steps[1]).calls == map[];
  }

  lemma RetryIsAtomic(s: State, call: Call)
    requires s.calls == map[] && call.RetryCobR?
    ensures Atomic(s, call)
  {
    var steps := Steps(call);
    RunTwo(s, steps[0], steps[1]);
    assert Apply(Apply(s, steps[0]), steps[1]).calls == map[];
  }

  lemma CancelCobRIsAtomic(s: State, call: Call)
    requires s.calls == map[] && call.CancelCobR?
    ensures Atomic(s, call)
  {
    var steps := Steps(call);
    RunThree(s, steps[0], steps[1], steps[2]);
    assert Apply(Apply(Apply(s, steps[0]), steps[1]), steps[2]).calls == map[];
  }

  lemma CreateMandateIsAtomic(s: State, call: Call)
    requires s.calls == map[] && call.CreateMandate?
    ensures Atomic(s, call)
  {
    var steps := Steps(call);
    RunThree(s, steps[0], steps[1], steps[2]);
    var s1 := Apply(s, steps[0]);
    var s2 := Apply(s1, steps[1]);
    if call.valorCents < 0 {
      assert s2 == s;
    } else if call.id in s.db.recs {
      assert s2.calls == map[];
    } else {
      assert s2 == s.(calls := map[0 := Saving(call.id, call.valorCents)]);
      assert Apply(s2, steps[2]).calls == map[];
    }
  }

  predicate Blocked(db: Db, id: Id, tx: string, v: int) {
    Id(id.tenant, tx) in db.cobrs || !MayDebit(db, id, v)
  }

  lemma LookupAndGate(s: State, id: Id, tx: string, v: int)
    requires s.calls == map[]
    ensures Run(s, [LookUpCharge(0, id, tx, v), PassGate(0)]) ==
      if Blocked(s.db, id, tx, v) then s else s.(calls := map[0 := Gated(id, tx, v)])
  {
    RunTwo(s, LookUpCharge(0, id, tx, v), PassGate(0));
    var s1 := Apply(s, LookUpCharge(0, id, tx, v));
    if s1 != s {
      assert s1.calls == map[0 := Unrecorded(id, tx, v)];
      assert Apply(s1, PassGate(0)).calls == if MayDebit(s.db, id, v) then map[0 := Gated(id, tx, v)] else map[];
    }
  }

  lemma DebitAndStore(s: State, id: Id, tx: string, v: int, accepted: bool, fault: bool)
    requires s.calls == map[0 := Gated(id, tx, v)]
    ensures Run(s, [DebitAtBank(0, accepted), StoreCharge(0, fault)]) ==
      State(if !accepted || fault then s.db else SaveCharge(s.db, id, tx, v), s.log + [Debit(id, tx, v)], map[])
  {
    RunTwo(s, DebitAtBank(0, accepted), StoreCharge(0, fault));
    var s1 := Apply(s, DebitAtBank(0, accepted));
    assert s1.calls == if accepted then map[0 := Debited(id, tx, v)] else map[];
    assert Apply(s1, StoreCharge(0, fault)).calls == map[];
  }

  lemma OriginateIsAtomic(s: State, call: Call)
    requires s.calls == map[] && call.OriginateCobR?
    ensures Atomic(s, call)
  {
    var a := [LookUpCharge(0, call.id, call.txId, call.valorCents), PassGate(0)];
    var b := [DebitAtBank(0, call.accepted), StoreCharge(0, call.fault)];
    assert Steps(call) == a + b;
    RunAppends(s, a, b);
    LookupAndGate(s, call.id, call.txId, call.valorCents);
    if Blocked(s.db, call.id, call.txId, call.valorCents) {
      RunTwo(s, b[0], b[1]);
    } else {
      DebitAndStore(Run(s, a), call.id, call.txId, call.valorCents, call.accepted, call.fault);
    }
  }

  /** An undisturbed call is atomic: its micro-steps compose to one effect and leave nothing in flight. */
  lemma DoIsAtomic(s: State, call: Call)
    requires s.calls == map[]
    ensures Do(s, call) == State(Effect(s.db, call), s.log + Asks(s.db, call), map[])
  {
    match call
    case CreateMandate(_, _, _) => CreateMandateIsAtomic(s, call);
    case OriginateCobR(_, _, _, _, _) => OriginateIsAtomic(s, call);
    case MandateNotified(_, _, _, _) => NotificationIsAtomic(s, call);
    case ChargeNotified(_, _, _, _) => NotificationIsAtomic(s, call);
    case CancelMandate(_, _) => CancelMandateIsAtomic(s, call);
    case RetryCobR(_, _) => RetryIsAtomic(s, call);
    case CancelCobR(_, _) => CancelCobRIsAtomic(s, call);
  }

  // ---- terminal mandates ----

  ghost predicate Dead(db: Db, id: Id) {
    id in db.recs && IsTerminal(db.recs[id].status)
  }

  /** Rows on record keep their mandate, dead mandates stay dead. */
  lemma EffectKeepsOwnership(db: Db, call: Call)
    ensures forall id :: Dead(db, id) ==> id in Effect(db, call).recs && Effect(db, call).recs[id] == db.recs[id]
    ensures forall key :: key in db.cobrs ==> key in Effect(db, call).cobrs && Effect(db, call).cobrs[key].idRec == db.cobrs[key].idRec
  {
  }

  /** Every retry in the run names the mandate its charge is on record under. */
  ghost predicate RetriesNameTheirOwn(s: State, calls: seq<Call>) {
    forall i :: 0 <= i < |calls| && calls[i].RetryCobR? ==> OwnCharge(DoAll(s, calls[..i]).db, calls[i].id, calls[i].txId)
  }

  /** The event asks the bank for money under the mandate: a debit of it, or a retry of a charge of it. */
  predicate Draws(db: Db, e: Event, id: Id) {
    match e
    case Read(_, _) => false
    case Debit(m, _, _) => m == id
    case Retried(m, tx) => m.tenant == id.tenant && OwnCharge(db, id, tx)
  }

  /** Once a mandate is durably terminal, no later run of calls moves it, none debits it, and none passes a
      gate by naming it. */
  lemma {:induction false} TerminalMandateIsNeverDebited(s: State, calls: seq<Call>, id: Id)
    requires s.calls == map[] && Dead(s.db, id)
    ensures var t := DoAll(s, calls);
      && t.calls == map[] && s.log <= t.log
      && id in t.db.recs && t.db.recs[id] == s.db.recs[id]
      && (forall k :: |s.log| <= k < |t.log| && t.log[k].id == id ==> t.log[k].Read?)
  {
    if calls != [] {
      var before := DoAll(s, calls[..|calls| - 1]);
      var call := calls[|calls| - 1];
      TerminalMandateIsNeverDebited(s, calls[..|calls| - 1], id);
      DoIsAtomic(before, call);
      EffectKeepsOwnership(before.db, call);
    }
  }

  /** When retries name their charge's own mandate, no later run draws on a terminal mandate in any way. */
  lemma {:induction false} OwnRetriesSpareTerminalMandates(s: State, calls: seq<Call>, id: Id)
    requires s.calls == map[] && Dead(s.db, id) && RetriesNameTheirOwn(s, calls)
    ensures var t := DoAll(s, calls);
      && s.log <= t.log
      && forall k :: |s.log| <= k < |t.log| ==> !Draws(t.db, t.log[k], id)
    ensures var t := DoAll(s, calls); forall k :: |s.log| <= k < |t.log| && t.log[k].Retried? ==> OwnCharge(t.db, t.log[k].id, t.log[k].txId)
  {
    if calls != [] {
      var init, call := calls[..|calls| - 1], calls[|calls| - 1];
      var before, t := DoAll(s, init), DoAll(s, calls);
      forall i | 0 <= i < |init| && init[i].RetryCobR? ensures OwnCharge(DoAll(s, init[..i]).db, init[i].id, init[i].txId) {
        assert init[..i] == calls[..i];
      }
      OwnRetriesSpareTerminalMandates(s, init, id);
      TerminalMandateIsNeverDebited(s, init, id);
      DoIsAtomic(before, call);
      EffectKeepsOwnership(before.db, call);
      TerminalMandateIsNeverDebited(s, calls, id);
      forall k | |s.log| <= k < |t.log| && t.log[k].Retried? ensures OwnCharge(t.db, t.log[k].id, t.log[k].txId) {
        if k < |before.log| { assert t.log[k] == before.log[k]; }
      }
    }
  }

  // ---- a retry may name another mandate ----

  const APPROVED := Mandate(Known(Aprovada), 0, true)

  /** Both mandates approved, the charge originated under the second, then the second cancelled. */
  function Setup(a: Id, b: Id, tx: string): seq<Call> {
    [MandateNotified(a, "a", APPROVED, NoFault), MandateNotified(b, "b", APPROVED, NoFault)]
    + [OriginateCobR(b, tx, 1, true, false), CancelMandate(b, false)]
  }

  lemma DoTwo(s: State, a: Call, b: Call)
    requires s.calls == map[]
    ensures DoAll(s, [a, b]).db == Effect(Effect(s.db, a), b) && DoAll(s, [a, b]).calls == map[]
  {
    assert [a, b][..1] == [a] && [a][..0] == [];
    assert DoAll(s, [a]) == Do(DoAll(s, []), a);
    DoIsAtomic(s, a);
    DoIsAtomic(Do(s, a), b);
  }

  lemma DoAppends(s: State, a: seq<Call>, b: seq<Call>)
    ensures DoAll(s, a + b) == DoAll(DoAll(s, a), b)
    decreases |b|
  {
    if b == [] {
      assert a + b == a;
    } else {
      assert (a + b)[..|a + b| - 1] == a + b[..|b| - 1];
      DoAppends(s, a, b[..|b| - 1]);
    }
  }

  lemma SetupRuns(a: Id, b: Id, tx: string)
    requires a != b && a.tenant == b.tenant
    ensures var s := DoAll(INIT, Setup(a, b, tx));
      s.calls == map[] && Dead(s.db, b) && MayRetry(s.db, a) && OwnCharge(s.db, b, tx)
  {
    var first := [MandateNotified(a, "a", APPROVED, NoFault), MandateNotified(b, "b", APPROVED, NoFault)];
    var second := [OriginateCobR(b, tx, 1, true, false), CancelMandate(b, false)];
    DoAppends(INIT, first, second);
    DoTwo(INIT, first[0], first[1]);
    var mid := DoAll(INIT, first);
    assert "a"[0] != "b"[0];
    assert MayDebit(mid.db, b, 1) && MayRetry(mid.db, a) && Id(b.tenant, tx) !in mid.db.cobrs;
    DoTwo(mid, second[0], second[1]);
  }

  /** The gate reads the mandate the caller names, but the bank is told only the tx id: a charge of a dead
      mandate is retried by naming another, approved one. */
  lemma RetryDrawsOnADeadMandate(a: Id, b: Id, tx: string)
    requires a != b && a.tenant == b.tenant
    ensures var s := DoAll(INIT, Setup(a, b, tx)); var t := Do(s, RetryCobR(a, tx));
      Dead(s.db, b) && t.log == s.log + [Retried(a, tx)] && Draws(t.db, Retried(a, tx), b)
  {
    SetupRuns(a, b, tx);
    DoIsAtomic(DoAll(INIT, Setup(a, b, tx)), RetryCobR(a, tx));
  }

  /** In every run, a retry accepted by naming one mandate, of a charge on record under mandate r, finds r
      approved too. */
  ghost predicate RetryIsSafe(named: Id, r: string, tx: string) {
    forall calls: seq<Call> :: var db := DoAll(INIT, calls).db;
      OwnCharge(db, Id(named.tenant, r), tx) && MayRetry(db, named) ==> MayRetry(db, Id(named.tenant, r))
  }

  /** That holds exactly when the mandate named is the charge's own. */
  lemma RetryIsSafeExactlyForItsOwnMandate(named: Id, r: string, tx: string)
    ensures RetryIsSafe(named, r, tx) <==> named.name == r
  {
    var own := Id(named.tenant, r);
    if named.name == r {
      assert own == named;
    } else {
      SetupRuns(named, own, tx);
      var db := DoAll(INIT, Setup(named, own, tx)).db;
      assert OwnCharge(db, own, tx) && MayRetry(db, named) && !MayRetry(db, own);
    }
  }

  // ---- the audit trail replays to the durable state ----

  function StatusesOf(trail: seq<Transition>, id: Id): seq<RecStatus> {
    if trail == [] then []
    else
      var last := trail[|trail| - 1];
      StatusesOf(trail[..|trail| - 1], id) + if last.id == id then [last.status] else []
  }

  /** A history a mandate may have: it starts where creation or the first reading left it and each later
      entry is a legal move from the one before. */
  ghost predicate LegalHistory(h: seq<RecStatus>) {
    forall i, j :: 0 <= i < |h| && 0 <= j < |h| && j == i + 1 ==> LegalMove(h[i], h[j])
  }

  ghost predicate Replays(db: Db, id: Id) {
    var h := StatusesOf(db.trail, id);
    && LegalHistory(h)
    && (id in db.recs <==> h != [])
    && (h != [] ==> db.recs[id].status == h[|h| - 1])
  }

  ghost predicate TrailReplays(db: Db) {
    forall id :: Replays(db, id)
  }

  lemma SaveStatusKeepsTrail(db: Db, id: Id, valorCents: int, status: RecStatus)
    requires TrailReplays(db) && (id in db.recs ==> LegalMove(db.recs[id].status, status))
    ensures TrailReplays(SaveStatus(db, id, valorCents, status))
  {
    var db' := SaveStatus(db, id, valorCents, status);
    assert db'.trail[..|db.trail|] == db.trail;
    forall other ensures Replays(db', other) {
      assert Replays(db, other);
      var h := StatusesOf(db.trail, other);
      assert StatusesOf(db'.trail, other) == if other == id then h + [status] else h;
    }
  }

  lemma SameTrail(a: Db, b: Db)
    requires TrailReplays(a) && a.recs == b.recs && a.trail == b.trail
    ensures TrailReplays(b)
  {
    forall id ensures Replays(b, id) {
      assert Replays(a, id);
    }
  }

  /** Every call either leaves mandates and trail alone or saves one legal move. */
  lemma CallKeepsTrail(db: Db, call: Call)
    requires TrailReplays(db)
    ensures TrailReplays(Effect(db, call))
  {
    var db' := Effect(db, call);
    if db'.recs == db.recs && db'.trail == db.trail {
      SameTrail(db, db');
    } else {
      match call
      case MandateNotified(id, key, answer, fault) =>
        var marked := db.(processed := db.processed + {Id(id.tenant, key)});
        SameTrail(db, marked);
        SaveStatusKeepsTrail(marked, id, answer.valorCents, answer.status.status);
      case CreateMandate(id, v, fault) =>
        SaveStatusKeepsTrail(db, id, v, Criada);
        SameTrail(SaveStatus(db, id, v, Criada), db');
      case CancelMandate(id, fault) => SaveStatusKeepsTrail(db, id, 0, Cancelada);
      case _ =>
    }
  }

  /** After any run of whole calls a mandate exists exactly when its trail is non-empty, the last audited
      status is the stored one, and consecutive audited statuses are legal moves. */
  lemma {:induction false} TrailReplaysToTheStore(calls: seq<Call>)
    ensures DoAll(INIT, calls).calls == map[]
    ensures TrailReplays(DoAll(INIT, calls).db)
  {
    if calls != [] {
      var before := DoAll(INIT, calls[..|calls| - 1]);
      TrailReplaysToTheStore(calls[..|calls| - 1]);
      DoIsAtomic(before, calls[|calls| - 1]);
      CallKeepsTrail(before.db, calls[|calls| - 1]);
    }
  }

  /** The trail grows exactly when some stored status changes or a mandate appears: a stale or repeated
      notification adds nothing, and nothing moves unaudited. */
  lemma AuditedExactlyWhenMoved(db: Db, call: Call)
    ensures Effect(db, call).trail == db.trail <==> Effect(db, call).recs == db.recs
    ensures |db.trail| <= |Effect(db, call).trail| <= |db.trail| + 1
  {
  }

  /** Delivering the same reading again, under any event key, changes neither mandates nor trail. */
  lemma RedeliveryAddsNothing(db: Db, id: Id, key: string, again: string, answer: RecAnswer, fault: Fault)
    ensures var once := HandleRec(db, id, key, answer, NoFault); var twice := HandleRec(once, id, again, answer, fault);
      answer.Mandate? && Id(id.tenant, key) !in db.processed ==> twice.recs == once.recs && twice.trail == once.trail
  {
  }
}
