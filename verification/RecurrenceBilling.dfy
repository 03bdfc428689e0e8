/** How often a mandate or a recurring charge is billed. Creation and origination do not look again inside
    their transaction, so calls in flight together may bill one row twice; this says exactly when they can. */
module RecurrenceBilling {
  import opened Wrappers
  import opened Recurrence
  import opened RecurrenceCalls

  function TimesBilled(bills: seq<Bill>, b: Bill): nat {
    if bills == [] then 0
    else TimesBilled(bills[..|bills| - 1], b) + if bills[|bills| - 1] == b then 1 else 0
  }

  lemma OneMoreBill(bills: seq<Bill>, b: Bill)
    ensures forall x :: TimesBilled(bills + [b], x) == TimesBilled(bills, x) + if x == b then 1 else 0
  {
    assert (bills + [b])[..|bills|] == bills;
  }

  ghost predicate OnceEach(bills: seq<Bill>) {
    forall b :: TimesBilled(bills, b) <= 1
  }

  predicate Recorded(db: Db, b: Bill) {
    match b
    case MandateBill(id) => id in db.recs
    case ChargeBill(key) => key in db.cobrs
  }

  /** No bill without its row. */
  ghost predicate RowsBehindBills(db: Db) {
    forall b :: TimesBilled(db.bills, b) > 0 ==> Recorded(db, b)
  }

  // ---- what a call in flight may still bill ----

  function Owes(p: Pending): Option<Bill> {
    match p
    case Registered(id, _) => Some(MandateBill(id))
    case Saving(id, _) => Some(MandateBill(id))
    case Unrecorded(id, tx, _) => Some(ChargeBill(Id(id.tenant, tx)))
    case Gated(id, tx, _) => Some(ChargeBill(Id(id.tenant, tx)))
    case Debited(id, tx, _) => Some(ChargeBill(Id(id.tenant, tx)))
    case _ => None
  }

  /** A creation past its lookup will write the mandate back to its initial state. */
  ghost predicate Reopening(s: State, id: Id) {
    exists c :: c in s.calls && s.calls[c].Saving? && s.calls[c].id == id
  }

  /** The gate may still open for the amount: the mandate is unknown yet, or not over its ceiling and not
      terminal for good. */
  ghost predicate Hopeful(s: State, id: Id, valorCents: int) {
    && valorCents > 0
    && (id in s.db.recs ==>
          && (s.db.recs[id].valorCents > 0 ==> valorCents <= s.db.recs[id].valorCents)
          && (IsTerminal(s.db.recs[id].status) ==> Reopening(s, id)))
  }

  /** The call may still bill what it owes: a creation whose row is not on record or that has already looked,
      an origination past its gate or with a hopeful one. */
  ghost predicate MayBill(s: State, p: Pending) {
    match p
    case Registered(id, _) => id !in s.db.recs
    case Saving(_, _) => true
    case Unrecorded(id, _, v) => Hopeful(s, id, v)
    case Gated(_, _, _) => true
    case Debited(_, _, _) => true
    case _ => false
  }

  /** Nothing billed twice, nothing billed still owed, and nothing owed by two calls that may bill it. */
  ghost predicate Uncontested(s: State) {
    && OnceEach(s.db.bills)
    && (forall c :: c in s.calls && MayBill(s, s.calls[c]) ==> TimesBilled(s.db.bills, Owes(s.calls[c]).value) == 0)
    && (forall c, d :: c in s.calls && d in s.calls && c != d && MayBill(s, s.calls[c]) && MayBill(s, s.calls[d]) ==>
          Owes(s.calls[c]) != Owes(s.calls[d]))
  }

  /** The step starts no creation and no origination. */
  predicate Quiet(step: Step) {
    !step.RegisterAtBank? && !step.LookUpCharge?
  }

  ghost predicate AllQuiet(steps: seq<Step>) {
    forall i :: 0 <= i < |steps| ==> Quiet(steps[i])
  }

  /** Whatever the calls in flight do from here, with notifications, cancellations and crashes in any order,
      no row is billed twice. */
  ghost predicate InFlightSafe(s: State) {
    forall steps: seq<Step> | AllQuiet(steps) :: OnceEach(Run(s, steps).db.bills)
  }

  // ---- steps ----

  lemma StepKeepsRecords(s: State, step: Step, b: Bill)
    requires Recorded(s.db, b)
    ensures Recorded(Apply(s, step).db, b)
  {
  }

  /** A step that stores a row for a call in flight pays what the call owed; no other step bills. */
  lemma StepBills(s: State, step: Step)
    ensures var s' := Apply(s, step);
      || s'.db.bills == s.db.bills
      || (&& (step.StoreMandate? || step.StoreCharge?) && step.c in s.calls && MayBill(s, s.calls[step.c])
          && s'.calls == s.calls - {step.c}
          && s'.db.bills == s.db.bills + [Owes(s.calls[step.c]).value]
          && Recorded(s'.db, Owes(s.calls[step.c]).value))
  {
  }

  lemma StepKeepsRowsBehindBills(s: State, step: Step)
    requires RowsBehindBills(s.db)
    ensures RowsBehindBills(Apply(s, step).db)
  {
    var s' := Apply(s, step);
    StepBills(s, step);
    if s'.db.bills != s.db.bills { OneMoreBill(s.db.bills, Owes(s.calls[step.c]).value); }
    forall b | TimesBilled(s'.db.bills, b) > 0 ensures Recorded(s'.db, b) {
      if TimesBilled(s.db.bills, b) > 0 { StepKeepsRecords(s, step, b); }
    }
  }

  lemma {:induction false} RunKeepsRowsBehindBills(s: State, steps: seq<Step>)
    requires RowsBehindBills(s.db)
    ensures RowsBehindBills(Run(s, steps).db)
  {
    if steps != [] {
      RunKeepsRowsBehindBills(s, steps[..|steps| - 1]);
      StepKeepsRowsBehindBills(Run(s, steps[..|steps| - 1]), steps[|steps| - 1]);
    }
  }

  lemma StepKeepsHopelessness(s: State, step: Step, id: Id, v: int)
    requires Hopeful(Apply(s, step), id, v)
    ensures Hopeful(s, id, v)
  {
    var s' := Apply(s, step);
    if id in s.db.recs && IsTerminal(s.db.recs[id].status) {
      if IsTerminal(s'.db.recs[id].status) {
        var c :| c in s'.calls && s'.calls[c].Saving? && s'.calls[c].id == id;
        assert c in s.calls && s.calls[c].Saving? && s.calls[c].id == id;
      } else {
        assert step.StoreMandate? && s.calls[step.c].Saving? && s.calls[step.c].id == id;
      }
    }
  }

  /** Whoever may bill after a step could bill the same before it, or has just started. */
  lemma StepGrantsNothing(s: State, step: Step, c: nat)
    requires c in Apply(s, step).calls && MayBill(Apply(s, step), Apply(s, step).calls[c])
    ensures var p' := Apply(s, step).calls[c];
      || (c in s.calls && MayBill(s, s.calls[c]) && Owes(s.calls[c]) == Owes(p'))
      || (!Quiet(step) && c == step.c && c !in s.calls)
  {
    var p' := Apply(s, step).calls[c];
    if p'.Unrecorded? { StepKeepsHopelessness(s, step, p'.id, p'.valorCents); }
  }

  /** The step starts a call that may bill what another call in flight may bill. */
  ghost predicate Contends(s: State, step: Step) {
    var s' := Apply(s, step);
    && !Quiet(step) && step.c !in s.calls && step.c in s'.calls && MayBill(s', s'.calls[step.c])
    && exists d :: d in s.calls && MayBill(s, s.calls[d]) && Owes(s.calls[d]) == Owes(s'.calls[step.c])
  }

  /** A newcomer owes a row that is not on record. */
  lemma NewcomerOwesUnbilled(s: State, step: Step)
    requires RowsBehindBills(s.db) && !Quiet(step) && step.c !in s.calls && step.c in Apply(s, step).calls
    requires MayBill(Apply(s, step), Apply(s, step).calls[step.c])
    ensures Owes(Apply(s, step).calls[step.c]).Some? && TimesBilled(s.db.bills, Owes(Apply(s, step).calls[step.c]).value) == 0
  {
    var owed := Owes(Apply(s, step).calls[step.c]).value;
    assert !Recorded(s.db, owed);
  }

  lemma StartKeepsUncontested(s: State, step: Step)
    requires Uncontested(s) && RowsBehindBills(s.db) && !Quiet(step) && !Contends(s, step)
    ensures Uncontested(Apply(s, step))
  {
    var s' := Apply(s, step);
    forall c | c in s'.calls && MayBill(s', s'.calls[c]) ensures TimesBilled(s'.db.bills, Owes(s'.calls[c]).value) == 0 {
      StepGrantsNothing(s, step, c);
      if c !in s.calls { NewcomerOwesUnbilled(s, step); }
    }
    forall c, d | c in s'.calls && d in s'.calls && c != d && MayBill(s', s'.calls[c]) && MayBill(s', s'.calls[d])
      ensures Owes(s'.calls[c]) != Owes(s'.calls[d])
    {
      StepGrantsNothing(s, step, c);
      StepGrantsNothing(s, step, d);
    }
  }

  lemma QuietKeepsUncontested(s: State, step: Step)
    requires Uncontested(s) && Quiet(step)
    ensures Uncontested(Apply(s, step))
  {
    var s' := Apply(s, step);
    StepBills(s, step);
    if s'.db.bills != s.db.bills { OneMoreBill(s.db.bills, Owes(s.calls[step.c]).value); }
    forall c | c in s'.calls && MayBill(s', s'.calls[c]) ensures TimesBilled(s'.db.bills, Owes(s'.calls[c]).value) == 0 {
      StepGrantsNothing(s, step, c);
    }
    forall c, d | c in s'.calls && d in s'.calls && c != d && MayBill(s', s'.calls[c]) && MayBill(s', s'.calls[d])
      ensures Owes(s'.calls[c]) != Owes(s'.calls[d])
    {
      StepGrantsNothing(s, step, c);
      StepGrantsNothing(s, step, d);
    }
  }

  lemma {:induction false} UncontestedIsSafe(s: State, steps: seq<Step>)
    requires Uncontested(s) && AllQuiet(steps)
    ensures Uncontested(Run(s, steps))
  {
    if steps != [] {
      UncontestedIsSafe(s, steps[..|steps| - 1]);
      QuietKeepsUncontested(Run(s, steps[..|steps| - 1]), steps[|steps| - 1]);
    }
  }

  // ---- a contested state has a run that bills twice ----

  lemma {:induction false} LongestName(processed: set<Id>) returns (n: nat)
    ensures forall x :: x in processed ==> |x.name| <= n
  {
    n := 0;
    if processed != {} {
      var x :| x in processed;
      var m := LongestName(processed - {x});
      n := if |x.name| > m then |x.name| else m;
      assert forall y :: y in processed ==> y == x || y in processed - {x};
    }
  }

  function Dashes(n: nat): (r: string)
    ensures |r| == n
  {
    if n == 0 then "" else "-" + Dashes(n - 1)
  }

  /** There is always an event key nobody has used. */
  lemma UnusedKey(processed: set<Id>, tenant: string) returns (key: string)
    ensures Id(tenant, key) !in processed
  {
    var n := LongestName(processed);
    key := Dashes(n + 1);
  }

  /** Charges in flight keep their place and their hope, and no charge bill is lost. */
  ghost predicate Spares(s: State, s': State) {
    && (forall d :: d in s.calls && !s.calls[d].Saving? ==> d in s'.calls && s'.calls[d] == s.calls[d])
    && (forall id, v :: Hopeful(s, id, v) ==> Hopeful(s', id, v))
    && (forall key :: TimesBilled(s'.db.bills, ChargeBill(key)) == TimesBilled(s.db.bills, ChargeBill(key)))
  }

  lemma ReopenSpares(s: State, k: nat)
    requires k in s.calls && s.calls[k].Saving? && s.calls[k].id in s.db.recs
    ensures var s' := Apply(s, StoreMandate(k, false));
      Spares(s, s') && s'.db.recs[s.calls[k].id] == s.db.recs[s.calls[k].id].(status := Criada)
  {
    var s', id := Apply(s, StoreMandate(k, false)), s.calls[k].id;
    OneMoreBill(s.db.bills, MandateBill(id));
    forall m, v | Hopeful(s, m, v) ensures Hopeful(s', m, v) {
      if m != id && Reopening(s, m) {
        var c :| c in s.calls && s.calls[c].Saving? && s.calls[c].id == m;
        assert c in s'.calls && s'.calls[c].Saving? && s'.calls[c].id == m;
      }
    }
  }

  lemma NoticeSpares(s: State, id: Id, v: int, key: string)
    requires v > 0 && Id(id.tenant, key) !in s.db.processed
    requires id in s.db.recs ==> s.db.recs[id].status == Criada && (s.db.recs[id].valorCents > 0 ==> v <= s.db.recs[id].valorCents)
    ensures var s' := Apply(s, RecEvent(id, key, APPROVED, NoFault)); Spares(s, s') && MayDebit(s'.db, id, v)
  {
    var s' := Apply(s, RecEvent(id, key, APPROVED, NoFault));
    assert s'.calls == s.calls;
    forall m | Reopening(s, m) ensures Reopening(s', m) {
      var c :| c in s.calls && s.calls[c].Saving? && s.calls[c].id == m;
      assert s'.calls[c].id == m;
    }
  }

  lemma SparesTransitive(a: State, b: State, c: State)
    requires Spares(a, b) && Spares(b, c) && forall d :: d in a.calls && !a.calls[d].Saving? ==> !b.calls[d].Saving?
    ensures Spares(a, c)
  {
  }

  /** A hopeful gate can be ready without touching any other origination. */
  lemma OpenGate(s: State, id: Id, v: int) returns (steps: seq<Step>)
    requires Hopeful(s, id, v)
    ensures AllQuiet(steps) && Spares(s, Run(s, steps)) && MayDebit(Run(s, steps).db, id, v)
  {
    var key := UnusedKey(s.db.processed, id.tenant);
    var notice := RecEvent(id, key, APPROVED, NoFault);
    if id in s.db.recs && s.db.recs[id].status == Aprovada {
      steps := [];
    } else if id in s.db.recs && IsTerminal(s.db.recs[id].status) {
      var k :| k in s.calls && s.calls[k].Saving? && s.calls[k].id == id;
      var mid := Apply(s, StoreMandate(k, false));
      ReopenSpares(s, k);
      NoticeSpares(mid, id, v, key);
      SparesTransitive(s, mid, Apply(mid, notice));
      RunTwo(s, StoreMandate(k, false), notice);
      steps := [StoreMandate(k, false), notice];
    } else {
      NoticeSpares(s, id, v, key);
      steps := [notice];
      assert steps[..0] == [];
      assert Run(s, steps) == Apply(Run(s, []), notice);
    }
  }

  /** The calls that may bill b are still in place, and b has been billed no less. */
  ghost predicate Unharmed(s: State, s': State, b: Bill) {
    && (forall d :: d in s.calls && MayBill(s, s.calls[d]) && Owes(s.calls[d]) == Some(b) ==>
          d in s'.calls && MayBill(s', s'.calls[d]) && Owes(s'.calls[d]) == Some(b) && (AtStore(s.calls[d]) ==> s'.calls[d] == s.calls[d]))
    && TimesBilled(s'.db.bills, b) >= TimesBilled(s.db.bills, b)
  }

  predicate AtStore(p: Pending) {
    p.Saving? || p.Debited?
  }

  lemma BringCreationToStore(s: State, c: nat) returns (steps: seq<Step>)
    requires c in s.calls && s.calls[c].Registered? && MayBill(s, s.calls[c])
    ensures AllQuiet(steps) && Unharmed(s, Run(s, steps), Owes(s.calls[c]).value)
    ensures c in Run(s, steps).calls && AtStore(Run(s, steps).calls[c])
  {
    steps := [LookUpMandate(c)];
    assert steps[..0] == [];
    assert Run(s, steps) == Apply(Run(s, []), LookUpMandate(c));
  }

  lemma SparedIsUnharmed(s: State, s': State, key: Id)
    requires Spares(s, s')
    ensures Unharmed(s, s', ChargeBill(key))
  {
  }

  lemma DebitUnharmed(s: State, c: nat, key: Id)
    requires c in s.calls && s.calls[c].Gated?
    ensures var s' := Apply(s, DebitAtBank(c, true));
      Unharmed(s, s', ChargeBill(key)) && c in s'.calls && s'.calls[c] == Debited(s.calls[c].id, s.calls[c].txId, s.calls[c].valorCents)
  {
    var s' := Apply(s, DebitAtBank(c, true));
    OneCallMoved(s, s', c);
  }

  lemma GateUnharmed(s: State, c: nat, key: Id)
    requires c in s.calls && s.calls[c].Unrecorded? && MayDebit(s.db, s.calls[c].id, s.calls[c].valorCents)
    ensures var s' := Apply(s, PassGate(c));
      Unharmed(s, s', ChargeBill(key)) && c in s'.calls && s'.calls[c] == Gated(s.calls[c].id, s.calls[c].txId, s.calls[c].valorCents)
  {
    var s' := Apply(s, PassGate(c));
    OneCallMoved(s, s', c);
  }

  /** One origination moves on; the store and the other calls do not. */
  lemma OneCallMoved(s: State, s': State, c: nat)
    requires c in s.calls && c in s'.calls && s'.db == s.db && s'.calls == s.calls[c := s'.calls[c]] && !s.calls[c].Saving?
    ensures forall id, v :: Hopeful(s, id, v) ==> Hopeful(s', id, v)
  {
    forall m | Reopening(s, m) ensures Reopening(s', m) {
      var k :| k in s.calls && s.calls[k].Saving? && s.calls[k].id == m;
      assert s'.calls[k] == s.calls[k];
    }
  }

  lemma UnharmedTransitive(a: State, b: State, c: State, bill: Bill)
    requires Unharmed(a, b, bill) && Unharmed(b, c, bill)
    ensures Unharmed(a, c, bill)
  {
  }

  lemma BringGatedToStore(s: State, c: nat) returns (steps: seq<Step>)
    requires c in s.calls && s.calls[c].Gated?
    ensures AllQuiet(steps) && Unharmed(s, Run(s, steps), Owes(s.calls[c]).value)
    ensures c in Run(s, steps).calls && AtStore(Run(s, steps).calls[c])
  {
    steps := [DebitAtBank(c, true)];
    assert steps[..0] == [];
    assert Run(s, steps) == Apply(Run(s, []), DebitAtBank(c, true));
    DebitUnharmed(s, c, Id(s.calls[c].id.tenant, s.calls[c].txId));
  }

  lemma BringOriginationToStore(s: State, c: nat) returns (steps: seq<Step>)
    requires c in s.calls && s.calls[c].Unrecorded? && MayBill(s, s.calls[c])
    ensures AllQuiet(steps) && Unharmed(s, Run(s, steps), Owes(s.calls[c]).value)
    ensures c in Run(s, steps).calls && AtStore(Run(s, steps).calls[c])
  {
    var p := s.calls[c];
    var key := Id(p.id.tenant, p.txId);
    var opening := OpenGate(s, p.id, p.valorCents);
    var ready := Run(s, opening);
    SparedIsUnharmed(s, ready, key);
    GateUnharmed(ready, c, key);
    var gated := Apply(ready, PassGate(c));
    DebitUnharmed(gated, c, key);
    var debited := Apply(gated, DebitAtBank(c, true));
    UnharmedTransitive(s, ready, gated, ChargeBill(key));
    UnharmedTransitive(s, gated, debited, ChargeBill(key));
    var rest := [PassGate(c), DebitAtBank(c, true)];
    RunAppends(s, opening, rest);
    RunTwo(ready, rest[0], rest[1]);
    steps := opening + rest;
  }

  /** Every call that may bill can be taken to the brink of it without harming a rival. */
  lemma BringToStore(s: State, c: nat) returns (steps: seq<Step>)
    requires c in s.calls && MayBill(s, s.calls[c])
    ensures AllQuiet(steps) && Unharmed(s, Run(s, steps), Owes(s.calls[c]).value)
    ensures c in Run(s, steps).calls && AtStore(Run(s, steps).calls[c])
  {
    if s.calls[c].Registered? {
      steps := BringCreationToStore(s, c);
    } else if s.calls[c].Unrecorded? {
      steps := BringOriginationToStore(s, c);
    } else if s.calls[c].Gated? {
      steps := BringGatedToStore(s, c);
    } else {
      steps := [];
    }
  }

  function StoreStep(p: Pending, c: nat): Step {
    if p.Saving? then StoreMandate(c, false) else StoreCharge(c, false)
  }

  lemma StoreAdds(s: State, c: nat)
    requires c in s.calls && AtStore(s.calls[c])
    ensures var s' := Apply(s, StoreStep(s.calls[c], c)); var b := Owes(s.calls[c]).value;
      && TimesBilled(s'.db.bills, b) == TimesBilled(s.db.bills, b) + 1
      && forall d :: d in s.calls && d != c ==> d in s'.calls && s'.calls[d] == s.calls[d]
  {
    OneMoreBill(s.db.bills, Owes(s.calls[c]).value);
  }

  lemma RunStep(s: State, steps: seq<Step>, step: Step)
    ensures Run(s, steps + [step]) == Apply(Run(s, steps), step)
  {
    assert (steps + [step])[..|steps|] == steps;
  }

  /** One call that may bill, billed once more. */
  lemma BillAgain(s: State, c: nat) returns (steps: seq<Step>)
    requires c in s.calls && MayBill(s, s.calls[c])
    ensures AllQuiet(steps)
    ensures var b := Owes(s.calls[c]).value; TimesBilled(Run(s, steps).db.bills, b) >= TimesBilled(s.db.bills, b) + 1
  {
    var first := BringToStore(s, c);
    var mid := Run(s, first);
    StoreAdds(mid, c);
    RunStep(s, first, StoreStep(mid.calls[c], c));
    steps := first + [StoreStep(mid.calls[c], c)];
  }

  /** Two calls at the brink, one after the other. */
  lemma BothStore(s: State, c: nat, d: nat)
    requires c in s.calls && d in s.calls && c != d && AtStore(s.calls[c]) && AtStore(s.calls[d])
    requires Owes(s.calls[c]) == Owes(s.calls[d])
    ensures TimesBilled(Run(s, [StoreStep(s.calls[c], c), StoreStep(s.calls[d], d)]).db.bills, Owes(s.calls[c]).value) >= 2
  {
    StoreAdds(s, c);
    StoreAdds(Apply(s, StoreStep(s.calls[c], c)), d);
    RunTwo(s, StoreStep(s.calls[c], c), StoreStep(s.calls[d], d));
  }

  lemma BringBothToStore(s: State, c: nat, d: nat) returns (steps: seq<Step>)
    requires c in s.calls && d in s.calls && c != d && MayBill(s, s.calls[c]) && MayBill(s, s.calls[d])
    requires Owes(s.calls[c]) == Owes(s.calls[d])
    ensures AllQuiet(steps) && Unharmed(s, Run(s, steps), Owes(s.calls[c]).value)
    ensures var s' := Run(s, steps); c in s'.calls && d in s'.calls && AtStore(s'.calls[c]) && AtStore(s'.calls[d])
  {
    var one := BringToStore(s, c);
    var s1 := Run(s, one);
    var two := BringToStore(s1, d);
    UnharmedTransitive(s, s1, Run(s1, two), Owes(s.calls[c]).value);
    RunAppends(s, one, two);
    steps := one + two;
  }

  /** Two calls that may bill the same row both bill it. */
  lemma BothBill(s: State, c: nat, d: nat) returns (steps: seq<Step>)
    requires c in s.calls && d in s.calls && c != d && MayBill(s, s.calls[c]) && MayBill(s, s.calls[d])
    requires Owes(s.calls[c]) == Owes(s.calls[d])
    ensures AllQuiet(steps) && TimesBilled(Run(s, steps).db.bills, Owes(s.calls[c]).value) >= 2
  {
    var brink := BringBothToStore(s, c, d);
    var s' := Run(s, brink);
    var stores := [StoreStep(s'.calls[c], c), StoreStep(s'.calls[d], d)];
    BothStore(s', c, d);
    RunAppends(s, brink, stores);
    steps := brink + stores;
  }

  lemma ContestedIsUnsafe(s: State)
    requires !Uncontested(s)
    ensures !InFlightSafe(s)
  {
    if !OnceEach(s.db.bills) {
      assert AllQuiet([]) && Run(s, []) == s;
    } else if c :| c in s.calls && MayBill(s, s.calls[c]) && TimesBilled(s.db.bills, Owes(s.calls[c]).value) > 0 {
      var steps := BillAgain(s, c);
      assert !OnceEach(Run(s, steps).db.bills);
    } else {
      var c, d :| c in s.calls && d in s.calls && c != d && MayBill(s, s.calls[c]) && MayBill(s, s.calls[d])
        && Owes(s.calls[c]) == Owes(s.calls[d]);
      var steps := BothBill(s, c, d);
      assert !OnceEach(Run(s, steps).db.bills);
    }
  }

  // ---- main results ----

  /** From any state, the calls in flight can never bill a row twice exactly when nothing is contested: no two
      of them may still bill the same row, none may bill one already billed, and none was billed twice. */
  lemma InFlightSafeExactlyWhenUncontested(s: State)
    ensures InFlightSafe(s) <==> Uncontested(s)
  {
    if Uncontested(s) {
      forall steps: seq<Step> | AllQuiet(steps) ensures OnceEach(Run(s, steps).db.bills) {
        UncontestedIsSafe(s, steps);
      }
    } else {
      ContestedIsUnsafe(s);
    }
  }

  /** No creation or origination of the run was started against a rival still in flight. */
  ghost predicate Serialised(steps: seq<Step>)
    decreases |steps|
  {
    steps == [] || (var k := |steps| - 1; Serialised(steps[..k]) && !Contends(Run(INIT, steps[..k]), steps[k]))
  }

  /** The calls in flight are safe after every prefix of the run. */
  ghost predicate SafeThroughout(steps: seq<Step>)
    decreases |steps|
  {
    InFlightSafe(Run(INIT, steps)) && (steps != [] ==> SafeThroughout(steps[..|steps| - 1]))
  }

  lemma ContendingIsContested(s: State, step: Step)
    requires Contends(s, step)
    ensures !Uncontested(Apply(s, step))
  {
    var s' := Apply(s, step);
    var d :| d in s.calls && MayBill(s, s.calls[d]) && Owes(s.calls[d]) == Owes(s'.calls[step.c]);
    forall m | Reopening(s, m) ensures Reopening(s', m) {
      var k :| k in s.calls && s.calls[k].Saving? && s.calls[k].id == m;
      assert s'.calls[k] == s.calls[k];
    }
    assert MayBill(s', s'.calls[d]);
  }

  /** A step keeps a state uncontested exactly when it does not contend. */
  lemma StepUncontestedExactly(s: State, step: Step)
    requires Uncontested(s) && RowsBehindBills(s.db)
    ensures Uncontested(Apply(s, step)) <==> !Contends(s, step)
  {
    if Contends(s, step) {
      ContendingIsContested(s, step);
    } else if Quiet(step) {
      QuietKeepsUncontested(s, step);
    } else {
      StartKeepsUncontested(s, step);
    }
  }

  /** A run from the empty system is safe all the way exactly when it never starts a creation or an
      origination of a row that a call in flight may still bill; webhooks, cancellations and crashes may
      fall anywhere. */
  lemma {:induction false} SafeExactlyWhenSerialised(steps: seq<Step>)
    ensures SafeThroughout(steps) <==> Serialised(steps)
    ensures Serialised(steps) ==> Uncontested(Run(INIT, steps))
    decreases |steps|
  {
    InFlightSafeExactlyWhenUncontested(Run(INIT, steps));
    if steps != [] {
      var k := |steps| - 1;
      SafeExactlyWhenSerialised(steps[..k]);
      RunKeepsRowsBehindBills(INIT, steps[..k]);
      if Serialised(steps[..k]) { StepUncontestedExactly(Run(INIT, steps[..k]), steps[k]); }
    }
  }

  lemma EffectBills(db: Db, call: Call)
    ensures var db' := Effect(db, call);
      || db'.bills == db.bills
      || exists b :: db'.bills == db.bills + [b] && !Recorded(db, b) && Recorded(db', b)
  {
  }

  lemma EffectKeepsRecords(db: Db, call: Call, b: Bill)
    requires Recorded(db, b)
    ensures Recorded(Effect(db, call), b)
  {
  }

  /** Whole calls, one after another, bill each mandate and charge at most once, and only with its row. */
  lemma {:induction false} WholeCallsBillOnce(calls: seq<Call>)
    ensures DoAll(INIT, calls).calls == map[]
    ensures OnceEach(DoAll(INIT, calls).db.bills) && RowsBehindBills(DoAll(INIT, calls).db)
  {
    if calls != [] {
      var before := DoAll(INIT, calls[..|calls| - 1]);
      var call := calls[|calls| - 1];
      WholeCallsBillOnce(calls[..|calls| - 1]);
      DoIsAtomic(before, call);
      var db, db' := before.db, Effect(before.db, call);
      EffectBills(db, call);
      if db'.bills != db.bills {
        var b :| db'.bills == db.bills + [b] && !Recorded(db, b) && Recorded(db', b);
        OneMoreBill(db.bills, b);
      }
      forall b | TimesBilled(db'.bills, b) > 0 ensures Recorded(db', b) {
        if Recorded(db, b) { EffectKeepsRecords(db, call, b); }
      }
    }
  }

  /** Two originations of one charge, begun after the mandate was approved, both past their lookup. */
  function Race(id: Id, tx: string): seq<Step> {
    [RecEvent(id, "m", APPROVED, NoFault), LookUpCharge(0, id, tx, 1), LookUpCharge(1, id, tx, 1)]
  }

  /** From the empty system, two originations of one charge in flight together both bill it. */
  lemma RacingOriginationsBillTwice(id: Id, tx: string) returns (rest: seq<Step>)
    ensures AllQuiet(rest) && TimesBilled(Run(INIT, Race(id, tx) + rest).db.bills, ChargeBill(Id(id.tenant, tx))) >= 2
  {
    var r := Race(id, tx);
    RunThree(INIT, r[0], r[1], r[2]);
    var s := Run(INIT, r);
    var s1 := Apply(INIT, r[0]);
    assert s1.db.recs == map[id := Rec(0, Aprovada)] && s1.db.cobrs == map[];
    rest := BothBill(s, 0, 1);
    RunAppends(INIT, r, rest);
  }

  /** The same for two creations that the bank collapsed onto one mandate. */
  lemma RacingCreationsBillTwice(id: Id) returns (rest: seq<Step>)
    ensures AllQuiet(rest)
    ensures TimesBilled(Run(INIT, [RegisterAtBank(0, id, 0), RegisterAtBank(1, id, 0)] + rest).db.bills, MandateBill(id)) >= 2
  {
    var r := [RegisterAtBank(0, id, 0), RegisterAtBank(1, id, 0)];
    RunTwo(INIT, r[0], r[1]);
    rest := BothBill(Run(INIT, r), 0, 1);
    RunAppends(INIT, r, rest);
  }
}
