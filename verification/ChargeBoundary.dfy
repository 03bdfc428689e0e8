/** Exactly when billing-once holds. The services look a key up as given but store it trimmed, and take
    a non-empty tx id as the billed marker; so it depends on what callers and the bank hand in. */
module ChargeBoundary {
  import opened Wrappers
  import opened Text
  import opened PaymentStore
  import opened ChargeProtocol

  /** Every request carries `key`, with or without its surrounding space, and the bank answers `tx`. */
  ghost predicate Uses(steps: seq<Step>, key: string, tx: string) {
    forall i :: 0 <= i < |steps| ==>
      match steps[i]
      case Begin(_, req) => req.key == key || req.key == Trim(key)
      case BankCreate(_, answer) => answer.Some? ==> answer.value == tx
      case _ => true
  }

  ghost predicate BillsAgree(db: Db) {
    forall id :: id in db.payments ==> BilledOnce(db, id)
  }

  /** No interleaving of requests under this key, with the bank answering this tx id, misbills. */
  ghost predicate Safe(key: string, tx: string) {
    forall steps: seq<Step> | Legal(steps) && Uses(steps, key, tx) :: BillsAgree(After(steps).db)
  }

  ghost predicate Reaches(steps: seq<Step>, s: State) {
    Legal(steps) && After(steps) == s
  }

  lemma Extend(steps: seq<Step>, s: State, step: Step)
    requires Reaches(steps, s) && Enabled(s, step)
    ensures Reaches(steps + [step], Apply(s, step))
  {
  }

  ghost predicate Moves(s: State, step: Step, s': State) {
    Enabled(s, step) && Apply(s, step) == s'
  }

  lemma ExtendByTwo(run: seq<Step>, s: State, s1: State, s2: State, a: Step, b: Step)
    requires Reaches(run, s) && Moves(s, a, s1) && Moves(s1, b, s2)
    ensures Reaches(run + [a, b], s2)
  {
    Extend(run, s, a);
    Extend(run + [a], s1, b);
    assert run + [a, b] == run + [a] + [b];
  }

  lemma ExtendByFour(run: seq<Step>, s: State, s1: State, s2: State, s3: State, s4: State, a: Step, b: Step, c: Step, d: Step)
    requires Reaches(run, s) && Moves(s, a, s1) && Moves(s1, b, s2) && Moves(s2, c, s3) && Moves(s3, d, s4)
    ensures Reaches(run + [a, b, c, d], s4)
  {
    ExtendByTwo(run, s, s1, s2, a, b);
    ExtendByTwo(run + [a, b], s2, s3, s4, c, d);
    assert run + [a, b, c, d] == run + [a, b] + [c, d];
  }

  function Asking(key: string, pc: Pc): Request {
    Request(GenericCharge, "t", key, "e", 1, pc)
  }

  function Row(key: string, tx: string): Payment {
    Payment("p", "t", "e", Trim(key), 1, Pending, tx)
  }

  /** The first request up to its bank answer: its row is reserved and it holds the tx id. */
  ghost function Opening(key: string, tx: string): seq<Step> {
    [Begin(0, Asking(key, Looking)), Lookup(0, None, "p"), Reserve(0, false), BankCreate(0, Some(tx))]
  }

  ghost function Opened(key: string, tx: string): State {
    State(EMPTY_DB.(payments := map["p" := Row(key, "")]),
          map[0 := Asking(key, Charged(Row(key, Trim(tx))))], {"p"}, [], [])
  }

  lemma OpeningMoves(key: string, tx: string)
    requires Trim(key) != ""
    ensures
      var s1 := INIT.(requests := map[0 := Asking(key, Looking)]);
      var s2 := s1.(requests := map[0 := Asking(key, Reserving(Row(key, "")))], issued := {"p"});
      var s3 := s2.(requests := map[0 := Asking(key, Holding(Row(key, "")))], db := Opened(key, tx).db);
      && Moves(INIT, Opening(key, tx)[0], s1) && Moves(s1, Opening(key, tx)[1], s2)
      && Moves(s2, Opening(key, tx)[2], s3) && Moves(s3, Opening(key, tx)[3], Opened(key, tx))
  {
    TrimShape("p");
    TrimShape("t");
    TrimShape("e");
  }

  lemma OpeningRuns(key: string, tx: string)
    requires Trim(key) != ""
    ensures Reaches(Opening(key, tx), Opened(key, tx)) && Uses(Opening(key, tx), key, tx)
  {
    OpeningMoves(key, tx);
    var s1 := INIT.(requests := map[0 := Asking(key, Looking)]);
    var s2 := s1.(requests := map[0 := Asking(key, Reserving(Row(key, "")))], issued := {"p"});
    var s3 := s2.(requests := map[0 := Asking(key, Holding(Row(key, "")))], db := Opened(key, tx).db);
    var o := Opening(key, tx);
    ExtendByFour([], INIT, s1, s2, s3, Opened(key, tx), o[0], o[1], o[2], o[3]);
    assert [] + Opening(key, tx) == Opening(key, tx);
  }

  lemma Exposes(steps: seq<Step>, s: State, last: Step, key: string, tx: string)
    requires Reaches(steps, s) && Uses(steps, key, tx) && Enabled(s, last) && Uses([last], key, tx)
    requires !BillsAgree(Apply(s, last).db)
    ensures !Safe(key, tx)
  {
    Extend(steps, s, last);
    assert Uses(steps + [last], key, tx) by {
      assert forall i :: 0 <= i < |steps| ==> (steps + [last])[i] == steps[i];
      assert (steps + [last])[|steps|] == [last][0];
    }
  }

  /** A blank tx id is billed without leaving the billed marker. */
  lemma BlankTxIdMisbills(key: string, tx: string)
    requires Trim(key) != "" && Trim(tx) == "" && Trimmed(key)
    ensures !Safe(key, tx)
  {
    TrimShape(key);
    OpeningRuns(key, tx);
    var last := Finalise(0, Some(Row(key, "")), "e1", 0, false);
    var entry := LedgerEntry("e1", "t", "e", "p", 0);
    assert [] + [entry] == [entry];
    BillsAppend([], entry, "p");
    assert Apply(Opened(key, tx), last).db == Db(map["p" := Row(key, "")], [entry], {}, []);
    assert !BilledOnce(Apply(Opened(key, tx), last).db, "p");
    Exposes(Opening(key, tx), Opened(key, tx), last, key, tx);
  }

  /** The second request of the race, under the trimmed key: it resumes the reservation and bills it. */
  ghost function Rival(key: string, tx: string): seq<Step> {
    [Begin(1, Asking(Trim(key), Looking)), Lookup(1, Some(Row(key, "")), "q"), BankCreate(1, Some(tx)),
     Finalise(1, Some(Row(key, "")), "e1", 0, false)]
  }

  ghost function Raced(key: string, tx: string): State {
    State(Db(map["p" := Row(key, Trim(tx))], [LedgerEntry("e1", "t", "e", "p", 0)], {}, []),
          map[0 := Asking(key, Charged(Row(key, Trim(tx)))),
              1 := Asking(Trim(key), Finished(Some(Row(key, Trim(tx)))))],
          {"p", "e1"}, [], [])
  }

  lemma RivalBills(key: string, tx: string, s3: State)
    requires Trim(key) != "" && Trim(tx) != ""
    requires s3 == Opened(key, tx).(requests := Opened(key, tx).requests[1 := Asking(Trim(key), Charged(Row(key, Trim(tx))))])
    ensures Moves(s3, Rival(key, tx)[3], Raced(key, tx))
  {
    var after := Apply(s3, Rival(key, tx)[3]);
    assert after.requests == Raced(key, tx).requests;
    assert after.issued == Raced(key, tx).issued;
    assert after.db.payments == Raced(key, tx).db.payments;
  }

  lemma RivalMoves(key: string, tx: string)
    requires Trim(key) != "" && Trim(tx) != ""
    ensures
      var s := Opened(key, tx);
      var s1 := s.(requests := s.requests[1 := Asking(Trim(key), Looking)]);
      var s2 := s.(requests := s.requests[1 := Asking(Trim(key), Holding(Row(key, "")))]);
      var s3 := s.(requests := s.requests[1 := Asking(Trim(key), Charged(Row(key, Trim(tx))))]);
      Moves(s, Rival(key, tx)[0], s1) && Moves(s1, Rival(key, tx)[1], s2) && Moves(s2, Rival(key, tx)[2], s3)
  {
    TrimShape("t");
  }

  lemma RivalRuns(key: string, tx: string)
    requires Trim(key) != "" && Trim(tx) != ""
    ensures Reaches(Opening(key, tx) + Rival(key, tx), Raced(key, tx))
    ensures Uses(Opening(key, tx) + Rival(key, tx), key, tx)
  {
    OpeningRuns(key, tx);
    RivalMoves(key, tx);
    var s := Opened(key, tx);
    var s1 := s.(requests := s.requests[1 := Asking(Trim(key), Looking)]);
    var s2 := s.(requests := s.requests[1 := Asking(Trim(key), Holding(Row(key, "")))]);
    var s3 := s.(requests := s.requests[1 := Asking(Trim(key), Charged(Row(key, Trim(tx))))]);
    RivalBills(key, tx, s3);
    var r := Rival(key, tx);
    ExtendByFour(Opening(key, tx), s, s1, s2, s3, Raced(key, tx), r[0], r[1], r[2], r[3]);
  }

  lemma TwoEntriesBillTwice(key: string, tx: string, first: LedgerEntry, second: LedgerEntry)
    requires first.reference == "p" && second.reference == "p"
    ensures !BilledOnce(Db(map["p" := Row(key, tx)], [first] + [second], {}, []), "p")
  {
    BillsAppend([], first, "p");
    BillsAppend([first], second, "p");
    assert [] + [first] == [first];
  }

  lemma LateFinaliseBillsAgain(key: string, tx: string)
    requires Trim(key) != "" && !Trimmed(key) && Trim(tx) != ""
    ensures Enabled(Raced(key, tx), Finalise(0, None, "e0", 0, false))
    ensures !BillsAgree(Apply(Raced(key, tx), Finalise(0, None, "e0", 0, false)).db)
  {
    TrimShape(key);
    var s := Raced(key, tx);
    var first := LedgerEntry("e1", "t", "e", "p", 0);
    var second := LedgerEntry("e0", "t", "e", "p", 0);
    assert !KeyTaken(s.db, "t", key);
    var after := Finalize(s.db, None, Row(key, Trim(tx)), second);
    assert after == Billed(Db(map["p" := Row(key, Trim(tx))], [first] + [second], {}, []));
    TwoEntriesBillTwice(key, Trim(tx), first, second);
  }

  /** A key given with surrounding space can be billed twice: its finalise looks up a key no row has,
      so it does not see that a request under the trimmed key already billed the row. */
  lemma UntrimmedKeyMisbills(key: string, tx: string)
    requires Trim(key) != "" && !Trimmed(key) && Trim(tx) != ""
    ensures !Safe(key, tx)
  {
    RivalRuns(key, tx);
    LateFinaliseBillsAgain(key, tx);
    Exposes(Opening(key, tx) + Rival(key, tx), Raced(key, tx), Finalise(0, None, "e0", 0, false), key, tx);
  }

  /** Billing agrees with the tx id in every interleaving exactly when the key carries no surrounding
      space and the bank's tx id is not blank. */
  lemma SafeExactlyWhenTrimmedAndNonBlank(key: string, tx: string)
    requires Trim(key) != ""
    ensures Safe(key, tx) <==> Trimmed(key) && Trim(tx) != ""
  {
    TrimShape(key);
    if Trimmed(key) && Trim(tx) != "" {
      forall steps: seq<Step> | Legal(steps) && Uses(steps, key, tx) ensures BillsAgree(After(steps).db) {
        RunKeepsInv(steps);
      }
    } else if Trim(tx) != "" {
      UntrimmedKeyMisbills(key, tx);
    } else {
      var k := Trim(key);
      TrimShape(k);
      BlankTxIdMisbills(k, tx);
      var steps: seq<Step> :| Legal(steps) && Uses(steps, k, tx) && !BillsAgree(After(steps).db);
      assert Uses(steps, key, tx);
    }
  }
}
