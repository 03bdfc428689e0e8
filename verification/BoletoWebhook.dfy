/** Settling a boleto from a bank notification that may carry either the bank's own charge id or the external
    reference we derived from the payment id. */
module BoletoWebhook {
  import opened Wrappers
  import opened Text
  import opened PaymentStore
  import X = ExternalReference
  import P = PaymentServices

  datatype Charge = Charge(bankId: string, status: string, amountCents: int)

  /** What the bank holds, by tenant and external reference; refs outside the map are unknown to it. */
  type Bank = map<(string, string), Charge>

  function Upper(s: string): (r: string)
    ensures |r| == |s| && forall i :: 0 <= i < |r| ==> !('a' <= r[i] <= 'z')
  {
    seq(|s|, i requires 0 <= i < |s| => if 'a' <= s[i] <= 'z' then (s[i] as int - 32) as char else s[i])
  }

  /** A registered boleto as the settlement core reads it. Funds confirmed but not credited ask for a
      redelivery; only a paid charge carries a received amount. */
  function ToChargeResult(c: Charge, settlementKey: string): Reading {
    var status := Upper(Trim(c.status));
    if status == "WAITING_CONFIRMATION" then ReadFailed
    else if status == "PAID" then Read(ChargeResult(PAID, c.amountCents, c.amountCents, settlementKey))
    else Read(ChargeResult(status, c.amountCents, 0, settlementKey))
  }

  /** The shape the bank's contract gives a reference. */
  predicate IsContractRef(ref: string) {
    |ref| == 26 && forall i :: 0 <= i < |ref| ==> '0' <= ref[i] <= '9' || 'A' <= ref[i] <= 'Z'
  }

  /** The reconcile read: by our own id when the row was found, else by the notification's reference. */
  function Reconcile(bank: Bank, digest: string -> nat, ev: PaymentEvent, early: Option<Payment>): Reading {
    if early.Some? then
      var at := (ev.tenant, X.ExternalReferenceId(early.value.id, digest));
      if at in bank then ToChargeResult(bank[at], "") else ReadFailed
    else
      var ref := Trim(ev.txId);
      if IsContractRef(ref) && (ev.tenant, ref) in bank
      then ToChargeResult(bank[(ev.tenant, ref)], bank[(ev.tenant, ref)].bankId) else ReadFailed
  }

  function HandleBoleto(db: Db, bank: Bank, digest: string -> nat, ev: PaymentEvent,
                        early: Option<Payment>, found: Option<Payment>, f: Faults): SettleResult {
    if Trim(ev.txId) == "" then SettleResult(db, Rejected)
    else Settle(db, ev, Reconcile(bank, digest, ev, early), found, f)
  }

  method HandleBoletoEvent(repo: P.Repository, bank: Bank, digest: string -> nat, ev: PaymentEvent, lookupFault: bool, f: Faults)
    returns (outcome: Outcome, ghost early: Option<Payment>, ghost found: Option<Payment>)
    requires Valid(repo.View())
    modifies repo
    ensures Valid(repo.View())
    ensures lookupFault && Trim(ev.txId) != "" ==> outcome == Failed && repo.View() == old(repo.View())
    ensures !lookupFault || Trim(ev.txId) == "" ==>
      SettleResult(repo.View(), outcome) == HandleBoleto(old(repo.View()), bank, digest, ev, early, found, f)
    ensures !lookupFault && Trim(ev.txId) != "" ==>
      && FoundByTx(old(repo.View()), ev.tenant, ev.txId, early)
      && var reading := Reconcile(bank, digest, ev, early);
         reading.Read? ==> FoundByTx(old(repo.View()), ev.tenant, SettlementKey(ev, reading.res), found)
  {
    early, found := None, None;
    if Trim(ev.txId) == "" { return Rejected, early, found; }
    if lookupFault { return Failed, early, found; }
    var row := repo.FindPaymentByTxID(ev.tenant, ev.txId);
    early := row;
    outcome, found := P.Settle(repo, ev, Reconcile(bank, digest, ev, row), f);
  }

  /** Without a row of ours, the bank is asked only about a reference of its own shape: 26 digits and capitals. */
  lemma MalformedReferenceIsNotAsked(bank: Bank, digest: string -> nat, ev: PaymentEvent)
    requires |Trim(ev.txId)| != 26 || exists i :: 0 <= i < |Trim(ev.txId)| && !('0' <= Trim(ev.txId)[i] <= '9') && !('A' <= Trim(ev.txId)[i] <= 'Z')
    ensures Reconcile(bank, digest, ev, None) == ReadFailed
  {
  }

  // ---- which bank words mean paid ----

  /** Only the small letters change, each to its capital. */
  lemma UpperLetterByLetter(s: string, i: nat)
    requires i < |s|
    ensures Upper(s)[i] as int == if 'a' as int <= s[i] as int <= 'z' as int then s[i] as int - 'a' as int + 'A' as int else s[i] as int
  {
  }

  /** A boleto read settles exactly when the bank's word, trimmed and in any case, is PAID; then the amounts
      agree. Every other word, the two spellings of cancelled included, carries no received amount. */
  lemma BoletoReadsAsPaidExactly(c: Charge, key: string)
    ensures var r := ToChargeResult(c, key);
      && ((r.Read? && IsPaid(r.res)) <==> Upper(Trim(c.status)) == "PAID")
      && (r.Read? && IsPaid(r.res) ==> r.res.receivedCents == r.res.expectedCents == c.amountCents)
      && (r.Read? && !IsPaid(r.res) ==> r.res.receivedCents == 0)
  {
  }

  /** A charge confirmed but not credited fails the delivery, so the bank sends it again; a cancelled one, in
      either spelling, does not. */
  lemma WaitingAsksForRedelivery(db: Db, ev: PaymentEvent, c: Charge, key: string, found: Option<Payment>)
    requires Addressed(ev) && (ev.tenant, ev.eventKey) !in db.processed && !ev.claimsSettlement
    ensures var o := Settle(db, ev, ToChargeResult(c, key), found, NO_FAULTS).outcome; var word := Upper(Trim(c.status));
      && (word == "WAITING_CONFIRMATION" ==> o == Failed)
      && (word == "CANCELED" || word == "CANCELLED" || word == "CREATED" ==> o == NotYetPayable)
  {
    BoletoReadsAsPaidExactly(c, key);
    assert "CANCELED"[0] == 'C' && "CANCELLED"[0] == 'C' && "CREATED"[0] == 'C' && "WAITING_CONFIRMATION"[0] == 'W' && "PAID"[0] == 'P';
  }

  const CONCLUIDA := "CONCLUIDA"

  function TranslatePixStatus(s: string): string {
    if EqualFold(s, CONCLUIDA) then PAID else s
  }

  /** The PIX translation lets exactly two words through the settlement gate in any letter case: the BACEN
      terminal status and the generic word itself, which passes through untranslated. */
  lemma PixReadsAsPaidExactly(s: string)
    ensures EqualFold(TranslatePixStatus(s), PAID) <==> (EqualFold(s, CONCLUIDA) || EqualFold(s, PAID))
  {
  }

  lemma PixPaidIsNotConcluida()
    ensures !EqualFold("PAID", CONCLUIDA) && EqualFold(TranslatePixStatus("PAID"), PAID)
  {
  }

  // ---- both identifiers lead to the same row ----

  /** The row is keyed by the bank's id, its reference names its charge, and neither identifier names
      anything else. */
  ghost predicate Registered(db: Db, bank: Bank, digest: string -> nat, p: Payment, c: Charge) {
    var ref := X.ExternalReferenceId(p.id, digest);
    && p.id in db.payments && db.payments[p.id] == p && p.txId == c.bankId && Trim(c.bankId) != ""
    && (p.tenant, ref) in bank && bank[(p.tenant, ref)] == c
    && (forall id :: id in db.payments && db.payments[id].tenant == p.tenant && db.payments[id].txId == c.bankId ==> id == p.id)
    && (forall id :: id in db.payments && db.payments[id].tenant == p.tenant ==> db.payments[id].txId != ref)
  }

  /** A delivery about a payment, in either form, that the store has not yet marked. */
  ghost predicate About(db: Db, p: Payment, ev: PaymentEvent) {
    ev.tenant == p.tenant && Addressed(ev) && (ev.tenant, ev.eventKey) !in db.processed
  }

  /** The settled payments map, had the bank's word been taken at once. */
  function Expected(db: Db, p: Payment, c: Charge): map<string, Payment> {
    if Upper(Trim(c.status)) == "PAID" && c.amountCents > 0 && p.status != Canceled
    then db.payments[p.id := p.(status := Paid)] else db.payments
  }

  lemma SymbolsMeetTheContract(ref: string)
    requires X.IsReference(ref)
    ensures IsContractRef(ref) && Trim(ref) == ref
  {
  }

  lemma ReferenceIsContractRef(id: string, digest: string -> nat)
    ensures var ref := X.ExternalReferenceId(id, digest); IsContractRef(ref) && Trim(ref) == ref
  {
    var n := X.IdValue(id, digest);
    X.EncodedIsReference(n);
    SymbolsMeetTheContract(X.Encode(n));
  }

  /** Settling the row under its own key, whatever the bank's word. */
  lemma SettleRegistered(db: Db, ev: PaymentEvent, c: Charge, key: string, p: Payment, found: Option<Payment>)
    requires Valid(db) && p.id in db.payments && db.payments[p.id] == p && About(db, p, ev)
    requires found == Some(p) && p.txId == c.bankId && Trim(c.bankId) != ""
    requires (if key == "" then ev.txId else key) == c.bankId
    ensures Settle(db, ev, ToChargeResult(c, key), found, NO_FAULTS).db.payments == Expected(db, p, c)
  {
    BoletoReadsAsPaidExactly(c, key);
    TrimShape(c.bankId);
    var reading := ToChargeResult(c, key);
    var r := Settle(db, ev, reading, found, NO_FAULTS);
    if reading.Read? && IsPaid(reading.res) && AmountReconciled(reading.res) && p.status != Canceled {
      PaidDeliverySettles(db, ev, reading.res, found);
    }
  }

  /** A notification carrying the bank's id and one carrying our reference settle the same payment row, and
      leave the same payments behind for every word the bank may say. */
  lemma EitherIdentifierSettlesTheRow(db: Db, bank: Bank, digest: string -> nat, p: Payment, c: Charge,
                                      byId: PaymentEvent, byRef: PaymentEvent,
                                      early1: Option<Payment>, found1: Option<Payment>,
                                      early2: Option<Payment>, found2: Option<Payment>)
    requires Valid(db) && Registered(db, bank, digest, p, c) && About(db, p, byId) && About(db, p, byRef)
    requires byId.txId == c.bankId && byRef.txId == X.ExternalReferenceId(p.id, digest)
    requires FoundByTx(db, p.tenant, byId.txId, early1) && FoundByTx(db, p.tenant, byRef.txId, early2)
    requires FoundByTx(db, p.tenant, c.bankId, found1) && FoundByTx(db, p.tenant, c.bankId, found2)
    ensures HandleBoleto(db, bank, digest, byId, early1, found1, NO_FAULTS).db.payments == Expected(db, p, c)
    ensures HandleBoleto(db, bank, digest, byRef, early2, found2, NO_FAULTS).db.payments == Expected(db, p, c)
  {
    assert early1 == Some(p) && found1 == Some(p) && found2 == Some(p) && early2 == None;
    ReferenceIsContractRef(p.id, digest);
    SettleRegistered(db, byId, c, "", p, found1);
    SettleRegistered(db, byRef, c, c.bankId, p, found2);
  }

  /** A notification that neither our store nor the bank can place leaves no mark and no change. */
  lemma UnresolvedLeavesNoTrace(db: Db, bank: Bank, digest: string -> nat, ev: PaymentEvent, found: Option<Payment>, f: Faults)
    requires (ev.tenant, Trim(ev.txId)) !in bank
    ensures HandleBoleto(db, bank, digest, ev, None, found, f).db == db
  {
  }

  /** Money confirmed but not credited leaves no mark either, so the notification comes back. */
  lemma UncreditedLeavesNoTrace(db: Db, ev: PaymentEvent, c: Charge, key: string, found: Option<Payment>, f: Faults)
    requires Upper(Trim(c.status)) != "PAID"
    ensures Settle(db, ev, ToChargeResult(c, key), found, f).db == db
  {
  }
}
