# Verified model of the payment platform's money protocols

A multi-tenant platform creates charges at a bank, settles them from webhooks, debits standing mandates,
keeps the bank's callback slots pointed at live secrets, forwards events to resellers, amends boletos, meters
and invoices usage, and migrated its database once. This project models those protocols in Dafny and proves
what they keep under retries, interleavings, redeliveries, crashes and partial failures.

`dafny verify dfyconfig.toml` checks everything.

## How the model is laid out

| file | what it holds |
|---|---|
| `Text.dfy`, `StringOrder.dfy`, `Numerals.dfy` | trimming and case folding, byte-wise order and sorting, positional numerals |
| `PaymentStore.dfy`, `ChargeProtocol.dfy`, `ChargeProvenance.dfy`, `ChargeBoundary.dfy`, `PaymentServices.dfy` | charge creation by five services and webhook settlement: transaction bodies, the interleaved machine, where stored values come from, the exact boundary of billing once, the imperative services |
| `Recurrence.dfy`, `RecurrenceCalls.dfy`, `RecurrenceBilling.dfy`, `RecurrenceServices.dfy` | PIX Automático mandates and recurring charges: interleaved steps, whole calls, when calls in flight bill twice, the imperative service |
| `BankIdentity.dfy`, `WebhookRegistration.dfy` | who may hold a PIX key or client id; callback registration and its sweep |
| `Backoff.dfy`, `OutboundForward.dfy`, `ForwardOutcomes.dfy` | the retry delay, the forward worker, what its ticks amount to |
| `BoletoTerms.dfy`, `BoletoAmendment.dfy`, `ExternalReference.dfy`, `BoletoWebhook.dfy` | what a boleto costs on a day, partial amendments, the bank reference codec, settlement by either identifier |
| `LoginLockout.dfy`, `ConsoleLogin.dfy` | the lazily pruned lockout and the operator login |
| `Consumption.dfy`, `Invoicing.dfy` | ledger aggregation and invoices |
| `IdempotencyGuard.dfy`, `GuardedServices.dfy` | the time-limited idempotency guard and the three services behind it |
| `TableOrder.dfy`, `Calendar.dfy`, `Timestamps.dfy`, `Normalisation.dfy` | the migration's table order and timestamp rewriting |

A transaction body is one atomic function on the store; whatever runs outside a transaction is a step of its
own. Objects whose methods update fields are classes whose methods are proved equal to those functions.

## Where the code does less than it says

For each of these a lemma says exactly when the property holds, and most have a concrete run or input beside it.

- Creation services look an idempotency key up as given but store it trimmed, and take a non-empty tx id as the
  billed marker: billing once holds in every interleaving exactly when the key carries no surrounding space and
  the bank's tx id is not blank (`ChargeBoundary`). The HTTP handlers trim the key, so an untrimmed one reaches the
  services only from a direct caller.
- A paid row settles again under every further event key, so a payment is announced once per event key and not once
  per payment; a boleto notified by id and by reference can emit two paid events (`ChargeProtocol`).
- The comments at internal/app/webhook.go:172-174 and internal/app/webhook.go:247-248 say a dead charge keeps
  the anti-replay mark; the code rolls back on every unpaid status, and the model follows the code.
- `RetryCobR` gates on the mandate its caller names, but the bank is told only the tx id and nothing checks that
  the charge is of that mandate: a charge of a cancelled mandate is retried by naming another, approved one. The
  comment at internal/app/recurrence.go:715-718 promises the opposite; it holds exactly for retries that name the
  charge's own mandate (`RecurrenceCalls`).
- `CreateMandate` and `OriginateCobR` look for an existing row outside their transaction, so a write can revive a
  terminal mandate or charge (`Recurrence`), and two calls in flight for one mandate or charge can both bill; they
  are safe exactly when no two of them may still bill the same row (`RecurrenceBilling`).
- `ActivateTenant` does no sharing check, and a credential row that cannot be opened is skipped by the key guard
  (`BankIdentity`).
- A claimed delivery leaves the outbox even when its dead letter was not written (`ForwardOutcomes`); a full batch
  of unreadable endpoints at the head of the outbox blocks everything behind it.
- The backoff shift can wrap around into a tiny positive delay when base and cap are large (`Backoff`).
- On the C6 wire, moving the due date drags the expiry, a validity equal to the due date is dropped, the last fee
  cannot be cleared and a negative fixed fine passes validation (`BoletoAmendment`).
- A PIX status spelled "paid" in any case also reads as settled, not only CONCLUIDA (`BoletoWebhook`).
- Two hex ids that differ only in letter case share one external reference (`ExternalReference`).
- A batch invoicing run that fails part-way and is repeated bills the tenants it had reached twice (`Invoicing`).
- Ledger entries are stamped before the transaction that appends them, so one stamped just before a cut and committed
  after the closing is in no invoice; the shortfall is exactly those entries (`Invoicing`).
- An offset can push a four-digit local year out of four digits in UTC, and then the normalised text no longer
  parses (`Normalisation`).

## Model

| member | source | states |
|---|---|---|
| `PaymentStore.ReserveKeepsValid` | internal/app/charge.go:156-190 | reserving a key inserts an unbilled row or changes nothing, and the store stays valid (unique keys, billed exactly when it carries a tx id) |
| `PaymentStore.FinalizeKeepsValid` | internal/app/charge.go:125-144 | whatever stale snapshot the caller holds, the finalising transaction bills the row at most once, never changes a tx id already set and never un-pays a row |
| `PaymentStore.MarkedExactlyWhenTerminal` | internal/app/webhook.go:190-305 | a delivery commits its anti-replay mark exactly on a terminal outcome (settled, divergence audited, settled conflict); any other outcome leaves the store untouched |
| `PaymentStore.SettleKeepsValid` | internal/app/webhook.go:175-320 | every delivery, with any reading and any store fault, keeps the store valid and at most turns one row paid |
| `PaymentStore.UnpaidStatusLeavesNoMark` | internal/app/webhook.go:209-250 | whatever the bank calls an unpaid charge, a dead one included, no mark survives |
| `PaymentStore.PaidDeliverySettles` | internal/app/webhook.go:281-304 | a fault-free delivery for a known row that the bank reports paid in full settles exactly that row |
| `PaymentStore.SettledExactlyWhenPaidInFull` | internal/app/webhook.go:190-304 | a delivery settles exactly when it is new, the bank says paid, received equals expected and is positive, and a row that can still be marked is found and saved; then exactly that row turns paid |
| `PaymentStore.DivergenceIsAuditedExactly` | internal/app/webhook.go:252-279 | a paid charge with any other money is refused exactly once, with the expected and received amounts on the audit trail and no payment changed |
| `PaymentStore.OtherOutcomesExactly` | internal/app/webhook.go:198-298 | the remaining outcomes, each exactly when: repeat, failed read, lagging or not yet payable, no row, row under another tx id, row no longer payable |
| `PaymentServices.Repository.SavePayment` | internal/adapters/persistence/postgres/postgres.go:346-361 | upsert by id, with a conflict when the tenant's key is taken |
| `PaymentServices.ReservePayment` | internal/app/charge.go:156-190 | finds the payment of a key or reserves a pending one with the tenant, endpoint, key and amount asked for; bills nothing; an existing key changes nothing; fails exactly when the request is invalid or the store does |
| `PaymentServices.CreateCharge` | internal/app/charge.go:71-150 | one creation call of any service bills its key exactly once on success, nothing on failure; a billed row carries the bank's own tx id and the one new entry its tenant, endpoint and price; a replay of a billed key changes nothing and fails only where the service asks the bank again |
| `PaymentServices.FinaliseCharge` | internal/app/charge.go:125-144 | re-reads, adopts a billed row, else saves the tx id and appends exactly one entry with its tenant, endpoint and price in one transaction |
| `PaymentServices.Settle` | internal/app/webhook.go:175-320 | the imperative settlement equals the settling transaction function, rollback included |
| `ChargeProtocol.StepKeepsInv` | internal/app/charge.go:71-190 | every step of every request and delivery keeps the protocol invariant and only advances rows |
| `ChargeProtocol.ChargedExactlyWhenBilledOnce` | internal/app/charge.go:93-144 | in every interleaving of requests, crashes and deliveries a payment carries a tx id exactly when one ledger entry bills it; a paid one was billed exactly once |
| `ChargeProtocol.LaterStepsOnlyAdvance` | internal/app/webhook.go:285-304 | over any continuation no row is lost, no tx id changes and a late finalise never turns a paid row back to pending |
| `ChargeProtocol.KeyBilledAtMostOnce` | internal/app/boleto.go:178-214 | across all five services and any mix of endpoints, one tenant's key is billed at most once, even where replays call the bank again |
| `ChargeProtocol.MarkTellsTheHistory` | internal/app/webhook.go:175-320 | for every run, the mark of an event key is present exactly when one earlier delivery was terminal; there is never a second and at most one paid event is published under the key |
| `ChargeProtocol.PaymentAnnouncedOncePerEventKey` | internal/app/webhook.go:306-320 | in every run a payment is announced exactly as often as there are event keys that announced it |
| `ChargeProtocol.EveryEventKeyAnnouncesAgain` | internal/app/webhook.go:293-304 | a paid delivery under an event key not yet marked announces the payment again, even when it is paid already |
| `ChargeProtocol.FruitlessDeliveriesNeverBlock` | internal/app/webhook.go:205-250 | not-yet-paid, lagging and failed deliveries never block a later one |
| `ChargeProtocol.ReplaysExactly` | internal/app/checkout.go:183-190 | a replay of a billed key answers from the row, except that checkout and boleto ask the bank first |
| `ChargeProvenance.PaymentsAreSourced` | internal/app/charge.go:93-144 | in every run each payment was asked for with its amount, endpoint, tenant and key, carries a tx id only if the bank gave it, and is paid only if a delivery found it received in full under that tx id |
| `ChargeProvenance.EntriesAreSourced` | internal/app/charge.go:120-144 | in every run each ledger entry bills a payment of its own tenant, for an endpoint asked for under the payment's key, with the id and price of some finalising transaction |
| `ChargeBoundary.UntrimmedKeyMisbills` | internal/app/charge.go:125-144 | a key given with surrounding space can be billed twice, by an explicit run |
| `ChargeBoundary.BlankTxIdMisbills` | internal/app/charge.go:103-144 | a blank bank tx id is billed without leaving the billed marker |
| `ChargeBoundary.SafeExactlyWhenTrimmedAndNonBlank` | internal/app/charge.go:93-190 | billing agrees with the tx id in every interleaving exactly when the key is trimmed and the tx id is not blank |
| `Recurrence.StepKeepsInv` | internal/app/recurrence.go:110-217 | every interleaved step keeps: an approved row was read as approved, and every pending or made debit was authorised and within the ceiling |
| `Recurrence.DebitsAreAuthorised` | internal/app/recurrence.go:127-186 | in every interleaving each request to debit follows an authoritative APROVADA reading of the same tenant's mandate and respects a fixed mandate's ceiling; each retry follows such a reading of the mandate its caller named, hence of the charge's own when it is on record under that one |
| `Recurrence.MonotoneExactlyUnlessOverwriting` | internal/app/recurrence.go:342-385 | a step moves every mandate and charge legally exactly when it is not a creation or origination landing on a row that appeared and moved on |
| `Recurrence.CreationCanReviveAMandate` | internal/app/recurrence.go:339-346 | the race in which a cancelled mandate is written back as created |
| `Recurrence.OriginationCanReviveACharge` | internal/app/recurrence.go:127-212 | the race in which a settled charge is written back as created |
| `Recurrence.ChargeTakesTheReading` | internal/domain/recurrence/cobr.go:66-80 | what a new fault-free notification does to a charge on record, status by status: an unsettled one takes any later status, a settled one keeps its own |
| `Recurrence.MandateTakesTheReading` | internal/domain/recurrence/recurrence.go:95-106 | the same for a mandate, with its audit entry exactly when it moves |
| `Recurrence.FirstSightCreatesTheRow` | internal/app/webhook_recurrence.go:114-145 | an unknown mandate or charge is created as the bank describes it, a mandate only at a known status |
| `Recurrence.IdleNotifications` | internal/app/webhook_recurrence.go:282-300 | a repeat, a fault or a silent bank changes nothing; an unknown subject only leaves its mark |
| `RecurrenceCalls.DoIsAtomic` | internal/app/recurrence.go:286-387 | the micro-steps of an undisturbed call compose to one effect and leave nothing in flight |
| `RecurrenceCalls.TerminalMandateIsNeverDebited` | internal/app/recurrence.go:127-186 | once a mandate is durably terminal, no later run of calls moves it, debits it, or passes a gate by naming it |
| `RecurrenceCalls.OwnRetriesSpareTerminalMandates` | internal/app/recurrence.go:719-750 | when every retry names its charge's own mandate, no later run draws on a terminal mandate in any way, by debit or by retry of one of its charges |
| `RecurrenceCalls.RetryDrawsOnADeadMandate` | internal/app/recurrence.go:739-749 | a run from the empty system in which a charge of a cancelled mandate is retried by naming another |
| `RecurrenceCalls.RetryIsSafeExactlyForItsOwnMandate` | internal/app/recurrence.go:715-750 | over all runs, an accepted retry of a charge on record under a mandate finds that mandate approved exactly when it is the one named |
| `RecurrenceCalls.TrailReplaysToTheStore` | internal/app/webhook_recurrence.go:101-161 | after any run of calls a mandate exists exactly when its trail is non-empty, the last audited status is the stored one and consecutive statuses are legal moves |
| `RecurrenceCalls.AuditedExactlyWhenMoved` | internal/app/webhook_recurrence.go:96-161 | a call adds a trail entry exactly when it changes a stored mandate, and at most one |
| `RecurrenceCalls.RedeliveryAddsNothing` | internal/app/webhook_recurrence.go:282-300 | the same reading delivered again, under any event key, changes neither mandates nor trail |
| `RecurrenceBilling.InFlightSafeExactlyWhenUncontested` | internal/app/recurrence.go:188-212 | from any state, with notifications, cancellations and crashes in any order, the calls in flight can never bill a row twice exactly when no two of them may still bill the same row and none may bill one already billed |
| `RecurrenceBilling.SafeExactlyWhenSerialised` | internal/app/recurrence.go:127-212 | a run from the empty system is safe all the way exactly when it never starts a creation or origination of a row that a call in flight may still bill |
| `RecurrenceBilling.WholeCallsBillOnce` | internal/app/recurrence.go:127-212 | whole calls in sequence bill each mandate and charge at most once and only with its row on record |
| `RecurrenceBilling.RacingOriginationsBillTwice` | internal/app/recurrence.go:127-212 | from the empty system, two originations of one charge in flight together both bill |
| `RecurrenceBilling.RacingCreationsBillTwice` | internal/app/recurrence.go:339-385 | from the empty system, two creations the bank collapsed onto one mandate both bill |
| `RecurrenceServices.RecurrenceStore.HandleRecEvent` | internal/app/webhook_recurrence.go:74-94 | mark, reconcile and record as one transaction equals the mandate-notified call, a transient failure undoing the mark |
| `RecurrenceServices.RecurrenceStore.RecordRec` | internal/app/webhook_recurrence.go:101-161 | first sight creates, a legal move is saved and audited, anything stale is dropped |
| `RecurrenceServices.RecurrenceStore.HandleCobREvent` | internal/app/webhook_recurrence.go:176-196 | the charge notification as one transaction equals the charge-notified call |
| `RecurrenceServices.RecurrenceStore.RecordCobR` | internal/app/webhook_recurrence.go:204-254 | an unknown charge is kept even at an unknown status; an illegal move is dropped |
| `RecurrenceServices.RecurrenceStore.CreateMandate` | internal/app/recurrence.go:286-387 | equals the run of its protocol steps; an existing mandate is returned unchanged |
| `RecurrenceServices.RecurrenceStore.CancelMandate` | internal/app/recurrence.go:497-544 | equals the run of its protocol steps; cancelling again changes nothing |
| `RecurrenceServices.RecurrenceStore.OriginateCobR` | internal/app/recurrence.go:110-217 | equals the run of its steps; names exactly the first gate that closed; asks the bank for this charge and amount exactly when all were open; on success stores the charge under its mandate and appends one bill |
| `RecurrenceServices.RecurrenceStore.RetryCobR` | internal/app/recurrence.go:719-750 | the bank is asked exactly when the mandate is approved |
| `RecurrenceServices.RecurrenceStore.CancelCobR` | internal/app/recurrence.go:656-713 | equals the run of its steps, without any mandate gate |
| `BankIdentity.AnyOtherActiveHolder` | internal/app/bank_identity.go:85-102 | finds an active holder other than the tenant, finds none among readable ones, or stops without a verdict |
| `BankIdentity.CheckUnclaimed` | internal/app/bank_identity.go:41-80 | over the rows holding an identity, taken means claimed by another active tenant, free means not, and only an unreadable holder leaves it open |
| `BankIdentity.SetCreditorKey` | internal/app/console.go:683-695 | the guarded key write equals the write function, or changes nothing when a holder could not be read |
| `BankIdentity.SetBankCredential` | internal/app/console.go:632-649 | the guarded credential write equals the write function, or changes nothing when a holder could not be read |
| `BankIdentity.WritesTakeEffectExactly` | internal/app/console.go:632-707 | an unclaimed write for a registered tenant takes effect, a new client id keeping the creditor key; a claimed, blank or homeless one changes nothing |
| `BankIdentity.WritesKeepExclusive` | internal/app/console.go:632-707 | any sequence of guarded credential and key writes, registrations, suspensions and removals leaves each PIX key and client id with at most one active tenant |
| `BankIdentity.ActivateExclusiveExactlyWhenUnshared` | internal/app/console.go:376-388 | activation keeps that exclusivity exactly when no other active tenant holds an identity of the tenant |
| `BankIdentity.ClosedRowsBreakExclusivityExactly` | internal/adapters/persistence/postgres/credential.go:247-293 | a key write that skips rows it cannot open breaks exclusivity exactly when it goes through for an active tenant while such a row holds the key for another active one |
| `WebhookRegistration.TryRegisterKeepsOneRef` | internal/app/webhook_registration.go:254-338 | whatever fails, no tenant ends with two active refs |
| `WebhookRegistration.OneFairAttemptConverges` | internal/app/webhook_registration.go:254-338 | from any state, one fault-free attempt makes every channel of an eligible tenant hold one URL with its single active ref |
| `WebhookRegistration.FairAttemptServesEveryChannel` | internal/app/webhook_registration.go:395-445 | after one fault-free attempt of an eligible tenant one ref of its own stands in its PIX slot, in both recurrence slots when wired, and in the slot of every wired service |
| `WebhookRegistration.ReachableExactlyWhenServed` | internal/app/webhook_registration.go:395-445 | reachable means exactly that, channel by channel |
| `WebhookRegistration.LiveExactly` | internal/app/webhook_registration.go:112-133 | a registered URL is live exactly when it is the callback of an active ref of the tenant |
| `WebhookRegistration.BlindAttemptChangesNothing` | internal/app/webhook_registration.go:358-380 | an attempt that cannot read the tenant, its credential or a slot, or cannot mint, changes nothing |
| `WebhookRegistration.LostWritesLeaveTheirSlots` | internal/app/webhook_registration.go:489-515 | an attempt that acts writes exactly the channels whose write was not lost |
| `WebhookRegistration.ReachableIsLeftAlone` | internal/app/webhook_registration.go:455-480 | a reachable tenant's further attempts, however their reads fail, mint and write nothing |
| `WebhookRegistration.SharedSlotExcludes` | internal/app/webhook_registration.go:112-133 | two tenants on one slot are never both reachable |
| `WebhookRegistration.AlternationNeverSettles` | internal/app/webhook_registration.go:254-338 | two eligible tenants on one slot, trying in turn any number of times: the last to try is reachable, the other is not, and every attempt after the first mints and changes the world |
| `WebhookRegistration.SweepConverges` | internal/app/webhook_reconcile.go:53-72 | one fault-free sweep makes every eligible tenant reachable when no two eligible ones share a slot, whatever suspended tenants share |
| `WebhookRegistration.SweepReachesEveryActiveTenant` | internal/app/webhook_registration.go:340-380 | after any guarded writes, one fault-free sweep serves every channel of every active tenant with a key, from any slots and refs |
| `WebhookRegistration.ExclusiveIsDisjoint` | internal/app/webhook_registration.go:395-430 | exclusive bank identities give active tenants disjoint channels |
| `WebhookRegistration.RegistrationService.EvaluateGate` | internal/app/webhook_registration.go:455-480 | the channel loop decides as the order-free gate does, ambiguity first |
| `WebhookRegistration.RegistrationService.RegisterChannels` | internal/app/webhook_registration.go:300-338 | a failed channel never stops the others; registered plus failed is all of them |
| `WebhookRegistration.RegistrationService.Attempt` | internal/app/webhook_registration.go:254-338 | one attempt equals the attempt function and keeps one ref per tenant |
| `WebhookRegistration.RegistrationService.SweepAll` | internal/app/webhook_reconcile.go:53-72 | the sweep attempts every tenant in turn and reports their number |
| `Backoff.ShiftRefinesCappedDoubling` | internal/app/outbound_forward.go:323-327 | for every attempt number the wrapping 64-bit shift with its guard equals min(base·2^attempt, max) whenever base·max < 2^63 |
| `Backoff.MissesExactlyWhenWrappedUnderCap` | internal/app/outbound_forward.go:323-327 | in general it misses that exactly when the product overflows and wraps into the open interval between zero and the cap |
| `Backoff.WrapAroundUndercutsTheCap` | internal/app/outbound_forward.go:323-327 | such a base and cap exist |
| `Backoff.DefaultsAreSafe` | internal/app/outbound_forward.go:73-85 | the default base and cap satisfy the condition |
| `Backoff.JitterBounds` | internal/app/outbound_forward.go:328-330 | the jittered delay is at least half the delay and at most all of it |
| `Backoff.JitterEndpoints` | internal/app/outbound_forward.go:328-330 | the jitter grows with the random factor, from nothing to the whole second half |
| `Backoff.DelaysGrow` | internal/app/outbound_forward.go:320-331 | before jitter the delays never shrink and never pass the cap |
| `OutboundForward.OutboundProcessor.AttemptDelivery` | internal/app/outbound_forward.go:287-318 | accepted exactly when some attempt within the bound is; one request per try to the given URL; sleeps exactly the jittered backoff before each retry, in total at most (maxAttempts − 1) times the cap |
| `OutboundForward.BackoffsAreReal` | internal/app/outbound_forward.go:311-331 | over any number of retries the sleep is at least half of the capped doublings, whatever the jitter |
| `OutboundForward.OutboundProcessor.ParkAndSettle` | internal/app/outbound_forward.go:374-392 | the row leaves the outbox and is audited whether or not the dead letter was written |
| `OutboundForward.OutboundProcessor.DeliverOne` | internal/app/outbound_forward.go:233-281 | the delivery meets its fate, and is terminal exactly when it is not kept |
| `OutboundForward.OutboundProcessor.ProcessPending` | internal/app/outbound_forward.go:208-226 | a tick equals handling each claimed delivery in order; the count is the number of terminal fates; sleep is bounded |
| `ForwardOutcomes.OutboxKeepsExactlyTheUnsettled` | internal/app/outbound_forward.go:208-281 | after a tick the outbox is the claimed deliveries left for retry, in order, then the unclaimed rest |
| `ForwardOutcomes.FateExactly` | internal/app/outbound_forward.go:233-281 | each fate exactly when: unreadable, no endpoint, switched off, some 2xx within the bound, none |
| `ForwardOutcomes.TriesExactly` | internal/app/outbound_forward.go:288-301 | the requests go up to the first accepted one, or all of them |
| `ForwardOutcomes.AuditsFollowTheFates` | internal/app/outbound_forward.go:356-392 | the trail of a batch: in order, each delivered event as delivered and each parked one as dead-lettered |
| `ForwardOutcomes.LetterSaysWhy` | internal/app/outbound_forward.go:374-382 | a dead letter carries the delivery's tenant, event key and reason |
| `ForwardOutcomes.TickConserves` | internal/app/outbound_forward.go:203-281 | with working stores the outbox shrinks by exactly delivered plus dead-lettered plus dropped, which is the returned count, and the audits grow by the first two |
| `ForwardOutcomes.SendsAreBounded` | internal/app/outbound_forward.go:283-318 | a tick sends at most maxAttempts requests about one delivery |
| `ForwardOutcomes.SendsStayInTheAccount` | internal/app/outbound_forward.go:261-266 | every send goes to the enabled endpoint of the delivery's own account |
| `ForwardOutcomes.LostExactlyWhenParkingFailed` | internal/app/outbound_forward.go:374-386 | a claimed event is lost exactly when it was due for parking, that write failed and the removal did not |
| `ForwardOutcomes.TicksDrainTheOutbox` | internal/app/outbound_forward.go:203-226 | while endpoints are readable and rows removable, k ticks take exactly the k oldest batches |
| `ForwardOutcomes.UnreadableHeadBlocksTheRest` | internal/app/outbound_forward.go:250-258 | a batch of unreadable endpoints at the head makes every tick idle |
| `ForwardOutcomes.IdleExactlyWhenAllKept` | internal/app/outbound_forward.go:250-258 | with working stores a tick changes nothing exactly when every claimed endpoint was unreadable |
| `BoletoTerms.WithDiscounts` | internal/domain/boleto/boleto.go:125-164 | the single pass over adjacent tiers accepts exactly the strictly ordered, sound schedules |
| `BoletoTerms.Build` | internal/app/boleto.go:489-507 | validation succeeds exactly on sound terms |
| `BoletoTerms.FirstTierIsBest` | internal/domain/boleto/boleto.go:279-295 | the first tier that applies is the most generous one that applies |
| `BoletoTerms.WaitingNeverPays` | internal/domain/boleto/boleto.go:297-303 | for every sound boleto the amount due is positive and never falls from one day to a later one |
| `BoletoTerms.LateOwes` | internal/domain/boleto/boleto.go:244-266 | k days late: the principal, the fine once, and k thirtieths of the monthly interest, rounded to the nearest cent |
| `BoletoTerms.EarlyOwes` | internal/domain/boleto/boleto.go:279-303 | k days early or on the day: the principal less the most generous tier reached, if any |
| `BoletoTerms.SoundExactly` | internal/domain/boleto/boleto.go:16-31 | the limits of a valid boleto in numbers |
| `BoletoTerms.FineWithinTheLaw` | internal/domain/boleto/boleto.go:247-255 | the fine never exceeds two percent, whichever way it is expressed |
| `BoletoAmendment.UpdateBoleto` | internal/app/boleto.go:287-310 | a patch goes out exactly when the merged boleto is sound, and applying it at a bank that replaces the fee block wholesale yields exactly the merged boleto |
| `BoletoAmendment.MergeRefusesExactly` | internal/app/boleto.go:334-349 | a request is refused exactly when it amends the amount without a currency, names a bad currency, leaves no positive amount, or lists more than twelve tiers |
| `BoletoAmendment.MergeIsFieldwise` | internal/app/boleto.go:352-380 | each merged field is the one asked for, or else the registered one |
| `BoletoAmendment.AmendmentsLoseNothing` | internal/app/boleto.go:325-413 | over any run of partial amendments the bank holds the field-by-field overlay and stays sound: no omitted rate or tier is lost |
| `BoletoAmendment.NaivePatchLosesFees` | internal/app/boleto.go:397-411 | sending only the named fees would keep the merged boleto exactly when every unnamed fee was absent |
| `BoletoAmendment.WireHoldsWhatWasValidated` | internal/adapters/bank/c6/boleto.go:901-945 | on the C6 wire the bank ends up holding the validated boleto exactly for the amendments that move no due date under an expiry, set no validity on the due date, clear no last fee and carry no negative fixed fine |
| `BoletoAmendment.WireRefusesExactly` | internal/adapters/bank/c6/boleto.go:901-972 | the adapter refuses exactly an amount over the limit, a validity without due date, a second tier, or a patch that says nothing |
| `BoletoAmendment.WireSays` | internal/adapters/bank/c6/boleto.go:342-382 | how each fee is said on the wire |
| `BoletoAmendment.DueDateDragsTheExpiry` | internal/adapters/bank/c6/boleto.go:922-931 | an amendment of the due date alone moves the expiry at the bank but not in the merged view |
| `BoletoAmendment.LastFeeCannotBeCleared` | internal/adapters/bank/c6/boleto.go:342-382 | clearing the only fee is validated but not sent |
| `ExternalReference.EncodeCrockford` | internal/adapters/bank/c6/boleto.go:87-97 | the right-to-left division loop writes the base-32 numeral |
| `ExternalReference.DecodeReference` | internal/adapters/bank/c6/boleto.go:109-130 | the Horner loop decodes, refusing foreign symbols and anything over 128 bits |
| `ExternalReference.Alphabet` | internal/adapters/bank/c6/boleto.go:38-41 | the thirty-two symbols in order |
| `ExternalReference.DecodeInvertsEncode` | internal/adapters/bank/c6/boleto.go:74-81 | decoding an id's reference gives the id back, in lower case |
| `ExternalReference.EncodeInvertsDecode` | internal/adapters/bank/c6/boleto.go:99-130 | encoding a decoded reference gives the reference back |
| `ExternalReference.SharedReferenceExactlyUpToCase` | internal/adapters/bank/c6/boleto.go:52-81 | two hex ids share a reference exactly when they differ at most in letter case |
| `BoletoWebhook.HandleBoletoEvent` | internal/app/webhook_boleto.go:44-76 | store lookup, then bank read by our id or by the notification's reference, then settlement; a failed lookup changes nothing |
| `BoletoWebhook.BoletoReadsAsPaidExactly` | internal/app/webhook_boleto.go:113-154 | a boleto read settles exactly on the word PAID, trimmed and in any case, with agreeing amounts; every other word carries no received amount |
| `BoletoWebhook.EitherIdentifierSettlesTheRow` | internal/app/webhook_boleto.go:24-91 | a notification by bank id and one by external reference leave the same payments behind, for every word the bank may say |
| `BoletoWebhook.UnresolvedLeavesNoTrace` | internal/app/webhook_boleto.go:80-91 | a notification neither the store nor the bank can place leaves no mark and no change |
| `BoletoWebhook.UncreditedLeavesNoTrace` | internal/app/webhook_boleto.go:116-128 | money confirmed but not credited leaves no mark, so the notification comes back |
| `BoletoWebhook.MalformedReferenceIsNotAsked` | internal/adapters/bank/c6/boleto.go:807-837 | without a row of ours, a reference that is not 26 digits and capitals is not asked about |
| `BoletoWebhook.WaitingAsksForRedelivery` | internal/app/webhook_boleto.go:116-137 | confirmed but not credited fails the delivery so it is sent again; cancelled in either spelling does not |
| `BoletoWebhook.PixReadsAsPaidExactly` | internal/adapters/bank/pixsettle.go:91-99 | exactly two words pass the settlement gate, in any letter case: CONCLUIDA and the generic paid |
| `BoletoWebhook.PixPaidIsNotConcluida` | internal/adapters/bank/pixsettle.go:72-74 | a status that is not CONCLUIDA and still reads as settled |
| `LoginLockout.Lockout.Locked` | internal/app/consoleauth.go:395-408 | answers from the map and drops a stale entry |
| `LoginLockout.Lockout.Strike` | internal/app/consoleauth.go:411-421 | counts within the window, restarts after it, and extends the window from now |
| `LoginLockout.LazyMapRefinesHistory` | internal/app/consoleauth.go:374-428 | for every history at non-decreasing times the pruned map locks a user exactly when the full history has a long enough streak within the window that has not elapsed |
| `LoginLockout.BackwardClockForgets` | internal/app/consoleauth.go:402-406 | a clock that steps back breaks that agreement |
| `ConsoleLogin.ConsoleAuthService.Login` | internal/app/consoleauth.go:264-317 | the login as one step over lockout, replay store and sessions, faults included |
| `ConsoleLogin.GrantedExactly` | internal/app/consoleauth.go:264-317 | a login is granted exactly when the user is not locked, the stores work, the user and password match, and the code is valid and newer than the last consumed |
| `ConsoleLogin.AttemptLeaves` | internal/app/consoleauth.go:272-306 | the whole new state: a failed check of an unlocked user adds exactly one strike, a proved one consumes its step and clears them, anything else adds none |
| `ConsoleLogin.AttemptsNeverExtendALock` | internal/app/consoleauth.go:268-274 | attempts made during a lock never extend it and none of them gets in |
| `ConsoleLogin.ConsumedStepsStrictlyIncrease` | internal/app/consoleauth.go:319-339 | accepted TOTP steps strictly increase, as section 5.2 of RFC 6238 requires, and each session cost one |
| `ConsoleLogin.LoginsLockByFullHistory` | internal/app/consoleauth.go:264-317 | in every login run the lock answers by the recorded strikes since the last success |
| `ConsoleLogin.FailuresInARowAreBounded` | internal/app/consoleauth.go:257-301 | no run has more than max failed checks of one user in a row, each within the window of the one before |
| `Consumption.ConsumptionInRange` | internal/app/console.go:912-943 | one line per endpoint seen, in name order, with what the ledger records for it, and the total |
| `Consumption.AccountConsumptionInRange` | internal/app/console.go:1068-1122 | each tenant seen, in name order, with its own report, and the grand total |
| `Consumption.FiguresCountEntries` | internal/app/console.go:923-936 | calls are the number of the entries in the window and cents the sum of their recorded prices |
| `Consumption.ReportBalances` | internal/app/console.go:923-936 | line totals sum to the tenant's total, in calls and cents |
| `Consumption.AccountReportBalances` | internal/app/console.go:1085-1121 | tenant totals sum to the account's and each tenant's lines to the tenant's |
| `Consumption.TallyIgnoresOrder` | internal/app/console.go:923-936 | every figure depends on which entries there are, not on their order |
| `Consumption.ReportIgnoresOrder` | internal/app/console.go:937-942 | any reordering of the ledger gives the same report |
| `Consumption.AccountReportIgnoresOrder` | internal/app/console.go:1110-1121 | any reordering of the ledger gives the same rollup |
| `Invoicing.InvoiceStore.GenerateInvoice` | internal/app/console.go:958-1007 | a bounded window adds one invoice billing exactly the ledger of its period; it stays even when the audit after it fails |
| `Invoicing.InvoiceStore.GenerateAccountInvoices` | internal/app/account_console.go:378-415 | one invoice per tenant with consumption, in order; a fault leaves those already made |
| `Invoicing.BatchBillsTheWindow` | internal/app/account_console.go:399-414 | a batch bills exactly what the account's ledger records for the window |
| `Invoicing.RetriedBatchBillsTwice` | internal/app/account_console.go:400-413 | a batch failed part-way and run again exceeds the ledger by exactly what the reached tenants owe |
| `Invoicing.PeriodsFallShortByTheMissed` | internal/app/console.go:881-899 | consecutive half-open periods, each closed once, bill the ledger of the whole span short of exactly the entries appended to a period after its closing |
| `Invoicing.PeriodsBillTheLedgerOnceExactly` | internal/app/console.go:881-1007 | every call of the span is billed once exactly when no period had an entry appended after its closing |
| `Invoicing.LateCommitIsNeverInvoiced` | internal/app/charge.go:118-144 | an entry stamped before the cut and committed after the closing is in no invoice, of this period or the next |
| `Invoicing.EntryFallsInOnePeriod` | internal/app/console.go:890-899 | every entry of the span falls in exactly one period |
| `IdempotencyGuard.Guard.Prune` | internal/app/client_provisioning.go:231-237 | the loop drops exactly the expired entries |
| `IdempotencyGuard.ReplayedExactlyWithinTtl` | internal/app/account_key.go:125-167 | in every run at a non-decreasing clock a call is replayed exactly when the last fresh result under its key is no older than the limit, and then with that result; otherwise its own work decides, so a failure never blocks a retry |
| `IdempotencyGuard.FreshResultsAreFarApart` | internal/app/client_provisioning.go:158-203 | two fresh results under one key are more than the limit apart |
| `IdempotencyGuard.ReplaysAreFaithful` | internal/app/account_console.go:361-375 | until the limit has passed every call under the key replays that very result |
| `IdempotencyGuard.GuardKeyIsExact` | internal/app/account_key.go:138 | accounts without a zero character share a guard key exactly when account and key agree |
| `IdempotencyGuard.ZeroCharacterCollides` | internal/app/account_key.go:138 | with one they can collide |
| `GuardedServices.AccountKeyService.RotateAccountKey` | internal/app/account_key.go:125-167 | mints at most once under a key; a replay returns no secret and leaves the account's key alone; a failed audit does not use up the key |
| `GuardedServices.ClientProvisioningService.Provision` | internal/app/client_provisioning.go:141-204 | creates one client under a key; a replay returns the same client and no reference |
| `GuardedServices.GuardedInvoicing.GenerateAccountInvoices` | internal/app/account_console.go:347-376 | a replay returns the first batch and adds no invoice; without a key every call generates |
| `TableOrder.OrderedTables` | cmd/db-migrate/main.go:188-234 | returns an order exactly when the foreign keys without self-references form no cycle: every copied table once, every referenced table before its referrer; otherwise it names, in order, tables that wait on each other |
| `TableOrder.Rounds` | cmd/db-migrate/main.go:199-234 | the Kahn loop computes the order that is a function of the schema alone |
| `TableOrder.CollectReady` | cmd/db-migrate/main.go:202-217 | the ready tables of a round, each once, whatever order the map gives |
| `TableOrder.OrderedExactlyWhenAcyclic` | cmd/db-migrate/main.go:197-234 | the order exists exactly for acyclic graphs, lists every table once and every referenced table first, and does not depend on map iteration |
| `TableOrder.StuckHasCycle` | cmd/db-migrate/main.go:218-227 | a set in which every table waits on another of it contains a cycle |
| `Calendar.ChronologicalIsLexical` | cmd/db-migrate/main.go:320-330 | a valid civil time is later exactly when its fields are, and no two share an instant |
| `Timestamps.FixedReadsBack` | cmd/db-migrate/main.go:49-54 | the fixed layout parses to the instant it was written for |
| `Normalisation.Layouts` | cmd/db-migrate/main.go:49-54 | how both layouts are written, separators and offsets included |
| `Normalisation.KeepsTheInstantExactly` | cmd/db-migrate/main.go:333-352 | normalising keeps the instant exactly when its UTC year has four digits |
| `Normalisation.Idempotent` | cmd/db-migrate/main.go:331-352 | normalising twice is normalising once, for every text |
| `Normalisation.TextOrderIsTimeOrder` | cmd/db-migrate/main.go:320-352 | byte-wise order of normalised timestamps is chronological order (section 5.1 of RFC 3339), and equal text means equal instants |
| `Normalisation.SourceRowsMigrate` | cmd/db-migrate/main.go:347-351 | every timestamp the old adapter could write, at any offset, parses to its instant and migrates to the fixed layout of the UTC civil time of that instant |
| `Normalisation.SourceOrderIsWrong` | cmd/db-migrate/main.go:323-329 | in the source layout a whole second sorts after every fraction of itself |

## Left out

- Transactions are taken to be serializable, and the autocommit unit of work, which lacks atomicity, is not modelled.
- Clock readings, minted ids and secrets, bank answers and store faults are parameters; a process is a sequence of calls except in the interleaved machines.
- Tenant ids, mandate ids and charge tx ids of the recurrence flows are taken as already trimmed, as the HTTP layer hands them on.
- BankIdentity.WritesKeepExclusive: one bank; the guards look holders up per bank slug, so rows of another bank do not take part. The holder list is taken to be complete; what a skipped row does is stated separately.
- Backoff.JitterBounds: real arithmetic where the source multiplies float64; the bounds are proved for every factor from zero to one inclusive, which covers a product rounded up to the whole half.
- BoletoAmendment.WireHoldsWhatWasValidated: assumes the bank keeps its count of days after the due date when an amendment moves only the due date, as a partial update of a stored count does.
- Cents are unbounded integers; only the backoff models 64-bit wrap-around.
- The bank read inside a settlement is any reading at all; only the boleto and PIX translations are modelled, not the checkout one.
- Publishing failures, logging, masking, rate limiting and JSON encoding change no state the properties speak of.
- Cancelling a context in the middle of a batch or sweep, and failures to serialise our own event, are not modelled.
- Cryptography (password hashes, TOTP codes, signatures, the digest behind a malformed id) is opaque.
- The due-date, checkout and immediate-charge requests are modelled only where they share the charge protocol; payer, address and expiry validation is not.
- The parser leniencies of the time library (one-digit hour, comma before the fraction) are not part of the accepted timestamps; the old adapter never writes them. Driver values that are not text pass through unmodelled.
- Letter case is folded for ASCII only.
- Sessions after login, bootstrap and the credential store behind it are not modelled.
- Boleto dates are whole days, so the time of day of a payment and changes of a zone's offset are not modelled.
- The statement, DDA, acquirer and plain-boleto services, the HTTP layer, the operator tools and the rendering adapters are left out: they would only add easy members.
