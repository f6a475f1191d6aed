# Boss Paegi: a verified model of its durable protocols

This Dafny 4.11 project models the parts of the repository that must stay right when messages are
lost, late or repeated, when workers crash and when several tabs act at once, together with the
pure cores those parts rest on. `dafny verify dfyconfig.toml` checks it.

| modules | what they model |
|---|---|
| `ReactivationWorld`, `ReactivationSafety`, `ReactivationTheorems` | the jobs, repairs, leases and Auth triggers of account reactivation as one transition system, taken from the SQL migrations; invariants and theorems over all runs |
| `ReactivationAftermath` | what can become of a completed job: exactly which events end it, who sends them, when left-over traffic is harmless |
| `ReactivationCloud`, `ReactivationWorker`, `ReactivationRepair`, `ReactivationDrain`, `ReactivationConvergence` | the worker code against that system; every call may be preceded and followed by arbitrary events and may lose its request or its answer |
| `CreditServer`, `CreditIntent` | credit adjustment: the transaction with its receipts and ledger, and the browser with its pending record, lock and recovery |
| `RefundIntent`, `CancelIntent` | the durable intents of refund and cancellation |
| `CanonicalText`, `CanonicalJson`, `CanonicalValue`, `CanonicalHeap`, `AdminRequestId` | canonical JSON over a heap that may be cyclic, and the request id derived from it |
| `JsonReader`, `CanonicalMeaning` | a reader of JSON texts, and what a canonical text means to it |
| `HistogramMath`, `Concentration`, `ScoreBands` | histogram median, concentration index, score bands, with the merging of daily rows |
| `ScoreSubmission` | the score submission hook |
| `CleanupTargets`, `AccountCleanup`, `CleanupQueue` | the account deletion clean-up: targets, batches, Auth scrub, drain, and the queue over many drains |
| `ActiveEvents` | the active-events snapshot, its cache lifetime, and the query that produces it |
| `Acquisition` | the gated send queue and the first-touch record |

Where the source changes state step by step, a class carries its fields and each method is proved
against a function of the old state; the properties are then proved about those functions, over
all runs. Where a protocol meets a service, an object of class `Cloud`, `Tab` or `Worker` holds a
script of what else happens and how each call ends; a method's contract holds for every script.

## What the proofs found

* A third address is safe while a job is live, but not afterwards: an update that a worker sent
  under a valid lease and that arrives late overwrites any real address once no job is live
  (`DelayedUpdateOverwritesThirdAddress`). The exact condition is `RealAddressReplacedIff`. The
  documentation (README.md:1433) promises more.
* The same can take the address of a completed job away by the saga's own messages alone: the
  update of a cancelled job's first worker arrives after another job, for another address, was
  completed (`LateUpdateOfCancelledJob`). Left-over traffic is harmless if and only if all
  receipts of the account carry the same address (`LeftOverIsHarmlessIff`).
* The legacy repair does not converge. An attempt that finds the address already restored returns
  before it arms its fence, and the finish demands the fence of the current lease, so a crash
  between update and finish leaves a repair that is retried for ever
  (`CrashLeavesRepairStuck`, `StuckRepairNeverCompletes`); an attempt left alone completes if and
  only if it starts from the marker (`ProcessRepairLease`).
* Recovering a refund reads the record before it has the lock. If another tab finishes and clears
  the intent in between, the same payload goes out under a new id (`StaleRecovery`), exactly if
  the record is gone when the lock is granted (`Tab.RecoverPending`).
* The server cuts its clock reading to milliseconds, so a client may show a snapshot for a
  fraction of a millisecond after the active events have changed (`ShownTooLong`; exactly when:
  `ShownIsActiveIff`), and a snapshot whose transition lies within the millisecond of the
  reading is refused as invalid (`EmittedIsValidIff`).
* A first-touch visit that waited until its record expired marks the record that replaced it
  (`MarkWithoutOwnVisit`; exactly when: `MarkedWithoutOwnVisitIff`); after
  the first interaction all later events are attempted if and only if session storage works
  (`AllAttemptedIff`).
* A claim does not move a clean-up row's due time, only a recorded finish does. So a row that
  cannot be parsed, or whose finish is lost or raises (lib/account-delete-cleanup-job.ts:420-431
  and 463-472), is at its old place again when its lease has expired. `limit` such rows shut out
  all jobs behind them (`UnrecordedRowBlocks`, `LostFinishBlocks`). A job is attempted by some
  drain if and only if there is no drain from which on the first `limit` rows ahead of it stay
  every time (`JobReachedIff`); rows that fail only in some drains delay it (`ReachedIff`).

## Model

| member | source | states |
|---|---|---|
| `ReactivationSafety.RunKeepsInv` | supabase/migrations/0085_admin_mutation_idempotency.sql:253-515 | Over every interleaving of workers, crashes, expiries, cancel requests and late Auth updates: at most one live job, only while the account is deleted in the generation the job recorded; lease tokens are never shared; a fence on the Auth user names a lease that was really handed out. |
| `ReactivationTheorems.BeginStartsIff` | supabase/migrations/0085_admin_mutation_idempotency.sql:2579-2881 | A reactivation begins exactly for a deleted member with a proved address, without pending clean-up or another live job; then its receipt records this address, deletion and generation, and the job is due at once. |
| `ReactivationTheorems.CancelTakesEffect` | supabase/migrations/0085_admin_mutation_idempotency.sql:2924-3090 | A first cancel request on a live job ends its lease, makes it claimable at once even with used-up counters, and changes neither user nor account. |
| `ReactivationTheorems.WithdrawIff` | supabase/migrations/0085_admin_mutation_idempotency.sql:222-246 | A withdrawal takes effect exactly for an active account without a live job, opens the next generation and leaves user, jobs and repairs alone. |
| `ReactivationTheorems.ClaimLeasesIff` | supabase/migrations/0085_admin_mutation_idempotency.sql:3488-3726 | A claim leases exactly a due job with counters left, for two minutes under a fresh token; a due job without them is put off for good. |
| `ReactivationTheorems.PreflightClearIff` | supabase/migrations/0085_admin_mutation_idempotency.sql:3488-3726 | The preflight of a claim is clear exactly if everything that the finish will demand can still be met, and otherwise names a fault that is there. |
| `ReactivationTheorems.LegacyActivatesIff` | supabase/migrations/0085_admin_mutation_idempotency.sql:718-792 | The retired route leaves a repair, due at once, exactly if it activated the account and the address is not that of the Auth user, once per generation. |
| `ReactivationTheorems.RepairClaimIff` | supabase/migrations/0085_admin_mutation_idempotency.sql:4420-4582 | A repair claim leases a due repair of the current life cycle, retires one of another, and puts off one without counters left. |
| `ReactivationTheorems.StepKeepsRows` | supabase/migrations/0085_admin_mutation_idempotency.sql:343-515 | No transaction changes what a receipt recorded, withdraws a cancel request, or touches a row that is completed or cancelled. |
| `ReactivationTheorems.CompletionEvidence` | supabase/migrations/0107_consent_boolean_model_contract.sql:270-616 | A job becomes completed only in a finish under its exact live lease, with the receipt address and the exact fence on the Auth user at that very moment. |
| `ReactivationTheorems.CancellationEvidence` | supabase/migrations/0085_admin_mutation_idempotency.sql:3879-4041 | A job becomes cancelled only in a finish under its exact live lease, with the deletion marker on the Auth user or no user at all. |
| `ReactivationTheorems.TerminalIsFinal` | supabase/migrations/0085_admin_mutation_idempotency.sql:343-515 | After any further events a finished job is the same row. |
| `ReactivationTheorems.NeverBothTerminals` | lib/account-reactivation-job.ts:370-416 | No run shows one job completed at one moment and cancelled at another. |
| `ReactivationTheorems.CompletedMeansReceiptEmail` | lib/account-reactivation-job.ts:628-733 | In every run in which nothing moves the account away after the completion (a withdrawal, the removal of the user, an update to another real address, whoever sends it), a completed job means an active account with the receipt address. |
| `ReactivationAftermath.CompletionEndsIff` | supabase/migrations/0092_rollout_contract_cleanup.sql:216-394 | One step ends the truth of a completed job exactly if it is a withdrawal, the removal of the user, or an update to a real address other than the receipt; the row itself stays as it is. |
| `ReactivationAftermath.HoldsThroughoutIff` | lib/account-reactivation-job.ts:628-733 | A run keeps a completed job true at every one of its moments if and only if nothing in it moves the account away. |
| `ReactivationAftermath.WhoEndsCompletion` | lib/account-reactivation-job.ts:628-733 | A completed job loses its address exactly to the member (leaving, or an address that no receipt carries) or to a late update for another receipt of the account. |
| `ReactivationAftermath.LeasesSendReceipts` | lib/account-reactivation-job.ts:688-705 | What a leased worker sends is the marker or the address of a receipt, at whatever later moment it arrives. |
| `ReactivationAftermath.RepairLeasesSendReceipts` | lib/account-reactivation-job.ts:905-925 | The same for the legacy repair. |
| `ReactivationAftermath.LeftOverIsHarmlessIff` | lib/account-reactivation-job.ts:620-627 | No worker's update, however late, takes a completed job's address away if and only if all receipts of the account carry the same address. |
| `ReactivationAftermath.OneReceiptIsSafe` | lib/account-reactivation-job.ts:620-627 | Then left-over traffic of any length and order never moves the address. |
| `ReactivationAftermath.LateUpdateOfCancelledJob` | lib/account-reactivation-job.ts:620-627 | Otherwise it can, by a run of the saga's own messages: the update of a cancelled job's first worker arrives after a second job, for another address, was completed, and is accepted. |
| `ReactivationConvergence.EndsAfterAnyRun` | lib/account-reactivation-job.ts:1234-1325 | Convergence: after any run, whatever answers were lost and leases expired, one undisturbed attempt at the job, once it is due, leaves it completed or cancelled as its cancel request says. A cancellation needs nothing of the run: the user may be removed, member, identity and clean-up may change; an activation needs a run without such drift. The job starts with the marker, its own address or no user. |
| `ReactivationConvergence.RunKeepsOwnAddress` | supabase/migrations/0085_admin_mutation_idempotency.sql:253-515 | No event of any sender puts an address other than the marker and the receipt's on the user of a live job. |
| `ReactivationTheorems.CancelledMeansMarkerOrMissing` | lib/account-reactivation-job.ts:742-861 | In every run without a new reactivation, a cancelled job means a deleted account whose Auth user is the marker or missing. |
| `ReactivationTheorems.ChangeWhileLive` | supabase/migrations/0092_rollout_contract_cleanup.sql:216-394 | While a job is live, an accepted address change is the one its action permits, under a fence that names its own live lease and action. |
| `ReactivationTheorems.AtMostOneChangePerAction` | lib/account-reactivation-job.ts:688-732 | Over every run each job accepts at most one address change while activating and at most one while cancelling. |
| `ReactivationTheorems.ThirdAddressKeptWhileLive` | lib/account-reactivation-job.ts:676-687 | While a job is live, a user with any third address keeps it against every sender, and no lease of the job arms or finishes. |
| `ReactivationTheorems.RealAddressReplacedIff` | supabase/migrations/0092_rollout_contract_cleanup.sql:216-394 | A real address is replaced by another real one if and only if no job is live at that moment. |
| `ReactivationTheorems.DelayedUpdateOverwritesThirdAddress` | README.md:1433 | A concrete run, with every sender disciplined, in which a delayed update of an expired lease overwrites a third address after the job was completed: the documented promise that a third address is never overwritten does not hold. |
| `ReactivationTheorems.LiveJobStaysOnTrack` | lib/account-reactivation-job.ts:1234-1325 | Crashes, lost answers, expired leases and late updates never take a live job out of the states from which an attempt can succeed. |
| `ReactivationCloud.Cloud.GetUser` | lib/account-reactivation-job.ts:429-469 | A read shows the user as of the moment it reached the service; the answer may be lost. |
| `ReactivationCloud.Cloud.UpdateUser` | lib/account-reactivation-job.ts:688-705 | An update may be lost, may commit with its answer lost, or may commit; the trigger decides. The send is logged with the last read before it. |
| `ReactivationCloud.Cloud.ArmFence` | supabase/migrations/0085_admin_mutation_idempotency.sql:3734-3871 | Arming commits only under the exact live lease and only with the marker or the receipt address on the user. |
| `ReactivationCloud.Cloud.ClaimReactivation` | supabase/migrations/0085_admin_mutation_idempotency.sql:3488-3726 | The whole effect and answer of the claim transaction, also when the answer is lost: an exhausted due job is quarantined, a wanted due job is leased under a fresh token and the next version, and otherwise nothing changes. |
| `ReactivationCloud.ClaimsIsDetermined` | supabase/migrations/0085_admin_mutation_idempotency.sql:3573-3590 | An account never has two due jobs, so a claim has one possible effect and answer, whatever the order of claiming. |
| `ReactivationCloud.Cloud.FinishReactivation` | supabase/migrations/0085_admin_mutation_idempotency.sql:4048-4144 | The answer is the status that the transaction reached, and an allowed finish that is delivered is answered. |
| `ReactivationCloud.Cloud.ReadStatus` | supabase/migrations/0085_admin_mutation_idempotency.sql:4152-4228 | An answer is the status of this request under this administrator at the moment of the read, and exactly a delivered read that matches is answered. |
| `ReactivationCloud.Cloud.ClaimLegacyRepair` | supabase/migrations/0085_admin_mutation_idempotency.sql:4420-4582 | The whole effect and answer of the claim, also when the answer is lost: every exhausted due row is quarantined, then the row that has been due longest is leased or superseded. |
| `ReactivationCloud.Cloud.QuarantineExhausted` | supabase/migrations/0085_admin_mutation_idempotency.sql:4440-4472 | Every exhausted due repair, and no other, is put off for good. |
| `ReactivationCloud.Cloud.FirstDueRepair` | supabase/migrations/0085_admin_mutation_idempotency.sql:4474-4482 | The due repair with the earliest due time. |
| `ReactivationCloud.Cloud.ArmRepairFence` | supabase/migrations/0085_admin_mutation_idempotency.sql:4590-4695 | Arming of a repair lease. |
| `ReactivationCloud.Cloud.FinishLegacyRepair` | supabase/migrations/0085_admin_mutation_idempotency.sql:4707-4909 | Finish of a repair lease: done, retired, retry or refused. |
| `ReactivationWorker.UpdateAndObserve` | lib/account-reactivation-job.ts:688-732 | Success needs a fresh read with the new address and the exact fence; an update whose answer was lost is still recognised. |
| `ReactivationWorker.EnsureReceiptBoundAuthEmail` | lib/account-reactivation-job.ts:628-733 | Every send follows a fresh read, by the same lease, of the marker under the exact fence; success means the receipt address was read under it; an identity conflict means that a third address was read; undisturbed, a job on track succeeds, and a missing user or a third address fails as such without any send. |
| `ReactivationWorker.EnsureCancelledAuthEmail` | lib/account-reactivation-job.ts:742-861 | The mirror image for cancellation: only receipt address to marker, a missing user needs no update, a third address is an identity conflict. |
| `ReactivationWorker.FinishSuccess` | lib/account-reactivation-job.ts:962-1018 | The finish counts only if its answer is the terminal state of the lease's own action. |
| `ReactivationWorker.RecordRetry` | lib/account-reactivation-job.ts:1194-1232 | Makes exactly one failure finish with this failure; the retry counts as recorded exactly if that call reached the server, found the lease live and was answered, and then the job was put off with its counters kept. |
| `ReactivationWorker.RecoverTerminalStatus` | lib/account-reactivation-job.ts:1171-1192 | A lost finish answer is recovered only from a status row that is terminal in fact. |
| `ReactivationWorker.SettleLease` | lib/account-reactivation-job.ts:1277-1325 | A finish that committed while its answer was lost is still reported as terminal; otherwise its failure is reported to the server once, unless the deadline has passed. |
| `ReactivationWorker.ProcessLease` | lib/account-reactivation-job.ts:1250-1325 | Reports a terminal outcome only if the durable row is terminal, and a recorded retry only if a failure finish of this lease put the row off; finish calls are one success, one failure with the reported code, or the first and then the second, and none after the deadline. Undisturbed, an able job ends, and one that the preflight, a missing user or a third address stands against is put off with exactly that failure. |
| `ReactivationWorker.ProcessAccountReactivationJob` | lib/account-reactivation-job.ts:1234-1325 | For every interleaving: completed, cancelled and a recorded retry are reported only when true, idle only when nothing wanted could be claimed; one attempt sends at most one update, under the discipline of the very lease that it claimed and reports. Undisturbed, every claimable job ends, whatever earlier attempts left behind, or is pending again with one more version and attempt, its backoff and exactly the failure that stands against it. |
| `ReactivationWorker.BackoffDoubles` | supabase/migrations/0085_admin_mutation_idempotency.sql:4092-4095 | The wait starts at five seconds, doubles with every attempt and stops at one hour. |
| `ReactivationRepair.EnsureLegacyRepairAuthEmail` | lib/account-reactivation-job.ts:863-960 | As for reactivation, with the one difference that an address already restored returns before the fence is armed. |
| `ReactivationRepair.RecordLegacyRetry` | lib/account-reactivation-job.ts:1347-1373 | One failure finish with this failure; recorded exactly if the server found the lease live and answered, and then the repair was put off. |
| `ReactivationRepair.ProcessRepairLease` | lib/account-reactivation-job.ts:1327-1445 | Left alone, an attempt completes if and only if it starts from the marker; otherwise it is put off with exactly the failure that stands against it; a recorded retry is reported only if a failure finish put the repair off. |
| `ReactivationRepair.StuckRepairNeverCompletes` | lib/account-reactivation-job.ts:882-886 | A repair whose address is already restored stays unfinished however many undisturbed attempts run and however long they wait. |
| `ReactivationRepair.CrashLeavesRepairStuck` | lib/account-reactivation-job.ts:863-960 | An ordinary run with one crash between update and finish ends in such a repair. |
| `ReactivationRepair.ProcessLegacyAccountReactivationRepair` | lib/account-reactivation-job.ts:1327-1445 | Completed, superseded and a recorded retry are reported only when true, idle only when no repair is due; at most one update is sent, under the discipline of the very lease that was claimed; on a stuck repair the attempt only records a retry. |
| `ReactivationDrain.AccountSurvives` | lib/account-reactivation-job.ts:1560-1659 | What was counted as ended stays ended under all later events. |
| `ReactivationDrain.DrainRound` | lib/account-reactivation-job.ts:1560-1659 | One round works a repair if one is due and a job otherwise; it stops exactly if a claim failed, or if no repair was due at one moment and no job at a later one. |
| `ReactivationDrain.DrainAccountReactivationJobs` | lib/account-reactivation-job.ts:1560-1659 | The result counts exactly the rounds that were done, in order, each with its id, failure and recorded retry, and each borne out by the events; every job counted as ended is terminal in the database; the drain stops before the bounded limit only on a failed claim, when nothing is due, or at the deadline. |
| `CreditServer.ExactlyOnce` | supabase/migrations/0082_admin_credit_adjust_idempotency.sql:76-280 | Over every sequence of lost, delayed, repeated and reordered deliveries, with purchases, uses, deletions and changes of rights between them, each request id has at most one ledger entry, entries and completed receipts say the same, each entry starts from the balance it found, and every balance is the starting balance with each completed id applied once as max(0, before + delta), and each other move, in order. |
| `CreditServer.SettledForever` | supabase/migrations/0082_admin_credit_adjust_idempotency.sql:76-280 | A receipt, completed or aborted, is permanent, whatever else happens. |
| `CreditServer.AtMostOneMovement` | supabase/migrations/0082_admin_credit_adjust_idempotency.sql:76-280 | Among any deliveries, with other moves between them, at most one with a given id moves a balance, and none once the id has a receipt. |
| `CreditServer.ReplayAnswersTheSame` | app/api/admin/adjust/route.ts:116-167 | A repeated request changes nothing and gets the first result, marked idempotent. |
| `CreditServer.NewRequestMovesIff` | supabase/migrations/0082_admin_credit_adjust_idempotency.sql:76-280 | A request with a new id moves the balance exactly if the administrator, the fields, the account and the lots allow it; then by delta but not below zero, with one ledger entry and that result as its answer. |
| `CreditServer.RefusalNamesReason` | app/api/admin/adjust/route.ts:116-167 | A refused new request is told why. |
| `CreditServer.SettledAnswers` | supabase/migrations/0082_admin_credit_adjust_idempotency.sql:118-150 | A known id is answered from its receipt, to its own administrator, target and payload only; an aborted one with request_aborted. |
| `CreditServer.RecoverySettles` | supabase/migrations/0082_admin_credit_adjust_idempotency.sql:282-366 | A recovery settles its id for good and moves no balance: what was applied is found, and what was not is aborted. |
| `CreditIntent.UnresolvedPostsShareOneId` | lib/admin-credit-adjust.ts:93-167 | At any time all unresolved POSTs of one browser for one target carry one request id. |
| `CreditIntent.ClearedIdIsHarmless` | lib/admin-credit-adjust.ts:144-167 | Once the record of a posted id is gone, no copy of that request still in flight can change anything. |
| `CreditIntent.ForeignRunKeepsMine` | lib/admin-credit-adjust.ts:72-102 | While a tab holds a target's lock no other tab touches its record. |
| `CreditIntent.AnswersAreTerminal` | supabase/migrations/0082_admin_credit_adjust_idempotency.sql:282-420 | Every answer on which a record is dropped proves that the id's receipt is terminal, and which receipt it is. |
| `CreditIntent.Tab.ReadPending` | lib/admin-credit-adjust.ts:118-142 | A valid record is returned untouched; text that is no record is removed first. |
| `CreditIntent.Tab.SubmitCreditAdjustment` | lib/admin-credit-adjust.ts:208-282 | The record is written before the POST; success means a completed receipt of exactly this administrator, target, delta and reason, under the stored id if there was one, with the record gone; request_aborted means that the posted id has an aborted receipt; otherwise the record stays or its id is settled. Undisturbed, the server's answer alone decides result and record, for a stored and for a new id. |
| `CreditIntent.Tab.RecoverCreditAdjustment` | lib/admin-credit-adjust.ts:284-353 | Completed and aborted are what the receipt of the stored id says; none means that nothing was stored and nothing was sent; undisturbed, what the server says of the stored id is returned, and the record goes exactly if that settles it. |
| `CanonicalText.QuoteUnique` | lib/admin-operation-id.ts:32-34 | A string literal as JSON prints it (short escapes, hexadecimal escapes, lone surrogates) can be read back in one way, whatever follows it (RFC 8259, section 7). |
| `CanonicalText.EscapedIsShortest` | lib/admin-operation-id.ts:32-34 | Units are escaped only where JSON or the pairing of surrogates asks for it, with the short form where there is one and lower-case digits otherwise. |
| `CanonicalText.LessIsCodeUnitOrder` | lib/admin-operation-id.ts:64-67 | The order of the sort is that of code units: a proper prefix first, otherwise the smaller unit at the first difference. |
| `CanonicalText.SortIsSorted` | lib/admin-operation-id.ts:64-67 | Sorting gives the same entries in strictly increasing code-unit order of the keys. |
| `CanonicalText.SortCanonical` | lib/admin-operation-id.ts:64-67 | Two entry lists sort to the same list exactly when they hold the same entries. |
| `CanonicalJson.ValueUnique` | lib/admin-operation-id.ts:39-75 | A printed value followed by anything that cannot continue a number can be read back in one way. |
| `CanonicalJson.PrintInjective` | lib/admin-operation-id.ts:27-77 | Different JSON values have different texts. |
| `JsonReader.PrintReadsBack` | lib/admin-operation-id.ts:27-77 | A printed text is a JSON text by the grammar of RFC 8259 (sections 2 to 7), and a reader gets back from it exactly the value that was printed. |
| `CanonicalValue.SameDenotes` | lib/admin-operation-id.ts:55-75 | Values equal up to key order, undefined fields and the sign of zero denote the same JSON value. |
| `CanonicalValue.DenotesSame` | lib/admin-operation-id.ts:55-75 | And only those do. |
| `CanonicalValue.CanonicalIffSame` | lib/admin-operation-id.ts:27-77 | Two values have the same canonical text if and only if they are equal after dropping undefined fields, ignoring key order and identifying -0 with 0. |
| `CanonicalValue.CanonicalIsWellFormed` | lib/admin-operation-id.ts:85-95 | A canonical text has no lone surrogate, so hashing its UTF-8 form loses nothing. |
| `CanonicalMeaning.MembersInOrder` | lib/admin-operation-id.ts:64-67 | In the text of an object, of any two members the key of the first is a proper prefix of the other's or has the smaller unit where they first differ. |
| `CanonicalMeaning.CanonicalReadsBack` | lib/admin-operation-id.ts:27-77 | Read as JSON, a canonical text means the value that was serialized: the same scalars and items, exactly the defined fields, in code-unit order. |
| `CanonicalMeaning.ErrorNamesFault` | lib/admin-operation-id.ts:30-77 | A value has a canonical text if and only if nothing in it, undefined fields apart, is faulty; otherwise the error names a fault that it has. |
| `CanonicalHeap.Serializer.CanonicalJson` | lib/admin-operation-id.ts:27-77 | On any finite heap, cyclic or shared, the call terminates, restores the ancestor set on return and on error, and gives exactly the canonical text or the first error of the unfolded value. |
| `CanonicalHeap.Serializer.SerializeArray` | lib/admin-operation-id.ts:39-54 | The array branch: holes, items in order, the ancestor removed on every exit. |
| `CanonicalHeap.Serializer.SerializeObject` | lib/admin-operation-id.ts:55-75 | The object branch: defined keys in sorted order, the ancestor removed on every exit. |
| `CanonicalHeap.CircularOnlyOnRevisit` | lib/admin-operation-id.ts:39-61 | A circular error means that a path from the root comes back to one of its own ancestors; such a path always ends in an error. |
| `CanonicalHeap.CircularIffRevisit` | lib/admin-operation-id.ts:39-61 | On heaps that are otherwise serializable: circular exactly on such a path, a text exactly without one, so sharing alone is never an error. |
| `AdminRequestId.FormatId` | lib/admin-operation-id.ts:96-107 | Digits 0 to 31 of the digest in the form 8-4-4-4-12, with version and variant overwritten. |
| `AdminRequestId.IdIsVersion8` | lib/admin-operation-id.ts:97-99 | The id is a version-8 UUID of the RFC variant (RFC 9562, section 5.8). |
| `AdminRequestId.IdKeeps122Bits` | lib/admin-operation-id.ts:96-107 | Two ids are equal exactly when their digests agree on the 122 bits that are neither version nor variant. |
| `AdminRequestId.SameRequestSameText` | lib/admin-operation-id.ts:79-95 | Two requests hash the same text exactly when operation, administrator, target and payload are the same. |
| `AdminRequestId.EnvelopeText` | lib/admin-operation-id.ts:85-95 | The text that is hashed is adminId, operation, payload and targetKey in this order, or the payload's error. |
| `AdminRequestId.DeterministicAdminRequestId` | lib/admin-operation-id.ts:79-108 | The id of the digest of the envelope's canonical text, for a payload on any heap, or the payload's serialization error. |
| `AdminRequestId.EqualRequestsEqualIds` | lib/admin-operation-id.ts:21-26 | Equal payloads get equal ids however their objects are laid out and shared. |
| `HistogramMath.EstimateInBucket` | lib/admin-analytics-math.ts:30-40 | Every rank below the sample count is read back strictly inside its own bucket; the fallback after the loop is never reached. |
| `HistogramMath.EstimateMonotone` | lib/admin-analytics-math.ts:30-40 | With distinct buckets the estimate is monotone in the rank. |
| `HistogramMath.ConsecutiveEstimates` | lib/admin-analytics-math.ts:20-40 | Consecutive ranks of one bucket are estimated one even share of the width apart. |
| `HistogramMath.MedianOfOneBucket` | lib/admin-analytics-math.ts:20-40 | The median of a single bucket is its middle, whatever its count. |
| `HistogramMath.EstimateRank` | lib/admin-analytics-math.ts:30-40 | The loop computes the estimate. |
| `HistogramMath.HistogramMedian` | lib/admin-analytics-math.ts:23-43 | Filter, sort, count and the two middle ranks. |
| `HistogramMath.MedianWithinOneBucket` | lib/admin-analytics-math.ts:18-43 | The median read back differs from the exact median of the sorted samples by less than one bucket width, and is absent exactly for no samples. |
| `HistogramMath.KeyRoundTrip` | lib/admin-analytics-math.ts:9-16 | A key that the roll-up writes is read back, also when the group contains the separator. |
| `HistogramMath.KeyReadIff` | lib/admin-analytics-math.ts:9-16 | Exactly the keys of a non-empty group, a separator, and the text of a bucket from zero on are read, and as just that group and bucket. |
| `HistogramMath.CollectHistograms` | lib/admin-analytics.ts:510-533 | Each label gets exactly its own rows added up, and a malformed key of the wanted dimension fails the whole call. |
| `HistogramMath.MergeCountsAll` | lib/admin-analytics.ts:510-533 | Merging daily rows counts exactly the samples of all days together. |
| `HistogramMath.MedianOfDailyRows` | lib/admin-analytics.ts:510-537 | End to end: the median of a window of daily rows is within one bucket width of the exact median of the window's samples. |
| `Concentration.HerfindahlOf` | lib/admin-analytics-math.ts:51-60 | The loop computes the sum of squared shares, and nothing exactly for a total of zero. |
| `Concentration.ConcentrationBounds` | lib/admin-analytics-math.ts:50-60 | With k positive hits the index lies between 1/k and 1; it is 1 exactly for k = 1 and 1/k exactly when all positive hits are equal. |
| `ScoreBands.BandScoreBuckets` | lib/admin-analytics-math.ts:71-91 | Each tier, also an empty one, gets the sums of exactly the buckets that are folded into it. |
| `ScoreBands.TiersConserve` | lib/admin-analytics-math.ts:83-89 | Over all tiers together nothing of an accepted bucket is lost or counted twice. |
| `ScoreBands.GetScoreBuckets` | lib/admin-analytics.ts:224-237 | Rows are merged by bucket and sorted; unusable keys are skipped. |
| `ScoreBands.BandingIsExact` | lib/admin-analytics-math.ts:67-91 | If the tier is constant on each bucket and in range, folding the merged buckets gives what classifying every game by itself gives. |
| `ScoreBands.ScoreTier` | lib/score-tiers.ts:22-30 | The loop computes the tier of a score. |
| `ScoreBands.ReachedCountsThresholds` | lib/score-tiers.ts:22-30 | The tier is the number of thresholds at or below the score. |
| `ScoreBands.ReclassificationIsExact` | lib/admin-analytics.ts:219-237 | With any valid thresholds, set before or after the games, past games are counted in their exact tier. |
| `ScoreSubmission.EveryRun` | components/useScoreSubmission.ts:116-312 | Over every order of renders, timers, replies, settlements, retries, mounts and unmounts: requests share an id exactly when they belong to the same game (one open cycle with unchanged start time); no two open requests share an id; no window between manual retries and new games holds more than four automatic attempts. |
| `ScoreSubmission.RenderSendsIff` | components/useScoreSubmission.ts:140-195 | After every run a render sends exactly one request if and only if it is mounted and finished and either of a new game, or has seen no score while no request of the game is open and the window has had fewer than four attempts. |
| `ScoreSubmission.SentRequest` | components/useScoreSubmission.ts:196-225 | What is sent has the score of that render, the time from start to end and the number of its attempt, and shares its id with exactly the earlier requests of its game. |
| `ScoreSubmission.OnlyRendersSend` | components/useScoreSubmission.ts:116-312 | No timer, reply, retry or mount change sends anything by itself. |
| `ScoreSubmission.FourAttempts` | lib/score-retry.ts:1-2 | The run in which three rejected attempts with their fired timers are followed by a fourth request under the same id, and no fifth. |
| `ScoreSubmission.ReplyIsShownIff` | components/useScoreSubmission.ts:241-262 | An accepted score, its report and a failure are shown exactly while their id is current and the component mounted; the play conversion is marked for a current id in any case. |
| `ScoreSubmission.MountedIff` | components/useScoreSubmission.ts:127-137 | The component counts as mounted exactly if the last mount change was a mount. |
| `ScoreSubmission.BusyWhileOpen` | components/useScoreSubmission.ts:195-197 | While a request of the current game is open the component shows that it is submitting. |
| `ScoreSubmission.ShownIsOfCurrentGame` | components/useScoreSubmission.ts:241-255 | In every run the score that is shown was accepted, by a reply of that run, for a request of the very game that is being shown. |
| `ScoreSubmission.SeenScoreEndsGame` | components/useScoreSubmission.ts:185-191 | Once the renders of a game have seen its score, no further request of any run carries the id of that game; new games in between start without a score and are not restricted. |
| `ScoreSubmission.RunKeepsTimersOk` | components/useScoreSubmission.ts:256-281 | In every run each retry timer belongs to an attempt that was answered, and waits 1, 2 or 4 seconds by the number of that attempt; there is none for a fourth attempt. |
| `ScoreSubmission.OldRepliesStayOld` | components/useScoreSubmission.ts:242-262 | An id that is no longer current never becomes current again. |
| `ScoreSubmission.Hook.SubmissionEffect` | components/useScoreSubmission.ts:140-216 | The effect with its refs does what its meaning says, branch by branch. |
| `ScoreSubmission.Hook.OnReply` | components/useScoreSubmission.ts:241-281 | Success and failure handlers, including the play-conversion mark that ignores unmounting. |
| `ScoreSubmission.Hook.OnSettle` | components/useScoreSubmission.ts:282-292 | The in-flight slot is freed only by its own request. |
| `ScoreSubmission.Hook.OnTimer` | components/useScoreSubmission.ts:271-279 | A timer asks for a render only while its id is current and the component mounted. |
| `ScoreSubmission.Hook.RetrySubmission` | components/useScoreSubmission.ts:116-125 | A manual retry resets attempts and timer, only while mounted. |
| `ScoreSubmission.Hook.IdentityForGame` | lib/score-retry.ts:37-46 | The same game keeps its identity; a changed start time or a forced renewal mints one. |
| `ScoreSubmission.Hook.Handle` | components/useScoreSubmission.ts:127-312 | The hook run over any events is the run of their meanings. |
| `CleanupTargets.ParsedTargetsAreOwn` | lib/account-delete-cleanup-job.ts:149-192 | Accepted targets lie in directories of the leased user or under a score id, contain no segment that climbs out, are pairwise different and at most 100. |
| `CleanupTargets.TargetsParsedIff` | lib/account-delete-cleanup-job.ts:149-192 | Exactly these claims are accepted: at most 100 different files, each in a directory that the leased user owns or under a score id. |
| `CleanupTargets.DuplicatesAreExact` | lib/account-delete-cleanup-job.ts:187-190 | The duplicate check on bucket/path keys refuses exactly the lists that repeat a target. |
| `CleanupTargets.StoragePathBatches` | lib/supabase-operation.ts:336-347 | Unique non-empty paths in order, in chunks of 100. |
| `CleanupTargets.PlanCoversOnce` | lib/account-delete-cleanup.ts:69-78 | The planned batches pass every target exactly once and nothing else. |
| `AccountCleanup.LeaseParsedIff` | lib/account-delete-cleanup-job.ts:99-147 | Exactly these rows are taken as leases: UUIDs, counters from 1 to the largest safe integer, a flag, acceptable targets, and at most 100 different generation ids. |
| `AccountCleanup.Worker.RemoveStorageObjects` | lib/supabase-operation.ts:191-261 | A batch succeeds only if the acknowledgement names nothing foreign and nothing twice and every path, after it was passed to Storage by this call, was seen absent; a path that is not canonical stops the batch before any call; good answers mean success, and the code tells a bad acknowledgement from an object that is still there. |
| `AccountCleanup.Worker.RemoveAccountDeletionCleanupTargets` | lib/account-delete-cleanup.ts:64-100 | All planned batches reach Storage whatever happens to the others; success means that every target was passed to Storage and after that seen absent, within this call; good answers to all batches mean success. |
| `AccountCleanup.Worker.VerifyTargets` | lib/account-delete-cleanup-job.ts:261-297 | Succeeds if and only if the answer gives exactly the asked scores to the leased user. |
| `AccountCleanup.Worker.ArmAuthFence` | lib/account-delete-cleanup-job.ts:299-346 | Succeeds if and only if the arming is answered for this very lease and a fresh read shows its fence; the codes of a failed arming and of a failed read. |
| `AccountCleanup.Worker.ScrubAuth` | lib/account-delete-cleanup.ts:102-155 | The last read is made in any case, and exactly the read metadata keys are cleared; it succeeds if and only if the keys were read and both the update's answer and the last read show a scrubbed user; each code exactly for its own failure. |
| `AccountCleanup.Worker.FinishCleanupJob` | lib/account-delete-cleanup-job.ts:216-259 | A status is reported exactly if the answer is for this very lease and fits the reported outcome; the row stays leased exactly if the finish was not recorded. |
| `AccountCleanup.Worker.CleanUp` | lib/account-delete-cleanup-job.ts:370-408 | Storage is given nothing, or all planned batches once, and every removed path is the lease's own target, in the user's own directory or under a score that an earlier answer of this call gives to the user; good answers throughout mean success. |
| `AccountCleanup.Worker.ProcessLease` | lib/account-delete-cleanup-job.ts:370-473 | The same for the whole lease. The server is told of exactly one finish, as the last call: a success only after everything was cleaned up, otherwise a failure with the code that the outcome reports. Completed, pending and a recorded retry are what the server answered for this lease; good answers throughout end in a success finish, and in completed when the server says so. |
| `AccountCleanup.Worker.ProcessCleanupJob` | lib/account-delete-cleanup-job.ts:352-473 | All of this from the claim on, for the claimed job; nothing but the claim for a row that cannot be parsed; the claimed row stays leased exactly if it cannot be parsed or its finish was not recorded. |
| `AccountCleanup.Worker.DrainCleanupJobs` | lib/account-delete-cleanup-job.ts:475-507 | Claimed = completed + pending, and the counters are those of the outcomes of the attempted rows that can be parsed, in order, each as the server answered for it; as long as claims reach the server exactly the first `limit` due rows are attempted in order, however many of them cannot be parsed; the rows left leased are, in order, the attempted ones that cannot be parsed or whose finish was not recorded; every path that reached Storage belongs to an attempted lease that was entitled to it by then. |
| `CleanupQueue.DrainOnce` | lib/account-delete-cleanup-job.ts:475-507 | One drain attempts a given due job exactly if fewer rows than the limit are ahead of it; otherwise it attempts exactly the first rows, and once the leases have expired those of them that cannot be parsed or whose finish was not recorded are ahead of the job again, in order. |
| `CleanupQueue.DrainRepeatedly` | supabase/migrations/008903_bounded_asset_cleanup_sagas.sql:1763-1788 | Over any number of drains of the worker, each with its own lost and raised finishes, the rows ahead of a job are those of the recursion `AheadAfter`, each drain attempts exactly the first of them, and the job is attempted by one of the drains if and only if fewer of them than the limit are left in time. |
| `CleanupQueue.ReachedIff` | supabase/migrations/0102_cleanup_backoff_consecutive_failures.sql:53-75 | Some drain reaches the job if and only if fewer rows than the limit ahead of it stay at every attempt: rows that fail only in some drains delay a job and never shut it out. |
| `CleanupQueue.HopelessRowsBlock` | supabase/migrations/0102_cleanup_backoff_consecutive_failures.sql:47-75 | The same for a given set of hopeless rows, when every other row would again and again get its finish recorded. |
| `CleanupQueue.JobReachedIff` | lib/account-delete-cleanup-job.ts:410-473 | Exactly when a due job is attempted by some drain: if and only if there is no drain from which on the first `limit` rows ahead of it cannot be parsed, or do not get their finish recorded, in every single drain. |
| `CleanupQueue.UnrecordedRowBlocks` | lib/account-delete-cleanup-job.ts:417-431 | With one attempt per drain a single parsable row whose finish is never recorded keeps the job behind it from ever being reached. |
| `CleanupQueue.LostFinishBlocks` | supabase/migrations/0102_cleanup_backoff_consecutive_failures.sql:53-75 | The same run on the worker itself: however many drains, each attempts that row again. |
| `RefundIntent.OneIdOnePayload` | lib/admin-refund-intent.ts:258-291 | However often and from whichever tab a request is sent, its id stands for one payload. |
| `RefundIntent.OpenPostsShareOneIntent` | lib/admin-refund-intent.ts:236-291 | All unacknowledged requests of an order share one id and one payload. |
| `RefundIntent.IntentStaysUntilAcknowledged` | lib/admin-refund-intent.ts:174-203 | An intent stays stored, unchanged, until its own acknowledgement is stored. |
| `RefundIntent.NeverReplaced` | lib/admin-refund-intent.ts:248-257 | A stored intent is never replaced by another payload; another id means that the first was acknowledged. |
| `RefundIntent.AttemptIdsComeFromAcks` | lib/admin-refund-intent.ts:205-229 | In every run an attempt id that a waiting intent ends up with was stored, under the lock, from a valid acknowledgement of its own request id and quantity. |
| `RefundIntent.OtherFinishesAll` | lib/admin-refund-intent.ts:322-337 | Between reading a record and getting the lock another tab can send, acknowledge and clear it. |
| `RefundIntent.StaleRecovery` | lib/admin-refund-intent.ts:322-337 | A run of the code in which one refund is sent under two request ids, the second time by the recovering tab. |
| `RefundIntent.Tab.ReadPending` | lib/admin-refund-intent.ts:149-172 | A valid record is returned untouched; text that is no record is removed first. |
| `RefundIntent.Tab.ClearPending` | lib/admin-refund-intent.ts:188-203 | Runs without the lock, yet never removes a record that waits for its acknowledgement; it clears exactly the record of this attempt. |
| `RefundIntent.Tab.BeginOrRecover` | lib/admin-refund-intent.ts:236-320 | Resumes the stored id where one is stored and mints one otherwise; success with an acknowledgement means that this very request was sent and that its acknowledgement is stored. With storage that works, what is stored when the lock is granted and the answer decide everything: conflict, stored acknowledgement, or one request with its outcome. |
| `RefundIntent.Tab.RecoverPending` | lib/admin-refund-intent.ts:322-337 | What it sends, whatever becomes of the answer, has the payload it has read, and the id it has read if and only if that record is still stored when the lock is granted; otherwise the next fresh id. With storage that works it is the begin of that payload, or nothing without a record. |
| `CancelIntent.ParsedOutcomeRoundTrip` | lib/admin-cancel-intent.ts:184-219 | The parser keeps what an outcome says and drops everything else. |
| `CancelIntent.ParsedIff` | lib/admin-cancel-intent.ts:184-219 | Exactly the answers that carry the fields of a meaningful outcome are read as that outcome. |
| `CancelIntent.OpenRequestsShareOnePayload` | lib/admin-cancel-intent.ts:230-254 | All requests of an order without a valid outcome yet have the same payload. |
| `CancelIntent.RecordGoesOnlyWithOutcome` | lib/admin-cancel-intent.ts:169-182 | Over every run a stored intent is still stored, unchanged, unless a valid outcome for this very input was received under the lock. |
| `CancelIntent.UnreadableStays` | lib/admin-cancel-intent.ts:128-153 | A record that cannot be read is never touched, and its order is never posted again. |
| `CancelIntent.Tab.SubmitCancelIntent` | lib/admin-cancel-intent.ts:221-279 | Success is a valid outcome for this input with the record gone; any failure after the record was stored leaves it in place. With storage that works, what is stored and the answer decide everything; a stored equal intent is sent again. |
| `ActiveEvents.Client.FetchActiveEvents` | lib/active-events-response.ts:226-279 | At most three attempts; the last one decides, all before it were stale: a usable answer that is not stale is the result, with its own receipt time, and each error has exactly its own cause. |
| `ActiveEvents.NeverPastBoundary` | lib/active-events-response.ts:171-197 | At every instant before the cache deadline the server's clock is before the transition, up to what the server cut off its own reading; the lifetime is between 1 and 30000 ms. |
| `ActiveEvents.DeadlinePassesIff` | lib/active-events-response.ts:188-196 | The cache deadline lies past the emitted boundary if and only if the server cut more off its reading than the client gives away: cap, rounding of the round trip and way to the server. |
| `ActiveEvents.ExactReadingIsSafe` | lib/active-events-response.ts:171-197 | With a reading that is not cut, no snapshot is live at or past its boundary. |
| `ActiveEvents.LifetimeIsLongest` | lib/active-events-response.ts:188-196 | The lifetime is 30000 ms without a transition, and otherwise exactly the longest safe whole number up to that. |
| `ActiveEvents.StaleIsExact` | lib/active-events-response.ts:190-192 | An answer is stale exactly when it has a transition before which not even one millisecond would be safe. |
| `ActiveEvents.ActiveUntilTransition` | supabase/migrations/008907_atomic_active_event_snapshot.sql:90-112 | Until the next transition the set of active events does not change. |
| `ActiveEvents.ActiveChangesAtTransition` | supabase/migrations/0043_events.sql:38-42 | At the next transition the set of active events does change. |
| `ActiveEvents.TransitionIsReal` | supabase/migrations/008907_atomic_active_event_snapshot.sql:98-112 | The next transition is a start or an end of some event. |
| `ActiveEvents.EmittedIsValidIff` | lib/active-events-response.ts:141-148 | A snapshot is refused as invalid exactly when its transition falls into the millisecond of the reading. |
| `ActiveEvents.ShownIsActiveIff` | supabase/migrations/008907_atomic_active_event_snapshot.sql:54-193 | End to end: throughout the snapshot's whole lifetime the client shows what is active on the server at that instant, if and only if no transition lies ahead or the fraction of a millisecond cut off the server's reading is at most what the client gives away plus the fraction cut off the transition. |
| `ActiveEvents.ShownTooLong` | supabase/migrations/008907_atomic_active_event_snapshot.sql:179-193 | A snapshot, as the server emits it, that a client still shows when the active events are others. |
| `Acquisition.EveryRun` | lib/acquisition.ts:93-143 | Over every order of events after a load: a bot sends nothing, nobody sends before the first interaction, a keyed visit waits at most once, the current visit is sent at most once and marked exactly when it was sent, and no first-touch record's visit is sent twice. |
| `Acquisition.SourceFixedFor90Days` | lib/acquisition.ts:223-259 | The first-touch record keeps its source, capture time and marks for 90 days, whatever happens. |
| `Acquisition.MarkedIff` | lib/acquisition.ts:290-304 | An event marks a record exactly if it hands over the record's own visit, or if this flush hands over a waiting visit of another record that is older than 90 days while the marked one is not; never both. |
| `Acquisition.MarkedWithoutOwnVisitIff` | lib/acquisition.ts:290-304 | A record is marked without its own visit exactly in that second case, and then the visit had been waiting in the queue. |
| `Acquisition.MarksAreExact` | lib/acquisition.ts:112-117 | Over every run after a load, a record that no earlier page had marked is marked exactly if its own visit was sent, once, or it was marked by an overtaken visit before. |
| `Acquisition.MarkWithoutOwnVisit` | lib/acquisition.ts:296-301 | The exception occurs: a fresh record marked as sent without any visit of its own. |
| `Acquisition.AfterFlush` | lib/acquisition.ts:101-143 | Once the first interaction lies behind, over every run: with session storage exactly the events that come to the gate are attempted, each in its own step, and sent in that order if no send fails; without it nothing is attempted any more. |
| `Acquisition.AllAttemptedIff` | lib/acquisition.ts:92-143 | At every moment of every run of a loaded page after the first interaction: all later events that come to the gate are attempted, in every continuation, if and only if session storage works. |
| `Acquisition.Tracker.GatedSend` | lib/acquisition.ts:133-143 | The gate with its queue and listeners. |
| `Acquisition.Tracker.OnFirstInteraction` | lib/acquisition.ts:101-127 | The queue is emptied first and then sent in order. |
| `Acquisition.Tracker.Dispatch` | lib/acquisition.ts:112-117 | A mark is set only after a send that succeeded. |
| `Acquisition.Tracker.OnTrackVisit` | lib/acquisition.ts:268-305 | Both visits with their independent marks. |
| `Acquisition.Tracker.OnTrackShare` | lib/acquisition.ts:307-336 | Once per key, or three seconds apart. |
| `Acquisition.Tracker.ShouldSendPlayConversion` | lib/acquisition.ts:355-358 | Asked once per first-touch record, never for a bot. |
| `Acquisition.Tracker.MarkPlayConversionSent` | lib/acquisition.ts:359-364 | Marks the record that is current. |

## Left out

- Services as seen from outside: HTTP, Web Locks, Web Storage, timers, SHA-256 and the printing of numbers are an arbitrary script, an exclusive try-lock, a map, an event, any function to 64 hexadecimal digits, and a token over the alphabet of printed numbers.
- Text rules of addresses, timestamps and reasons: e-mail normalisation, Date.parse, trimming and the counting of code points are not modelled; addresses are compared as normalised values and ids are numbers, except in the clean-up targets, where paths and UUIDs are texts.
- Account reactivation: consent and audit columns, nicknames, the queue-health read after a drain, receipts as rows of their own (they are folded into the jobs), and conflicts with other users' addresses (folded into the proved identity of a job). Clock granularity is one second.
- Account reactivation deadline: an expired deadline is one more way in which a call fails without an answer; its arithmetic is not modelled.
- CreditServer.ExactlyOnce: what moves a balance besides an adjustment is any amount that does not make it negative; the rules of purchases, uses and refunds are not modelled.
- Credit lots: whether the lots cover a deduction is one flag of a delivery; lot rows, the audit ledger's text columns and rate limits are not modelled.
- CreditServer.ReplayAnswersTheSame: is about requests that were applied before; a request refused for its fields is refused again without a receipt.
- HTTP status codes of the three administrator intents: an error is known by its code only.
- CanonicalHeap.Serializer.CanonicalJson: property reads with side effects (getters, proxies) and changes of the heap during serialization are outside the model.
- parseExactTimestampFence: one branch of Date.parse.
- HistogramMath.MedianWithinOneBucket: reals stand for floating point, and samples in the overflow bucket are excluded, as the source says of its own bound.
- HistogramMath.CollectHistograms: the reading of a key's number is any function; `Map` order is modelled for buckets and not for labels.
- ScoreSubmission: the request body other than score and duration, clamping, telemetry spans, and React's scheduling, of which only this is used: an effect runs while the component is mounted, with the state of some earlier render.
- AccountCleanup.Worker.ProcessCleanupJob: what the finish transaction decides is arbitrary: whether it commits, whether the job is armed again at once (then behind all due ones), and the answer; generation rows are only parsed; options that pin a job or a user are not modelled.
- AccountCleanup.Worker.VerifyTargets: the answer of the score query is arbitrary; that it is truthful is not part of this model.
- ReactivationCloud.Cloud.ClaimLegacyRepair: creation times are not modelled, so rows that are due since the same second are claimed in any order; the order among different accounts does not arise, since the model has one account.
- CleanupQueue.DrainRepeatedly: between two drains the leases of the first have expired, no other worker claims rows, and rows that become due later are behind those that are due now; what later claims return for a row is arbitrary except for its id.
- AccountCleanup.Worker.DrainCleanupJobs: the clock stands still during one drain, so that no lease of the same drain expires within it, and a claim whose answer is lost has not leased a row.
- RefundIntent.Tab.RecoverPending: is stated for a record that others may finish in between, as the code allows; the server's own refusal of a second refund is not part of this model.
- ActiveEvents: the shape checks of popup and banners, and the ranking that picks one event per place from the active set.
- Acquisition: how a source and a landing group are computed from the address bar and the referrer; several tabs sharing one first-touch record; local storage that fails.
- Pure shape validators, row mappers, UI components, the game itself and the configuration files would add only easy members.
