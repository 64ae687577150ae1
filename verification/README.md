# Ticket backend: verified models

Dafny models of the transactional core of an event-ticket backend (Go over MySQL), with proofs of what its parts keep
over whole runs: migrations that can be cut off after any statement, administrators and workers that interleave with
each other and the clock, checkout that must never make two orders, doors that must admit a ticket once, and reports that
must agree with the rows they count. `dafny verify dfyconfig.toml` checks everything.

Each component has the same three layers. A *specification* gives the state as values and every transaction or statement
as a function from state to state; *methods* of a class (or methods over a connection) are written step by step as the Go
code is and are proved equal to that function; *lemmas* then prove what the function keeps over every run, every
interleaving and every input. Row locks make a transaction one step, except in `CheckInProtocol`, where the statements of
many transactions interleave under explicit locks, and in `ResumableMigrations`, `CatalogUpgrade` and `MigrationRunner`,
where a connection may be lost after any statement.

The modules named `...Effects` say once more what every request answers and stores, this time from the rows before and
after alone and not through the steps: each answer with the exact condition under which it is given, each stored field with
the field that it comes from.

| file | what it models |
|---|---|
| `EmailQueueSchema`, `ResumableMigrations` | `email_queue` under versions 14, 21 and 26: schema, rows, MySQL's precondition of each DDL statement, and convergence of interrupted runs |
| `MigrationRunner` | the runner over all versions: order, checksums, recorded versions, what an interruption can block |
| `PaymentCases` | claim and lease of a payment case around a call to the provider |
| `PaymentCaseEffects` | answers and effects of each transaction on a case, and where CHECKED entries come from |
| `EmailRetry` | the e-mail queue: workers, deadlines, resends, retries, supersession chains, recovery links |
| `EmailEffects` | answers and effects of each statement on the queue, and which requests are followed |
| `Text`, `Words`, `CheckoutRequest`, `CheckoutItems`, `CheckoutOrders` | validation, the item loop in 64-bit arithmetic, one order per reservation |
| `CheckoutEffects` | what is accepted, answered and stored at checkout, field by field |
| `EventState` | the life of an event under decisions and edits |
| `Admission`, `CheckInProtocol` | the decision at the door, its agreement with the status page and the report, assignments of staff, and the statements of a check-in under row locks |
| `AdmissionEffects` | what a scan answers and writes, and the rows that whole runs add |
| `Doors` | the way of a gate from the catalogue to the door |
| `Grouping`, `Wib`, `SalesReport`, `AttendanceReport`, `Conversion` | grouped aggregates against plain sums over rows |
| `ReportEffects` | the figures of the three reports as plain counts and sums |
| `Paging` | keyset pages and their cursors |
| `Catalog` | stock conservation and publication under edits, reservations and returns |
| `CatalogEffects` | answers and effects of each request to the catalogue, and a run that sells |
| `CatalogUpgrade` | versions 15 and 16: convergence of interrupted runs, and what of an old catalogue stays published |

Fresh random ids and claims, and SHA-256, are taken to be injective: a claim is new when it is issued, and a digest is the
data it was made from. Clocks, outcomes of the provider and of the mail server, rate limits, prices and the checks made
inside packages that are not modelled are inputs of the steps.

## Where the code differs from what it promises

The models follow the code. These promises do not hold of it everywhere; each is stated with the exact condition under
which it does.

- *Migrations are safe to repeat* (`README.md:99`). The path that runs a script inside a transaction is not atomic for DDL.
  `MigrationRunner.CompletesIffUnblocked` gives the exact condition, `Version12CanBlock` an interruption of version 12 after
  which no further run completes.
- *A resolved case holds no claim and was audited as resolved.* True of cases that an administrator resolves; a settled
  refund closes a case without clearing the claim and without an audit entry (`PaymentCases.ClosingStepClearsClaim`,
  `SettlementLeavesClaim`).
- *A reservation is CONVERTED exactly when it has an order.* The endpoint `POST /reservations/{id}/convert` converts without
  one (`CheckoutOrders.ConversionWithoutOrder`, `ConvertedAndNotOrdered`); without that endpoint the equivalence holds (`ConvertedIffOrdered`). On an
  overdue reservation that endpoint rolls back the expiry that it wrote.
- *Eligibility in the attendance report is what check-in validates* (`README.md:246`). The two agree but for the day and
  earlier use (`Admission.EligibleIffEntersAnyDay`), and every eligible ticket has its day (`EligibleEntersSomeDay`).
- *A gate of 1 to 100 characters can be sold.* Its tickets are eligible, can be given staff and enter exactly if it has at
  most 100 bytes as well (`Doors.EligibleIffShort`, `PostedIffShort`, `PromiseIsKeptIffShort`). Three requests put a gate of
  51 two-byte letters on sale (`LongGateOnSale`); no ticket of it ever enters (`LongGateIsShut`), though an administrator's
  status page promises that it does (`AdminSees`).
- *Losses show where journeys did not continue* (`README.md:248`). A difference of two counts is that number exactly if
  nobody skipped the earlier stage or nobody was lost (`Conversion.LossIsExactIffNobodySkips`, `SkipHidesLoss`); from the
  reservation on nobody can (`LaterLossesAreExact`).
- *Events that the upgrade leaves published are complete.* By MySQL's TRIM, which knows the space only; the server would
  accept one for publication again exactly if its texts hold more than white space (`CatalogUpgrade.SparedIffStillAccepted`,
  `TabsArePublished`).
- *CreateEvent accepts the status PUBLISHED.* It never does: completeness asks for zones and tiers, which need the event
  (`Catalog.NothingIsBornPublished`).

## Model

| member | source | states |
|---|---|---|
| ResumableMigrations.RecoveryConverges | backend/migrations/migrate.go:519-639 | Version 14 from any state that an interruption can leave: any finite series of runs, each cut off after any statement, then one long enough run, ends in the same database as one uninterrupted run, which is the target written down on its own: same rows in order, `order_id` kept, `id = order_id`, `dedupe_key` filled, all keys, indexes and constraints there |
| ResumableMigrations.RecoveryProgress | backend/migrations/migrate.go:519-639 | From every reachable place a run of version 14 is never refused by MySQL, stops early only when the connection is lost, stays resumable with the same target, and completes when the connection lasts |
| ResumableMigrations.RecoverySeries | backend/migrations/migrate.go:519-639 | Any series of cut-off runs stays resumable and keeps the target |
| ResumableMigrations.RecoveryConvergesAmongArrivals | backend/migrations/migrate.go:566-569 | The same when older servers queue tickets of new orders between the runs: the last run ends at the target with every old row and every row that arrived, in order, its keys filled |
| ResumableMigrations.RecoveryAmongArrivals | backend/migrations/migrate.go:519-639 | Cut-off runs and arrivals in any order stay resumable, and the target gains exactly the accepted rows |
| ResumableMigrations.Step14 | backend/migrations/migrate.go:519-639 | At each of the twenty places the statement sent, if any, meets MySQL's precondition, and the state behind it is ready for the next place with the same target |
| ResumableMigrations.CreateStep | backend/migrations/migrate.go:524-528 | The new tables can be created in this order at any time |
| ResumableMigrations.ColumnStep | backend/migrations/migrate.go:550-565 | A column is added only when missing, and adding it loses nothing from the rows |
| ResumableMigrations.FillStep | backend/migrations/migrate.go:566-569 | The UPDATE fills exactly the missing keys of ticket rows and keeps `order_id` |
| ResumableMigrations.FilledKeysAreUnique | backend/migrations/migrate.go:570-579 | After the fill no key is missing or shared, so the test before the switch passes |
| ResumableMigrations.PrimaryStep | backend/migrations/migrate.go:580-592 | The primary key moves only over unique keys and after the foreign key that used the old index is gone |
| ResumableMigrations.NullabilityStep | backend/migrations/migrate.go:593-607 | NOT NULL is set only on filled columns, NULL only off the primary key |
| ResumableMigrations.IndexStep | backend/migrations/migrate.go:608-622 | Each missing index can be added, the unique one over distinct keys |
| ResumableMigrations.ConstraintStep | backend/migrations/migrate.go:623-637 | Each missing foreign key and the check hold of all rows when they are added |
| ResumableMigrations.CompleteRecoveryIsStable | backend/migrations/migrate.go:519-639 | Once version 14 is complete, another run, cut off or not, changes nothing |
| ResumableMigrations.BadKeysStopTheRun | backend/migrations/migrate.go:570-579 | Over rows whose keys stay missing or shared the run ends at the test, and no key of the table has changed |
| ResumableMigrations.OldSchemaIsResumable | backend/migrations/migrate.go:519-549 | The schema that version 13 leaves is one from which version 14 starts |
| ResumableMigrations.ScriptAdvances | backend/migrations/014_ticket_recovery.sql:1-59 | Each statement of the SQL script leaves a state ready for the next one, with the same target |
| ResumableMigrations.ScriptIsResumed | backend/migrations/014_ticket_recovery.sql:1-59 | A script of version 14 cut off after any statement is finished by the program into the database that the whole script makes |
| ResumableMigrations.Step21 | backend/migrations/migrate.go:357-433 | Each statement of the refund upgrade meets its precondition in every intermediate schema, whether or not the search in the stored check recognises the new one |
| ResumableMigrations.RefundsProgress | backend/migrations/migrate.go:357-433 | A run of version 21 from any of its places is never refused and completes when the connection lasts |
| ResumableMigrations.RefundsConverge | backend/migrations/migrate.go:357-433 | Interrupted runs of version 21 followed by a whole one end in its target, whether the check is recognised and kept or exchanged each time |
| ResumableMigrations.Step26 | backend/migrations/migrate.go:678-690 | Each statement of the event-change upgrade of `email_queue` meets its precondition |
| ResumableMigrations.EventChangesProgress | backend/migrations/migrate.go:678-690 | A run of version 26 over `email_queue` is never refused and completes when the connection lasts |
| ResumableMigrations.EventChangesConverge | backend/migrations/migrate.go:678-690 | Interrupted runs of version 26 over `email_queue` followed by a whole one end in its target |
| ResumableMigrations.ChecksWiden | backend/migrations/migrate.go:405-430 | Rows valid under an older check of `email_queue` are valid under the newer one |
| ResumableMigrations.TargetsChain | backend/migrations/migrate.go:357-698 | Each of the three upgrades leaves what the next one starts from |
| ResumableMigrations.UpgradesKeepEveryRow | backend/migrations/migrate.go:357-698 | The three upgrades in a row, each interrupted as often as one likes, keep every row in place with its order, payload and filled keys |
| ResumableMigrations.ResumeRecovery | backend/migrations/migrate.go:519-639 | The statement-by-statement program is the run that the lemmas speak of: interrupted only by a lost connection, and at the target when it is done |
| ResumableMigrations.CreateRecoveryTables | backend/migrations/migrate.go:524-528 | Its part of that run |
| ResumableMigrations.DropForeignKey | backend/migrations/migrate.go:539-549 | Its part of that run |
| ResumableMigrations.AddRecoveryColumns | backend/migrations/migrate.go:550-565 | Its part of that run |
| ResumableMigrations.FillAndSwitch | backend/migrations/migrate.go:566-592 | Its part of that run |
| ResumableMigrations.SettleColumns | backend/migrations/migrate.go:593-622 | Its part of that run |
| ResumableMigrations.AddConstraints | backend/migrations/migrate.go:623-637 | Its part of that run |
| ResumableMigrations.ResumeRefunds | backend/migrations/migrate.go:357-433 | The program of version 21 is the run that the lemmas speak of |
| ResumableMigrations.ResumeEventChanges | backend/migrations/migrate.go:678-690 | The program of version 26 over `email_queue` is the run that the lemmas speak of |
| EmailQueueSchema.TicketKeyInjective | backend/migrations/migrate.go:566-569 | Ticket keys of different orders differ |
| ResumableMigrations.KeyTestMeans | backend/migrations/migrate.go:570-579 | The test passes exactly rows that all have both keys and share neither |
| MigrationRunner.RunKeepsPrefix | backend/migrations/migrate.go:55-63 | A run cut off anywhere leaves a prefix of the versions recorded, never a shorter one than before, all statements of a recorded version ran, and a run that ends well recorded all |
| MigrationRunner.SeriesKeepsPrefix | backend/migrations/migrate.go:30-65 | The same over any series of runs; what was made stays made |
| MigrationRunner.ApplyKeeps | backend/migrations/migrate.go:105-241 | One version is recorded only after all its statements; objects only grow |
| MigrationRunner.RerunDoesNothing | backend/migrations/migrate.go:105-120 | A run after success sends nothing |
| MigrationRunner.MismatchStopsTheRun | backend/migrations/migrate.go:105-120 | A recorded version with another checksum ends every run; no version behind it is recorded, and neither it nor any behind it makes anything |
| MigrationRunner.BlockedIsNotApplied | backend/migrations/migrate.go:224-240 | A version with an unguarded statement whose object is there is never recorded |
| MigrationRunner.UnblockedIsApplied | backend/migrations/migrate.go:224-240 | Any other version is applied by a connection that lasts |
| MigrationRunner.CompletesIffUnblocked | backend/migrations/migrate.go:105-241 | A long enough run completes exactly when no unrecorded version is blocked |
| MigrationRunner.BlockedForever | backend/migrations/migrate.go:224-240 | Once the next version is blocked, no series of runs completes or records anything |
| MigrationRunner.RerunnableCompletes | backend/migrations/migrate.go:266-355 | Where every statement asks first, tolerates its object or writes rows, any interruptions are followed by a run that completes |
| MigrationRunner.Version12CanBlock | backend/migrations/012_midtrans_snap.sql:1-22 | An interruption between the two statements of version 12 leaves a database that no later run completes |
| MigrationRunner.Session.ApplySteps | backend/migrations/migrate.go:105-241 | The loop over the statements of a version is the specified one |
| MigrationRunner.Session.RunAll | backend/migrations/migrate.go:30-65 | The loop over the versions is the specified one |
| MigrationRunner.RowsComeTogether | backend/migrations/migrate.go:224-240 | Rows that a version writes in its transaction are there together with its record, or not at all |
| MigrationRunner.RefusalKeepsRows | backend/migrations/migrate.go:224-240 | Where MySQL refuses a DDL statement, the rows written before it in the same transaction stay and the version is not recorded |
| MigrationRunner.PresentIsOnlyRecorded | backend/migrations/migrate.go:207-223 | Where the program asks first and everything is there, nothing is sent but the record |
| PaymentCases.RunKeepsOrder | backend/internal/adminissues/actions.go:28-261 | Over every interleaving: token and lease are set together, a stored claim was issued for its case and not consumed, no claim is consumed twice, and each started recheck is answered, lost or still open |
| PaymentCases.AuditAddsUp | backend/internal/adminissues/actions.go:83-260 | Answered rechecks never outnumber started ones; a case is audited as resolved at most once, and exactly once if it is RESOLVED and no refund settled it; such a case holds no claim |
| PaymentCases.StepKeepsClaims | backend/internal/adminissues/actions.go:83-211 | What one transaction keeps about claims |
| PaymentCases.StepKeepsCase | backend/internal/adminissues/actions.go:83-260 | What one transaction keeps about a case and its audit |
| PaymentCases.AnswerNeedsItsClaim | backend/internal/adminissues/actions.go:107-212 | An answer changes anything exactly while its claim is the stored token of the OPEN case (and payment, gateway and gateway call are in order); then it frees that case, leaves it OPEN, adds one audit entry and touches no other case |
| PaymentCases.DeadClaimStaysDead | backend/internal/adminissues/actions.go:125-176 | A claim that is issued and no longer stored is never stored again, and no answer with it changes anything |
| PaymentCases.ClaimIsConsumedOnce | backend/internal/adminissues/actions.go:125-176 | After an answer used its claim, every later answer with it changes nothing |
| PaymentCases.OvertakenClaimIsDead | backend/internal/adminissues/actions.go:65-86 | A claim overtaken by a later recheck or a resolve has no effect, whenever its answer comes |
| PaymentCases.LeaseProtectsClaim | backend/internal/adminissues/actions.go:65-86 | Until its lease runs out a claim can only be lost to its own answer (a settled refund aside) |
| PaymentCases.ResolvedIsFinal | backend/internal/adminissues/actions.go:237-261 | RESOLVED is terminal: afterwards nothing changes but the last reported provider status |
| PaymentCases.ClosingStepClearsClaim | backend/internal/refund/refund.go:448 | The step that closes a case leaves no claim exactly if an administrator took it or none was stored, and is audited exactly if an administrator took it |
| PaymentCases.SettlementLeavesClaim | backend/internal/refund/refund.go:448 | A run that ends with a RESOLVED case that holds a claim and has no audit entry for it |
| PaymentCases.CapabilitiesAreExact | backend/internal/adminissues/admin.go:255-256 | What the case page offers is exactly what the actions grant, with their effect |
| PaymentCases.CaseDesk.LockCase | backend/internal/adminissues/actions.go:497-511 | Refuses exactly missing cases and, when resolving, those not OPEN or under a running lease |
| PaymentCases.CaseDesk.StartRecheck | backend/internal/adminissues/actions.go:42-92 | The claiming transaction is the specified step |
| PaymentCases.CaseDesk.FinishProviderFailure | backend/internal/adminissues/actions.go:107-137 | The failing transaction is the specified step |
| PaymentCases.CaseDesk.ApplyProviderResult | backend/internal/adminissues/actions.go:139-198 | The applying transaction is the specified step |
| PaymentCases.CaseDesk.RecordProviderMismatch | backend/internal/adminissues/actions.go:200-212 | Frees the case with the reason and one FAILED entry |
| PaymentCases.CaseDesk.AddCaseNote | backend/internal/adminissues/actions.go:214-235 | A note adds one audit entry and nothing else |
| PaymentCases.CaseDesk.ResolveCase | backend/internal/adminissues/actions.go:237-261 | The resolving transaction is the specified step |
| PaymentCases.CaseDesk.Recheck | backend/internal/adminissues/actions.go:28-105 | A whole recheck, with anything happening between its transactions, is its claim, those steps and its answer |
| PaymentCaseEffects.AnswerResults | backend/internal/adminissues/actions.go:139-212 | An answer is good exactly if it meets the OPEN case under its claim, payment, case and provider name one amount, and the status is accepted; each other result has its own exact condition |
| PaymentCaseEffects.AnswerEffects | backend/internal/adminissues/actions.go:173-212 | A good answer stores the provider's status, clears error and claim and is audited as CHECKED; a mismatch keeps the provider's status, stores its reason and is audited as FAILED with it; nothing else changes anything |
| PaymentCaseEffects.CheckedMeansChecked | backend/internal/adminissues/actions.go:139-198 | Over every run each new CHECKED entry was written by an answer that, at its moment, held its claim, agreed in the amounts and was accepted |
| PaymentCaseEffects.FailureEffects | backend/internal/adminissues/actions.go:107-137 | A failed call to the provider, exactly under its claim, frees the case with the reason and one FAILED entry |
| PaymentCaseEffects.StartEffects | backend/internal/adminissues/actions.go:42-92 | A recheck starts exactly on an OPEN case without a running lease and within its rate, and then holds the new claim for 30 seconds |
| PaymentCaseEffects.ResolveEffects | backend/internal/adminissues/actions.go:237-261 | An administrator resolves exactly an OPEN case without a running lease; the claim goes and the note is audited |
| PaymentCaseEffects.NoteEffects | backend/internal/adminissues/actions.go:214-235 | A note can be added to any case and changes no case |
| PaymentCaseEffects.ElsewhereEffects | backend/internal/refund/refund.go:448 | A settled refund closes an OPEN case and touches nothing else of it; a report and the clock touch what is theirs |
| EmailRetry.RunKeepsOrder | backend/internal/adminissues/actions.go:263-455 | Over all runs: jobs are PROCESSING exactly while claimed by a worker that knows their attempt, attempts stay within three, a superseded job is a FAILED recovery job whose successor exists and was queued later, no two jobs share a successor, and no recovery link outlives its request |
| EmailRetry.ChainAscends | backend/internal/adminissues/actions.go:346-394 | Along a chain each job was queued after the one that it supersedes, so chains are finite and acyclic |
| EmailRetry.OnlyTheTailIsLive | backend/internal/adminissues/actions.go:346-394 | Every job of a chain but the last is FAILED and superseded by the next; only the last can be anything but FAILED |
| EmailRetry.ChainsDoNotMerge | backend/internal/adminissues/actions.go:346-394 | Two chains with the same last job are one chain |
| EmailRetry.ChainsOnlyGrow | backend/internal/adminissues/actions.go:263-455 | Over every run a chain only grows, and only at its end |
| EmailRetry.SupersededNeverChanges | backend/internal/email/recovery.go:19-25 | A superseded job stays exactly as it is, FAILED, through every later step |
| EmailRetry.SentStaysSent | backend/internal/email/email.go:324-335 | A SENT job changes only by a customer's resend of its tickets |
| EmailRetry.RetryRevivesTheTail | backend/internal/adminissues/actions.go:290-467 | A retry is granted only to the FAILED end of a chain, and leaves a PENDING end with all attempts ahead: the same job, or for a recovery a new one behind it |
| EmailRetry.RetryTwiceIsRefused | backend/internal/adminissues/actions.go:290-302 | A second retry of the same job is refused without a change |
| EmailRetry.ReportNeedsClaim | backend/internal/email/email.go:324-363 | A worker's report has effect only while its claim is stored; then its attempt count is the row's, and a retry fails the job exactly at the third attempt |
| EmailRetry.NoJobIsStuck | backend/internal/email/email.go:66-172 | A job whose turn has come or whose worker went silent is either claimable or closed by the next sweep, never both |
| EmailRetry.RecoveringEndsTheClaim | backend/internal/email/recovery.go:27-78 | One attempt ends the claim in every case; the job is SENT exactly when nothing failed, the request was unused and in time, and an eligible order with a usable address matched; then one link was issued, valid no longer than request and order |
| EmailRetry.AttemptAmongOthers | backend/internal/email/recovery.go:27-78 | Whatever other workers, sweeps, retries, customers and the clock do between its statements, an attempt ends its claim: if the claim was still stored at the report, the job is SENT exactly under the conditions above, with address and link stored; if it was lost, the report changes nothing |
| EmailRetry.OthersRespect | backend/internal/email/recovery.go:19-78 | What others do never changes the row of a stored claim, never gives a lost claim back, and leaves deadlines and issued links |
| EmailRetry.MailService.ExpireClaims | backend/internal/email/email.go:71-76 | The sweep of exhausted claims is the specified step |
| EmailRetry.MailService.ExpireRequests | backend/internal/email/recovery.go:19-25 | The sweep of overdue recovery jobs is the specified step |
| EmailRetry.MailService.ClaimJob | backend/internal/email/email.go:138-172 | Claiming a job is the specified step and hands out the attempt number |
| EmailRetry.MailService.ReportSent | backend/internal/email/email.go:324-335 | Reports whether the claim was still stored |
| EmailRetry.MailService.ReportRetry | backend/internal/email/email.go:337-353 | Delay and status by attempt, guarded by the claim |
| EmailRetry.MailService.ReportFailure | backend/internal/email/email.go:355-363 | The permanent failure, guarded by the claim |
| EmailRetry.MailService.CheckRecovery | backend/internal/email/recovery.go:27-50 | What ends an attempt before a link is made |
| EmailRetry.MailService.DeliverLink | backend/internal/email/recovery.go:51-78 | Recipient, link and report in this order |
| EmailRetry.MailService.SendRecovery | backend/internal/email/recovery.go:27-78 | The statements of one attempt are the specified ones |
| EmailRetry.MailService.RetryEmailJob | backend/internal/adminissues/actions.go:263-467 | The retry transaction of every kind is the specified step |
| EmailEffects.RetryAnswers | backend/internal/adminissues/actions.go:290-455 | A retry is granted exactly for a FAILED job without a successor that is ready (a recovery with a present and unused request, tickets and refunds with an order) and within its rate, a recovery under a fresh id; each refusal has its own exact condition |
| EmailEffects.ResetEffects | backend/internal/adminissues/actions.go:304-455 | A granted retry sends tickets, refunds and event changes again from the first attempt, at once, to the address found now |
| EmailEffects.SupersedeEffects | backend/internal/adminissues/actions.go:346-394 | A granted retry of a recovery queues a new request for 900 seconds with a new job and marks the failed one |
| EmailEffects.RefusedRetryChangesNothing | backend/internal/adminissues/actions.go:263-467 | A refused retry changes nothing |
| EmailEffects.SuccessorsFollowUnusedRequests | backend/internal/adminissues/actions.go:346-394 | Over every run each new successor was queued by a granted retry at a moment when nobody had used the request |
| EmailEffects.UsedIsNeverFollowed | backend/internal/adminissues/actions.go:356-360 | Once its request was used, a job never gets a successor, whatever happens |
| EmailEffects.ClaimEffects | backend/internal/email/email.go:138-172 | A worker gets a job exactly if its turn has come, or its last worker was silent for 60 seconds, with an attempt of three left |
| EmailEffects.ReportEffects | backend/internal/email/email.go:324-363 | A report under a stored claim ends it: sent, failed for good, or once more after 60 seconds, after 300 the second time and never after the third; any other report changes nothing |
| EmailEffects.DeliveryEffects | backend/internal/email/recovery.go:51-78 | The address is stored under the claim's token; a link lives until the earlier of the request's end and the order's deadline |
| EmailEffects.AttemptReports | backend/internal/email/recovery.go:27-78 | How an attempt at a recovery link ends, each way with its exact condition |
| EmailEffects.AttemptStatements | backend/internal/email/recovery.go:51-78 | The address is stored before a link is issued, a link before the report, and no link unless it is to be delivered |
| EmailEffects.SweepEffects | backend/internal/email/recovery.go:19-25 | The sweeps fail exactly the jobs whose worker went silent on the last attempt, and exactly the waiting recoveries whose request is over |
| EmailEffects.EnqueueEffects | backend/internal/email/email.go:113-136 | A job is inserted once, to be sent from the start, and a recovery with its request under one fresh id |
| EmailEffects.ResendEffects | backend/internal/recovery/handler.go:246-258 | The customer's resend inserts the tickets' job or restarts it once it was sent or failed; a job under way stays |
| Text.Trim | backend/internal/checkout/checkout.go:122-131 | Leaves no space at either end, and a text without such spaces as it is |
| Text.TrimIgnoresPadding | backend/internal/checkout/checkout.go:122-131 | Spaces before and behind never matter |
| Text.CaseIsForgotten | backend/internal/checkout/checkout.go:127-147 | Texts that differ in case alone have one lower and one upper form |
| CheckoutRequest.Validate | backend/internal/checkout/checkout.go:121-152 | The loops that overwrite the request decide and return the specified normal form |
| CheckoutRequest.CleanAttendees | backend/internal/checkout/checkout.go:126-134 | The attendee loop trims every group and name and refuses exactly names outside 2 to 80 characters |
| CheckoutRequest.CleanNames | backend/internal/checkout/checkout.go:128-133 | The same for the names of one group |
| CheckoutRequest.Digits | backend/internal/checkout/checkout.go:154-161 | Decides whether all characters are digits |
| CheckoutRequest.ValidateIsIdempotent | backend/internal/checkout/checkout.go:121-175 | What is accepted is a fixed point, so a request and its stored form have one hash |
| CheckoutItems.TakeItems | backend/internal/checkout/checkout.go:291-336 | The item loop succeeds exactly when groups and lines match one to one with names counted by quantity, prices and quantities are positive, and the exact sum fits in 64 bits; then the subtotal is that sum. No 64-bit operation in it wraps |
| CheckoutItems.TakeLine | backend/internal/checkout/checkout.go:306-322 | The guards of one round pass exactly then |
| CheckoutItems.IndexAttendees | backend/internal/checkout/checkout.go:291-298 | The map is built exactly from distinct, named, non-empty groups |
| CheckoutItems.OverflowGuard | backend/internal/checkout/checkout.go:306 | The quotient test is exact: it refuses exactly the products beyond 64 bits |
| CheckoutItems.SeenAllGroups | backend/internal/checkout/checkout.go:334-336 | As many tiers seen as groups given means no group is left over, and conversely |
| CheckoutItems.InsertAttendees | backend/internal/checkout/checkout.go:361-371 | The row loop writes the specified rows |
| CheckoutOrders.EveryOrderIsNumbered | backend/internal/checkout/checkout.go:361-371 | In every order that any run leaves, each reserved tier has exactly one attendee row for each number from 1 to its quantity, and there are no others |
| CheckoutOrders.OrderIsNumbered | backend/internal/checkout/checkout.go:361-371 | The same from the invariant, and the rows are as many as the tickets reserved |
| CheckoutItems.RowsBearTheNames | backend/internal/checkout/checkout.go:361-371 | Row n of a tier bears the n-th name given for it |
| CheckoutOrders.RunKeepsOrder | backend/internal/checkout/checkout.go:213-382 | Over all runs a reservation has at most one order, every order is faithful to its reservation's lines and its request, and a reservation is CONVERTED exactly if it has an order or the conversion endpoint converted it |
| CheckoutOrders.ConvertedIffOrdered | backend/internal/checkout/checkout.go:375 | Without that endpoint CONVERTED and having an order are the same, from the empty tables on |
| CheckoutOrders.ConversionWithoutOrder | backend/internal/reservation/repository.go:291-346 | The converting step leaves an order exactly if it is a checkout |
| CheckoutOrders.ConvertedAndNotOrdered | backend/internal/reservation/repository.go:291-346 | One reservation converted at the endpoint is CONVERTED and has no order |
| CheckoutOrders.ReplayReturnsTheOrder | backend/internal/checkout/checkout.go:248-265 | After a placed order every later checkout of the reservation changes nothing: same data and key get that order back but for its status, other valid data is a conflict, another key is denied |
| CheckoutOrders.CheckoutPlacesIff | backend/internal/checkout/checkout.go:213-382 | A checkout places an order exactly if its request is valid, the reservation open to this caller and unexpired, its lines covered, their exact sum within 64 bits, the price positive and the id fresh; otherwise it changes nothing |
| CheckoutOrders.OrderCostsWhatWasQuoted | backend/internal/checkout/checkout.go:202-206 | The order has the subtotal, fee, discount and total that the quote gives for the reservation |
| CheckoutOrders.Calculate | backend/internal/pricing/pricing.go:115-157 | The contract of pricing: discount within the subtotal, a positive total that is exact |
| CheckoutOrders.NewOrderIsFaithful | backend/internal/checkout/checkout.go:337-371 | A written order says of its reservation what request and lines say |
| CheckoutOrders.RunExtends | backend/internal/checkout/checkout.go:213-382 | Orders are only appended and keep all but their status; reservations keep their key and lines |
| CheckoutOrders.Repository.Create | backend/internal/checkout/checkout.go:213-382 | The transaction is the specified step |
| CheckoutOrders.Repository.Place | backend/internal/checkout/checkout.go:283-382 | Its writing part |
| CheckoutOrders.Repository.WriteOrder | backend/internal/checkout/checkout.go:337-371 | The rows of a new order |
| CheckoutOrders.Repository.Convert | backend/internal/reservation/repository.go:291-346 | The conversion endpoint |
| CheckoutOrders.Repository.QuoteReservation | backend/internal/checkout/checkout.go:177-211 | Every answer to a request for a price: a malformed voucher, no such reservation, a wrong key, a reservation that is not active and in time, or the price of the exact subtotal |
| CheckoutEffects.ValidateAnswers | backend/internal/checkout/checkout.go:121-152 | A request is accepted exactly if name, e-mail, phone, identity, attendee names and voucher are in order, each told by its own rule, and then every field is the trimmed, stripped or upper- or lower-case form of the field that was sent, groups and names in their order; a voucher alone out of order is told apart |
| CheckoutEffects.StripDropsSeparators | backend/internal/checkout/checkout.go:124 | Of a phone number exactly spaces and hyphens are dropped |
| CheckoutEffects.ReplayedIffSameData | backend/internal/checkout/checkout.go:248-265 | After a placed order any later checkout of its reservation that is in order and has the key is a replay exactly if no field differs but in spelling that is cleaned away, and a conflict exactly if one does |
| CheckoutEffects.DisorderIsRefused | backend/internal/checkout/checkout.go:213-217 | A request out of order is refused as such without a change, whatever it is for |
| CheckoutEffects.EarlyRefusals | backend/internal/checkout/checkout.go:228-265 | Not found, denied, and replay or conflict, each exactly when |
| CheckoutEffects.StateRefusals | backend/internal/checkout/checkout.go:266-282 | Each state of the reservation, and closed sales, has its own refusal, exactly then |
| CheckoutEffects.AcceptableMeans | backend/internal/checkout/checkout.go:291-336 | What checkout asks of lines and groups: the same tiers, one group to a tier, one name to a ticket, prices and quantities, and a sum that fits in 64 bits |
| CheckoutEffects.SumSplits | backend/internal/checkout/checkout.go:306-312 | The subtotal is the sum of quantity times price, however the lines are split |
| CheckoutEffects.PriceMeans | backend/internal/pricing/pricing.go:115-157 | A price exists exactly if subtotal and fee fit in 64 bits, the voucher is usable and something is left to pay; the discount is what the voucher takes off, at most the subtotal |
| CheckoutEffects.PlaceRefusals | backend/internal/checkout/checkout.go:283-382 | Placing fails on what the request covers, on the price or on a taken id, and then changes nothing |
| CheckoutEffects.PlacedEffects | backend/internal/checkout/checkout.go:337-382 | A placed order is added behind all others and bears every field of request, reservation and tariff; its reservation is CONVERTED and nothing else changes |
| CheckoutEffects.ConvertEffects | backend/internal/reservation/repository.go:291-346 | The conversion endpoint converts exactly an active reservation in time while sales are open; each refusal has its own condition |
| CheckoutEffects.OtherEffects | backend/internal/reservation/repository.go:37-152 | Reserving adds an active reservation under a new id; cancelling and expiring end an active one |
| CheckoutEffects.MoveEffects | backend/internal/checkout/checkout.go:213-382 | Payment and refund move the status of the one order of that id |
| Admission.CodeRoundTrip | backend/internal/checkin/checkin.go:117-126 | The code printed for a ticket is accepted as it is and leads back to the ticket |
| Admission.AcceptedCodeIsPrinted | backend/internal/checkin/checkin.go:117-126 | An accepted code in any spelling is the one printed for its ticket |
| Admission.NormalizeIsIdempotent | backend/internal/checkin/checkin.go:101-115 | A normal request is its own normal form |
| Admission.OwnRequestIsJudged | backend/internal/checkin/checkin.go:193-297 | Shown at its own gate a ticket enters exactly when that gate is a normal text and every check passes |
| Admission.JudgeMeans | backend/internal/checkin/checkin.go:233-273 | What the checks ask: paid, not held, event open today, snapshot of this ticket and event |
| Admission.EligibleIffEntersAnyDay | backend/internal/adminreports/attendance.go:178-190 | A ticket counts as eligible exactly when check-in at its own gate would pass every check, the day and earlier use aside |
| Admission.EligibleEntersSomeDay | backend/internal/eventstate/state.go:68-82 | A ticket is eligible exactly if there is a moment at which it enters at its own gate |
| EventState.OpensSomeDay | backend/internal/eventstate/state.go:68-82 | An event opens its doors at some moment exactly if it is neither postponed nor cancelled |
| EventState.MovesKeepSettled | backend/internal/eventchange/change.go:84-106 | Over all decisions and edits an event is SCHEDULED exactly while no decision was taken, and a RESCHEDULED one has a start |
| Admission.StatusPromisesCheckIn | backend/internal/checkin/checkin.go:180-188 | For staff at the ticket's gate the status page promises entry exactly when a scan now would record it |
| Admission.AssignKeepsLawful | backend/internal/staffauth/service.go:526-566 | Replacing assignments keeps every assignment at a normal gate |
| Admission.Service.ReplaceAssignments | backend/internal/staffauth/service.go:452-485 | All posts are replaced if they are distinct, within limits and sold, else nothing changes |
| Doors.EligibleIffShort | backend/internal/adminreports/attendance.go:178-190 | A valid ticket of a sold gate is eligible exactly if the gate has at most 100 bytes |
| Doors.PostedIffShort | backend/internal/staffauth/service.go:526-545 | Staff can be posted at a sold gate exactly if it has at most 100 bytes |
| Doors.PromiseIsKeptIffShort | backend/internal/checkin/checkin.go:180-188 | What an administrator's status page promises comes true for staff posted at the gate exactly if it has at most 100 bytes |
| Doors.AdminSees | backend/internal/staffauth/service.go:257-276 | What an administrator's status page promises: paid, not held, unused, event open now, whatever the gate |
| Doors.LongGateIsShut | backend/internal/checkin/checkin.go:101-115 | No request of anyone lets in a ticket whose gate is not a normal text |
| Doors.LongGateOnSale | backend/internal/catalog/admin.go:215-222 | Three requests to an empty catalogue put a gate of 102 bytes on sale |
| Doors.LongGateIsSold | backend/internal/catalog/admin.go:215-222 | The catalogue accepts that gate for any new tier that is otherwise in order |
| Doors.RunKeepsSold | backend/internal/catalog/repository.go:548-611 | Over all runs of the catalogue a tier's gate is a trimmed text of 1 to 100 characters |
| Admission.UsedStaysUsed | backend/internal/checkin/checkin.go:193-331 | A scan changes nothing but the log, unless it records a first use; recorded uses never change |
| Admission.Service.AuthorizeTicketStatus | backend/internal/staffauth/service.go:257-276 | Administrators, and staff assigned to the gate |
| Admission.Service.InsertAttempt | backend/internal/checkin/checkin.go:309-331 | Logs the normal form of what was submitted, or null |
| Admission.Service.FinishAttempt | backend/internal/checkin/checkin.go:299-307 | Logs the outcome and reports it |
| Admission.Service.CheckInTicket | backend/internal/checkin/checkin.go:193-297 | The transaction is the specified decision and record |
| Admission.Service.AdmitTicket | backend/internal/checkin/checkin.go:223-297 | Its part behind authorisation |
| CheckInProtocol.TicketsEnterOnce | backend/internal/checkin/checkin.go:193-331 | However check-ins, payments, refunds, event changes, crashes and retries interleave statement by statement, a ticket has exactly one CHECKED_IN attempt if it has a check-in row and none otherwise |
| CheckInProtocol.RunKeepsInv | backend/internal/checkin/checkin.go:193-331 | In every interleaving each TICKET_ALREADY_USED attempt carries the recorded time, and every transaction's passed checks still hold under its locks |
| CheckInProtocol.RunKeepsLawful | backend/internal/checkin/checkin.go:193-331 | In every interleaving events stay settled and assignments name normal gates |
| CheckInProtocol.NextKeepsInv | backend/internal/checkin/checkin.go:193-331 | Each single statement of any transaction keeps that |
| CheckInProtocol.CommitIsAtomic | backend/internal/checkin/checkin.go:241-297 | A commit is the undivided check-in carried out at that moment |
| CheckInProtocol.RecordsNeverChange | backend/internal/checkin/checkin.go:274-297 | A stored check-in and a logged attempt never change |
| CheckInProtocol.OneWriterPerTicket | backend/internal/checkin/checkin.go:254-290 | No two transactions are about to record one ticket, and none finds it recorded: the unique keys are never hit |
| CheckInProtocol.UndisturbedIsCheckIn | backend/internal/checkin/checkin.go:193-297 | Undisturbed, the nine statements finish and leave what the service's method leaves |
| CheckInProtocol.FirstUsesCounts | backend/internal/checkin/checkin.go:287-289 | The count behind the first row: distinct first uses are counted once |
| AdmissionEffects.EarlyAnswers | backend/internal/checkin/checkin.go:193-222 | Not staff, an unreadable request, or no post at that gate: each exactly when |
| AdmissionEffects.LateAnswers | backend/internal/checkin/checkin.go:223-297 | A ticket enters, or is found used, exactly if staff posted there send a readable request, the ticket is there, its order is PAID, unheld and of the request's event, the event is open now, and the snapshot names this ticket, this event and exactly the request's gate; wrong gate, changed event, unpaid order and a broken snapshot are answered exactly when that check is the first to fail |
| AdmissionEffects.NotFoundAnswers | backend/internal/checkin/checkin.go:223-270 | Not found is answered exactly for a missing ticket, an order of another event, or a snapshot of another ticket or event |
| AdmissionEffects.JudgeSays | backend/internal/checkin/checkin.go:233-273 | What the checks say, check by check, in terms of the rows |
| AdmissionEffects.ScanWrites | backend/internal/checkin/checkin.go:274-331 | A first use writes the ticket's row with staff, event, gate and time of the scan; each answer leaves one log row that says who scanned what, with the time of the use; nothing else is written |
| AdmissionEffects.RunsAddFittingRows | backend/internal/checkin/checkin.go:193-297 | However the statements of all transactions interleave, every check-in row that a run adds bears the event of the ticket's order and the gate of the ticket's own snapshot |
| AdmissionEffects.OpenMeans | backend/internal/eventstate/state.go:68-82 | An event lets people in at any time while it is unchanged, and else between the two midnights in Jakarta of its day |
| AdmissionEffects.StatusAnswers | backend/internal/checkin/checkin.go:128-191 | The status page is shown to administrators and to staff posted at the gate that the snapshot names, with the time of an earlier use or else whether the ticket could enter now |
| AdmissionEffects.AssignEffects | backend/internal/staffauth/service.go:526-566 | A member of staff gets exactly the given posts, trimmed, if each is good and none comes twice; everybody else keeps theirs |
| Grouping.GroupsKeepTotals | backend/internal/adminreports/reports.go:161-173 | GROUP BY keeps the total of any part of the keys |
| Grouping.PartsAddUp | backend/internal/adminreports/reports.go:177-218 | Labels that claim each row once have totals that add up to the whole |
| Wib.DaysOfRange | backend/internal/adminreports/reports.go:114 | An instant lies between the starts of two days exactly if its Jakarta day does |
| SalesReport.RangesAreBounded | backend/internal/adminreports/reports.go:88-123 | A filter is refused exactly when it is malformed or its days are not 1 to 366; defaults are thirty days and today |
| SalesReport.OneDayEach | backend/internal/adminreports/reports.go:153-159 | Every row in range falls on exactly one listed day |
| SalesReport.MeasuresAreGrouped | backend/internal/adminreports/reports.go:161-173 | Grouping by kind keeps payments and refunds apart |
| SalesReport.ListDays | backend/internal/adminreports/reports.go:153-159 | The days in order without a gap, each with its place |
| SalesReport.AddGroups | backend/internal/adminreports/reports.go:176-213 | The accumulating loop fills days, events and summary with the groups' totals and never leaves the listed days |
| SalesReport.NetDays | backend/internal/adminreports/reports.go:214-217 | Net is payments less refunds on every day |
| SalesReport.Sales | backend/internal/adminreports/reports.go:125-244 | Every row of the report is the direct total of the payments and refunds that it stands for; "outside requested range" is unreachable |
| SalesReport.ViewsAgree | backend/internal/adminreports/reports.go:177-237 | Daily rows and event rows each add up to the summary: transactions, payments, refunds and net |
| ReportEffects.SalesFigures | backend/internal/adminreports/reports.go:125-244 | Every figure is a plain sum over the table: each day's between its two midnights in Jakarta, each event's and the summary's between the first and the last |
| ReportEffects.RangeMeans | backend/internal/adminreports/reports.go:88-115 | A report is for the days that were given, up to today if no end was, and for thirty days if no start was |
| AttendanceReport.Attendance | backend/internal/adminreports/attendance.go:156-292 | Every category, gate and the summary are what the tickets and tiers amount to, and no ticket and no tier is left out |
| AttendanceReport.ReadTiers | backend/internal/adminreports/attendance.go:156-176 | Each tier becomes a category with its stock |
| AttendanceReport.AddGroups | backend/internal/adminreports/attendance.go:208-249 | The accumulating loop gives every category and gate the totals of its groups |
| AttendanceReport.Summarize | backend/internal/adminreports/attendance.go:257-278 | The loop over the categories adds stock to gates and rows to the summary |
| AttendanceReport.ViewsAgree | backend/internal/adminreports/attendance.go:208-278 | Categories and gates each add up to the summary: issued, eligible, held, checked in, capacity and available |
| AttendanceReport.RatesArePercentages | backend/internal/adminreports/attendance.go:69-75 | Every rate is null exactly if nobody is eligible, and otherwise between 0 and 100 |
| AttendanceReport.EligibleAreAdmitted | backend/internal/adminreports/attendance.go:178-205 | The eligible tickets of the summary are as many as check-in would admit |
| ReportEffects.AttendanceFigures | backend/internal/adminreports/attendance.go:178-278 | Every category, every gate and the summary count their tickets one by one, and the rate is the share of the eligible that are in |
| ReportEffects.AttendanceStock | backend/internal/adminreports/attendance.go:156-278 | Capacity and available stock are each tier's own, and each gate's and the event's the sums over its tiers |
| Paging.ListPage | backend/internal/adminorders/admin.go:157-195 | The loop and the cut give the page of the query |
| Paging.PagesEnumerate | backend/internal/adminorders/admin.go:157-195 | Following the cursors over a fixed table of any size lists each row exactly once, newest first |
| Paging.PagesAreFull | backend/internal/adminorders/admin.go:187-195 | Every page but the last has fifty rows, and the last is empty only if it is the only one |
| Paging.OrdersArriving | backend/internal/adminorders/admin.go:157-195 | Rows inserted later with newer keys change nothing: the pages list the first table, none skipped, none repeated |
| Paging.LastingRowsAreListedOnce | backend/internal/adminissues/admin.go:151-200 | However rows come and go between requests, nothing is listed twice and a row that stays is listed once the end is reached |
| Paging.PageSplits | backend/internal/checkin/checkin.go:358-409 | A page and what is below its cursor make up all that was visible |
| Paging.HistoryCursorRoundTrip | backend/internal/checkin/checkin.go:338-345 | Every id handed out as a cursor is accepted as that id, and no other text stands for it |
| Paging.PageLists | backend/internal/adminorders/admin.go:157-195 | The page after a cursor lists, newest first and of one time by descending id, up to fifty rows below the cursor, and leaves out none that is newer than one it lists |
| Catalog.RunKeepsStock | backend/internal/catalog/repository.go:557-598 | Over any interleaving of edits, reservations and returns, 0 <= available <= capacity, and what is missing is exactly what open reservations hold |
| Catalog.EditRespectsHolds | backend/internal/catalog/repository.go:583-592 | An edit is refused exactly when it would cut below what is sold or held, and never changes that number |
| Catalog.BoundIsHeld | backend/internal/catalog/repository.go:587 | The unsigned subtraction never wraps |
| Catalog.GiveBackIsExact | backend/internal/reservation/repository.go:348-372 | A return always fits: clipping at the capacity cuts nothing off, and not clipping never fails |
| Catalog.GateIsLocked | backend/internal/catalog/repository.go:578-586 | A tier's gate never changes after its first reservation |
| Catalog.RunKeepsCatalog | backend/internal/catalog/repository.go:242-370 | Over all runs every PUBLISHED event has a schedule, texts, a lineup, a zone and a tier, and zones and tiers have names and gates |
| Catalog.FromNothing | backend/internal/catalog/repository.go:242-611 | Both hold of everything created under these rules |
| Catalog.NothingIsBornPublished | backend/internal/catalog/repository.go:242-252 | Creating an event as PUBLISHED is always refused without a change |
| Catalog.RunKeepsSettled | backend/internal/catalog/repository.go:296-316 | Over all runs an event is SCHEDULED exactly while no decision was taken, and a RESCHEDULED one has a start |
| Catalog.ReservedEventStaysPut | backend/internal/catalog/repository.go:300-330 | Once a reservation exists city, venue and address never change, and the schedule never through an edit |
| Catalog.CheckLineup | backend/internal/catalog/admin.go:290-297 | Trims every name in place and refuses exactly blank or long ones |
| Catalog.Repository.ValidatePublication | backend/internal/catalog/repository.go:453-470 | Decides completeness |
| Catalog.Repository.CheckEventInput | backend/internal/catalog/admin.go:246-299 | Trims and checks the input |
| Catalog.Repository.CreateEvent | backend/internal/catalog/repository.go:242-276 | The transaction is the specified step |
| Catalog.Repository.UpdateEvent | backend/internal/catalog/repository.go:278-358 | The transaction is the specified step |
| Catalog.Repository.DecideEvent | backend/internal/eventchange/change.go:217-290 | A decision on an event's row is the specified step |
| Catalog.Repository.ReplaceLineup | backend/internal/catalog/repository.go:360-370 | The lineup becomes the given one |
| Catalog.Repository.SaveZone | backend/internal/catalog/repository.go:490-540 | The transaction is the specified step |
| Catalog.Repository.SaveTier | backend/internal/catalog/repository.go:548-611 | The transaction is the specified step, in 64-bit arithmetic without wrap-around |
| CatalogEffects.UpdateAnswers | backend/internal/catalog/repository.go:278-334 | An edit has exactly one answer, each with its exact condition: texts that do not fit, no such event, a locked start, a locked place, a reservation that would lose something, an incomplete publication, or Ok |
| CatalogEffects.UpdateEffects | backend/internal/catalog/repository.go:335-358 | An accepted edit stores every text, the lineup and the publication as they were sent, and the start that was sent or that the event holds on to; version, lifecycle and all other rows are as they were |
| CatalogEffects.CreateEffects | backend/internal/catalog/repository.go:242-276 | A new event is stored as it was sent, scheduled and undecided; each refusal has its exact condition |
| CatalogEffects.EventsCanBeSold | backend/internal/catalog/repository.go:242-611 | Four requests to an empty catalogue put an event on sale, and then a ticket can be reserved |
| CatalogEffects.DecideEffects | backend/internal/eventchange/change.go:84-290 | A decision is taken exactly on an event that is not cancelled, for the version that its author saw, and changes its state alone |
| CatalogEffects.ZoneEffects | backend/internal/catalog/repository.go:490-540 | A zone is stored under its trimmed name; each refusal has its exact condition |
| CatalogEffects.NewTierEffects | backend/internal/catalog/repository.go:548-611 | A new tier starts with its whole capacity available; each refusal has its exact condition |
| CatalogEffects.EditTierEffects | backend/internal/catalog/repository.go:557-598 | An edited tier keeps the number of tickets that are taken; each refusal has its exact condition |
| CatalogEffects.ReserveAnswers | backend/internal/reservation/repository.go:37-152 | A reservation is granted exactly for an event on sale whose tiers have the tickets |
| CatalogEffects.ReserveEffects | backend/internal/reservation/repository.go:37-152 | Every reserved tier has so many tickets fewer and every other tier as many as before |
| CatalogEffects.GiveBackEffects | backend/internal/reservation/repository.go:348-372 | What was reserved comes back tier by tier, once |
| CatalogUpgrade.UpgradeConverges | backend/migrations/migrate.go:468-516 | Versions 15 and 16 each: any series of runs cut off after any statement, then one that lasts, ends where one uninterrupted run ends, at a target written down without the program |
| CatalogUpgrade.RunsProgress | backend/migrations/migrate.go:468-516 | A run from any of its places is never refused, stops early only when the connection is lost, and keeps its target |
| CatalogUpgrade.EachStep | backend/migrations/migrate.go:468-516 | Each statement sent meets its precondition, so the duplicate check that is tolerated never comes up |
| CatalogUpgrade.UpgradeKeepsEvents | backend/migrations/migrate.go:489-516 | After both versions, interrupted as often as one likes, every old event is there with all it had, PUBLISHED exactly if it is presentable and else DRAFT |
| CatalogUpgrade.UpgradedCatalogStaysOffered | backend/migrations/migrate.go:468-516 | Whatever the old catalogue held, after its upgrade and any run of edits, reservations and returns every PUBLISHED event has a schedule, texts, a named act, a zone, a tier, and names and gates on all of them, and stock in order stays so |
| CatalogUpgrade.SparedIffStillAccepted | backend/internal/catalog/repository.go:453-470 | An event that the upgrade leaves published would be accepted for publication exactly if its texts hold more than white space |
| CatalogUpgrade.TabsArePublished | backend/migrations/migrate.go:489-494 | One that stays published and could not be published |
| CatalogUpgrade.ResumeEventPublication | backend/migrations/migrate.go:500-516 | The program of version 15 is the run that the lemmas speak of |
| CatalogUpgrade.ResumeAdminCatalog | backend/migrations/migrate.go:468-498 | The program of version 16 is the run that the lemmas speak of |
| CatalogUpgrade.DemotionSparesOthers | backend/migrations/migrate.go:489-494 | The UPDATE touches published events that lack something, and of these the publication alone |
| CatalogUpgrade.PresentableMeans | backend/migrations/migrate.go:489-494 | It spares exactly an event with a start, two characters other than spaces in artist, city, venue and address, one in the description, a web address as image, a named act, a zone, a tier, and names on all of these |
| Conversion.CountsAreJourneys | backend/internal/conversion/conversion.go:209-227 | Each COUNT(DISTINCT IF ...) over the joins is the number of journeys that reached the stage by any reservation within a day, however many reservations they have |
| Conversion.MatureIsAtMostAll | backend/internal/conversion/conversion.go:209-240 | Mature counts never exceed the total ones |
| Conversion.StageIsAtMostAll | backend/internal/conversion/conversion.go:209-227 | No stage counts more journeys than there are |
| Conversion.GroupsAddUp | backend/internal/conversion/conversion.go:198-208 | A count over the cohort is the sum of the same count over events, and over devices |
| Conversion.BreakdownsAgree | backend/internal/conversion/conversion.go:198-273 | The rows of events, and of devices, add up to the summary, and pending is never negative |
| Conversion.StageRows | backend/internal/conversion/conversion.go:198-246 | The loop over the lines builds the specified rows |
| Conversion.Sum | backend/internal/conversion/conversion.go:253-273 | The accumulating loop is the sum of the rows |
| Conversion.LossIsExactIffNobodySkips | backend/internal/conversion/conversion.go:241-252 | A shown loss is the number of journeys that stopped exactly if nobody skipped the stage or nobody stopped |
| Conversion.SkipHidesLoss | backend/internal/conversion/conversion.go:241-252 | Two journeys of which one is lost while the shown loss is 0 |
| Conversion.LaterLossesAreExact | backend/internal/conversion/conversion.go:241-252 | From the reservation on the shown losses are exact |
| ReportEffects.CountMeans | backend/internal/conversion/conversion.go:198-227 | Each count is the number of journeys of the asked time, event, device and group that got to the stage within a day |
| ReportEffects.FunnelRows | backend/internal/conversion/conversion.go:209-246 | A row has all and day-old journeys by stage, those less than a day old as pending, and as losses the differences of day-old neighbours where they are positive |
| ReportEffects.SummaryAddsColumns | backend/internal/conversion/conversion.go:253-273 | Each figure of the summary, the losses too, is the sum of its column |

## Left out

- Migration file loading, the server-wide lock, and the parts of versions 21 and 26 that do not touch `email_queue` beyond the tables and statuses it needs; versions other than these and 14, 15 and 16 appear in `MigrationRunner` as the objects that their statements make.
- Rows that an older server inserts during a run of version 14, or between runs of versions 21 and 26; between runs of version 14 they are modelled.
- Authentication, HTTP, JSON, status codes, messages and CSV; callers are authorised where the code asks for it, except at the door, where roles and assignments are modelled.
- `EmailDetail`'s retry flag: it asks other questions than the retry itself and is advice only.
- UTF-8 truncation of stored error texts; texts that the models store are not cut.
- The order in which `SKIP LOCKED` picks jobs, the unique `dedupe_key` of jobs, and rendering and delivery of mail; whether a delivery worked is an input.
- EmailRetry.RetryRevivesTheTail: the kind-specific conditions outside the queue (order paid, tickets complete, snapshot and pair matching) are one input, because they live in packages that are not modelled.
- ResumableMigrations.Step26: over `email_queue` only; the columns of `events`, `orders` and `order_refunds` and the new tables of version 26 are further objects that are asked for before they are made.
- ResumableMigrations.EventChangesProgress: over `email_queue` only, as Step26.
- ResumableMigrations.EventChangesConverge: over `email_queue` only, as Step26.
- ResumableMigrations.ResumeEventChanges: over `email_queue` only, as Step26.
- EmailRetry.MailService.RetryEmailJob: the same one input as in RetryRevivesTheTail.
- EmailEffects.RetryAnswers: the same one input; `ready` and `limited` are facts of the packages that are not modelled.
- EmailRetry.RecoveringEndsTheClaim: the statements of one attempt alone; AttemptAmongOthers says the same with anything in between.
- CheckoutRequest.Validate: case mapping is ASCII only (also in `CatalogUpgrade.LooksLikeUrl`), `mail.ParseAddress` is an arbitrary function that accepts only texts with an at sign, and the sharing of slices between the caller's request and the cleaned one is not modelled.
- CheckoutEffects.ValidateAnswers: case mapping and `mail.ParseAddress` as in Validate.
- CheckoutOrders.Calculate: the voucher is reduced to what it would take off, because `pricing` is a contract here.
- Invalid UTF-8 in request data, which JSON would replace before hashing.
- The name of a tier at checkout is taken from the reservation's line, so renames between reservation and checkout do not appear.
- Go matches JSON keys without regard to case; snapshots here have each key in one spelling.
- Rate limits are an input; their counters are not modelled.
- SalesReport.Sales: the pending refunds and open cases shown beside the figures, two counts of their own; and overflow of the signed 64-bit sums.
- AttendanceReport.Attendance: the order of rows and the hourly counts; `attendanceRate` is exact instead of floating point.
- Texts in SQL comparisons are compared exactly, where MySQL's collation also matches other spellings of a gate or an event id.
- The base64 and JSON form of list cursors, and comparison of numeric ids with text cursors in MySQL beyond 2^53; keys are compared as values.
- Filters of the lists: a table here is what the filter lets through.
- Catalog.Repository.CheckEventInput: genre, status, slug and the form of the image address, which no property here speaks of.
- Catalog.Repository.CreateEvent: the same fields, and audit rows.
- Catalog.Repository.UpdateEvent: the same fields, and audit rows.
- Catalog.Repository.SaveZone: slugs, descriptions and audit rows.
- Catalog.Repository.SaveTier: slugs, prices, order limits, benefits, seating and audit rows.
- Catalog.Repository.DecideEvent: idempotency keys, reasons, the pause of sales and its effect on orders; whether an earlier decision is still being carried out is an input.
- Blockers and unattributed counts of the conversion report.
