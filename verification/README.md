# Delivery engine of the notification service: a verified model

The service accepts notification requests, stores each as a row of `notification_deliveries`, and lets any
number of dispatchers claim due rows, call a provider and write the result back. Providers post receipts;
a cleaner deletes old rows. Every change is a transaction guarded by a `version` compare-and-set and paired
with an outbox event. No single function of the program states what this guarantees. The project models the
engine and proves the guarantees for every schedule of its parts.

## How it is built

* `Deliveries.dfy`, `Backoff.dfy`, `Store.dfy`: the row with all its columns, the transformations the program
  applies to it, int64 retry delays, and the two tables as values: what each committed transaction turns them into.
* `Protocol.dfy`: the step system. One shared database; callers of `Send`, open claim transactions with their
  row locks (`FOR UPDATE SKIP LOCKED`), claimed deliveries, receipts and retention batches in flight are
  separate state, so a read and the write that depends on it are two steps. Transactions may abort, workers
  may stop anywhere, a commit may be applied although its acknowledgement is lost, the clock moves on
  between any two steps. `Exec` runs a schedule, `Reachable` is what schedules lead to.
* `Invariant.dfy`, `Preservation.dfy`: the inductive invariant and its preservation, step by step.
* `Runs.dfy`, `Guarantees.dfy`, `Waiting.dfy`, `Progress.dfy`: the theorems over all reachable states and all runs.
* `Journeys.dfy`, `Scenario.dfy`, `Findings.dfy`, `Overflow.dfy`: runs built from pieces: that bounds are attained,
  where guarantees end, and the conditions under which they hold.
* `Repository.dfy`, `Dispatcher.dfy`, `Service.dfy`, `Retention.dfy`: the program's loops and in-place updates
  as methods over a `Database` object. Each method is proved against the table functions, and also returns
  the schedule it amounts to (`Exec(old(sys), acts) == Some(sys)`), so every theorem about runs applies to it.
* `Outbound.dfy`, `Sending.dfy`: the HTTP retry loop with ownership of response bodies, the breaker around it, the
  choice of a sender; the dispatcher sends through them.
* `Registers.dfy`: the optimistic-lock upserts of providers and templates.

Configuration is taken as validated (`Configured`: positive batch size, attempt limit and base delay).
The environment (which statement fails, how a commit ends, provider answers, clock readings) is a parameter.

## Findings

Each is proved: by a run that shows it, and by an exact condition where there is one.

* **No lease on `processing`.** A processing row can change exactly while some worker holds a claim on it
  (`Runs.ProcessingRecoversIff`); once the claim is lost (crash, aborted finish, lost claim acknowledgement,
  `Findings.OrphanReachable`) it is processing for ever. Nothing else is ever stuck: every other stored delivery
  can still be sent or given up (`Progress.FinishableIff`).
* **Retry delays overflow.** `retry_base` is only checked to be positive. All delays of a configuration are the
  intended ones, and their sum is the closed form, exactly when the largest product fits int64
  (`Backoff.BackoffExactIff`, `Backoff.TotalWaitClosedForm`; for any attempt limit: base at most 2^53 - 1 ns,
  `Backoff.BackoffNeverOverflowsIff`). Beyond that some delay is negative (`Backoff.FirstOverflow`,
  `Backoff.OverflowWitness`). Bounded waiting, and that no reschedule gets ahead of an overdue delivery, hold
  exactly for the configurations whose delays fit (`Overflow.BoundedWaitingIff`). The tight dead-letter time is
  stated for those too; the lower bound and everything else hold without the condition.
* **Rows in flight can still get ahead.** A send stamped but not committed, and a failed attempt whose retry time is fixed
  but not written, may enter the queue before an overdue delivery (`Findings.SendOvertakes`, `Findings.RetryOvertakes`).
  The k of bounded waiting counts them (`Waiting.Ahead`); nobody else can (`Waiting.JoinsQueueIff`).
* **A locked delivery is passed over.** A claim takes a delivery exactly if it is due, unlocked and fewer than a batch
  of such rows precede it (`Waiting.SelectTakesIff`). While an open claim that later aborts has it locked, any number
  of batches may commit without it (`Findings.LockedDeliveryWaitsOn`), so bounded waiting counts the batches selected
  while it was unlocked.
* **Receipts outlive retention.** README.md:5 says successful and dead deliveries are kept for the retention
  period. The queries name only `sent` and `dead_letter`, so a delivery with a receipt, successful or not, is kept
  for ever (`Guarantees.ReceiptsAreKeptForever`; such a row is reached in `Scenario.DeliveryCompletes`). The model
  follows the code.
* **Uniqueness is per application.** README.md:5 speaks of `(tenant_id, idempotency_key)`; the constraint in force
  is (tenant, application, key), migrations/postgres/000006_application_scope_contract.up.sql:8. The model follows the
  code: two requests can both have a row exactly if they differ in one of the three (`Findings.CoexistIff`), so one
  tenant and key may have a row in two applications (`Findings.TwoApplicationsOneKey`).
* **Template creation ignores the expected version**, provider creation does not (`Registers.ExpectedIsHonouredIff`,
  `Registers.TemplateCreateIgnoresExpected`).
* Receipts test neither for `sent` nor for a provider answer, yet only ever move rows that were sent: this
  rests on what `ProviderSender` and `deliver` write (`Guarantees.MessageIffSent`, `Guarantees.ReceiptsMoveSentRows`).

## Model

| member | source | states |
|---|---|---|
| Guarantees.ClaimExclusivity | internal/notification/dispatcher.go:109-174 | in every reachable state of any number of dispatchers at most one holds a live claim on a delivery, no open claim transaction has it too, and the claim equals the stored processing row in every column |
| Guarantees.LiveClaimsNeverGoStale | internal/notification/repository.go:46-72 | the compare-and-set of an open claim and of the Finish of a live claim always matches, whatever else runs: a worker never overwrites an unseen update and never loses to one |
| Guarantees.AcceptedAtMostOnce | internal/notification/dispatcher.go:124-174 | over a whole run with aborts, crashes and lost acknowledgements at most one send of a delivery is accepted, exactly one if its row says sent or has a receipt, none while it waits or is dead |
| Guarantees.MessageIsTheAnswer | internal/notification/dispatcher.go:152-156 | provider and message id of a sent row, also after receipts, are those of the one answer that accepted it |
| Guarantees.AttemptBudget | internal/notification/dispatcher.go:157-165 | attempts never exceed MaxAttempts and stay below it while waiting; HTTP calls for a delivery never exceed its attempts, nor MaxAttempts over its whole life |
| Guarantees.VersionClosedForm | internal/notification/repository.go:47-63 | version is a closed form of status and attempts in every reachable state, and at most 2*MaxAttempts+2 |
| Guarantees.Conservation | internal/notification/repository.go:35-72 | version equals attempts plus the committed outbox events of the delivery |
| Guarantees.LogRefinesRow | internal/notification/service.go:454-477 | column by column the last event of a delivery is its stored row, or exactly one version and attempt behind while it is processing and equal in the columns a claim leaves alone; locale and key are not in it |
| Guarantees.LogsAreLegal | internal/notification/service.go:454-472 | the committed events of every delivery there is or was form a legal log; an id never inserted has none |
| Guarantees.LegalLogShape | internal/notification/dispatcher.go:152-165 | a legal log is pending, retrying any number of times, then at most one of dead letter and sent, and one receipt at most and only after sent; with attempts and version of every position |
| Guarantees.EventVersionsIncrease | internal/notification/dispatcher.go:167-172 | event versions of a delivery strictly increase |
| Guarantees.EventsCarryTheRequest | internal/notification/service.go:292-297 | every event of a delivery carries the request and creation columns of its first |
| Guarantees.AttemptsAreSpaced | internal/notification/dispatcher.go:149-165 | attempt a was claimed no earlier than creation plus the delays of attempts 1..a-1, and a retry is scheduled no earlier than the delays of attempts 1..a |
| Guarantees.DeadLetterTiming | internal/notification/dispatcher.go:149-165 | a delivery is given up no earlier than creation plus all its retry delays; in closed form when they fit int64 |
| Scenario.DeadLetterTimingIsTight | internal/notification/dispatcher.go:149-165 | for every configuration with fitting delays and every request some run attains that bound exactly |
| Scenario.DeliveryCompletes | internal/notification/service.go:251-380 | for every request some run from an empty database accepts it once and ends in a delivered row with three events |
| Guarantees.MessageIffSent | internal/notification/dispatcher.go:67-70 | provider and message id are both present exactly in status sent, delivered, bounced or failed, and both absent otherwise |
| Guarantees.SnapshotFaithful | internal/notification/repository.go:62-72 | a receipt handler's snapshot whose version is still current equals the stored row in every column; its id is stored or retired, never reused |
| Guarantees.ReceiptsMoveSentRows | internal/notification/service.go:358-379 | a committing receipt changes the sent row it read, in status, reason, version and update columns only, to delivered, bounced or failed, and no other row |
| Guarantees.OneReceiptWins | internal/notification/service.go:371-379 | of two receipts in flight on one delivery, after the first commits the other can never commit, after any further run |
| Guarantees.IdempotentSend | internal/notification/service.go:272-299 | all successful sends with one tenant, application and key return one id while its row is not retired, with one such row and one NotificationRequested event, however the callers interleaved |
| Findings.CoexistIff | migrations/postgres/000006_application_scope_contract.up.sql:8 | two requests both have a row in some reachable state exactly if they differ in tenant, application or key |
| Findings.TwoApplicationsOneKey | migrations/postgres/000006_application_scope_contract.up.sql:8 | some run stores one tenant and key in two applications |
| Guarantees.RetentionUnderInterleaving | internal/notification/repository.go:201-216 | the retention DELETE removes exactly the selected rows still sent or dead and updated before the cutoff; a row that got a receipt in between survives; every live claim and every locked row is still there unchanged |
| Guarantees.ReceiptsAreKeptForever | internal/notification/repository.go:203-208 | a row with a receipt status is in every later state, unchanged |
| Guarantees.NeverRequeued | internal/notification/repository.go:42 | once sent, dead or answered a delivery never returns to the queue; a deleted id never returns |
| Guarantees.OnlyLegalMoves | internal/notification/repository.go:40-72 | from every reachable state a step leaves a row as it is, or makes one of the three legal moves with the version up by one, or deletes a sent or dead row |
| Runs.LifecycleRank | internal/notification/dispatcher.go:152-165 | every committed step that changes a delivery lowers the well-founded pair (attempts left, phase) |
| Runs.FiniteHistory | internal/notification/repository.go:42-47 | in a run of any length a delivery is changed or deleted at most 2*MaxAttempts+1 times |
| Scenario.FiniteHistoryIsTight | internal/notification/dispatcher.go:149-165 | for every configuration and request some run attains that bound |
| Runs.ChangesAreVersions | internal/notification/repository.go:47-63 | a run changes a row that stays exactly as often as its version grew |
| Guarantees.NothingIsForgotten | internal/notification/repository.go:40-72 | along every run from a reachable state ids stay retired, the outbox only grows, rows keep their request and never go back in version, and equal versions mean equal rows |
| Runs.ProcessingRecoversIff | internal/notification/repository.go:42 | a processing row can change in some continuation if and only if a worker holds a claim on it now |
| Findings.OrphanReachable | internal/notification/dispatcher.go:111-118 | for every request some run ends in a processing row nobody holds |
| Progress.FinishableIff | internal/notification/dispatcher.go:109-174 | from every reachable state a stored delivery can still be sent or given up, in some continuation, if and only if it is not a processing row nobody holds |
| Waiting.BoundedWaiting | internal/notification/repository.go:40-61 | an overdue delivery with k deliveries ahead of it is claimed once floor(k/limit)+1 batches selected while it was due and unlocked have committed, in any run |
| Waiting.WaitingRun | internal/notification/repository.go:42 | while it waits, each such commit takes a whole batch out of the set ahead of it, and nothing ever joins that set |
| Waiting.SelectTakesOrPasses | internal/notification/repository.go:42 | a claim that selects while a delivery is due and unlocked takes it, or a full batch that precedes it |
| Waiting.SelectTakesIff | internal/notification/repository.go:42 | a claim takes a delivery exactly if it is due, unlocked and fewer than a batch of such rows precede it |
| Findings.LockedDeliveryWaitsOn | internal/notification/repository.go:42 | with nothing ahead of an overdue delivery any number of batches selected while it was locked commit without it |
| Waiting.NobodyGetsAhead | internal/notification/dispatcher.go:161-164 | once a delivery is overdue no send or reschedule can get ahead of it |
| Waiting.JoinsQueueIff | internal/notification/service.go:291-299 | a step puts a row into the queue before a delivery exactly if it commits a stamped send or a settled retry that precedes it |
| Findings.SendOvertakes | internal/notification/service.go:291-299 | for any two requests of different scope the earlier stamped one can commit into the queue before an overdue one |
| Findings.RetryOvertakes | internal/notification/dispatcher.go:161-174 | so can a failed attempt whose finish commits late |
| Overflow.BoundedWaitingIff | internal/notification/dispatcher.go:205-208 | bounded waiting holds in every run, and no step gets ahead of an overdue delivery, exactly for configurations whose delays fit int64 |
| Preservation.StepInv | internal/notification/dispatcher.go:109-174 | every step of every actor keeps the invariant |
| Preservation.ReachableInv | internal/notification/dispatcher.go:109-174 | so every state any schedule of any number of actors reaches from an empty database satisfies it |
| Preservation.SettledRowOk | internal/notification/dispatcher.go:149-165 | a finished attempt satisfies version form, message presence and timing |
| Preservation.SettledLogOk | internal/notification/dispatcher.go:166-173 | the event of a finished attempt extends a legal log and equals the finished row |
| Preservation.ReceiptLogOk | internal/notification/service.go:368-378 | the event of a receipt extends a legal log and equals the updated row |
| Backoff.BackoffExactIff | internal/notification/dispatcher.go:205-208 | all delays up to attempt m equal base times the capped power of two if and only if the m-th product fits int64 |
| Backoff.BackoffNeverOverflowsIff | internal/notification/dispatcher.go:205-208 | no attempt overflows if and only if base is at most 2^53 - 1 |
| Backoff.OverflowWitness | internal/config/config.go:631 | with base 2^53, which validation accepts, the eleventh delay is negative |
| Backoff.FirstOverflow | internal/notification/dispatcher.go:205-208 | an int64 base whose delays do not all fit has a first delay that does not, and that one is negative |
| Backoff.TotalWaitClosedForm | internal/notification/dispatcher.go:205-208 | the first m delays add up to base*(2^m-1) for m up to 11 and base*(2047+1024*(m-11)) beyond, exactly if the largest fits int64, and to less otherwise |
| Store.DueBatchUnique | internal/notification/repository.go:42 | the claiming SELECT has exactly one answer: the first min(limit, due) unlocked due rows in (next_attempt_at, id) order |
| Repository.Database.SelectDue | internal/notification/repository.go:42-45 | computes that answer: pending or retrying rows due and not locked, the first by (next_attempt_at, id), at most limit |
| Repository.Database.ClaimDue | internal/notification/repository.go:40-61 | the update loop: succeeds exactly if no statement fails (never on a stale version), returns the due batch claimed and has claimed those rows and no others |
| Repository.ClaimedAsStored | internal/notification/repository.go:46-60 | each returned row equals its stored row, which differs from the selected one in status, attempts, version and updated_at only; all other rows are untouched |
| Repository.Database.Claim | internal/notification/dispatcher.go:111-118 | the claim transaction is all or nothing; on an error the tables are as before unless only the acknowledgement was lost |
| Repository.Database.Commit | internal/database/transaction.go:31-34 | an unapplied commit leaves the tables of BEGIN, an applied one keeps the changes, acknowledged or not |
| Repository.Database.FinishWithin | internal/notification/dispatcher.go:166-173 | update and event together or neither, with the columns of both; ErrStaleVersion exactly when the UPDATE ran and the version had moved |
| Repository.Database.InsertWithin | internal/notification/service.go:293-298 | row and event together or neither, with the columns of both; a duplicate exactly when the INSERT ran into the unique constraint |
| Repository.Database.SelectExpired | internal/notification/repository.go:203-206 | the oldest min(limit, expired) sent or dead rows updated before the cutoff, in (updated_at, id) order |
| Dispatching.Dispatcher.RunOnce | internal/notification/dispatcher.go:109-123 | claims exactly the due batch and takes each row to its end, all others untouched, for any faults: sent with the message id of an accepting answer or of the in-app sender, else retried or given up with the reason; it is a run of the step system |
| Dispatching.Dispatcher.Deliver | internal/notification/dispatcher.go:124-174 | takes one claimed row to its end, in every column and for every way an attempt can go, or leaves it processing if the transaction does not apply; it is a run of the step system and books the HTTP calls made |
| Dispatching.Dispatcher.RowAfterEnds | internal/notification/dispatcher.go:125-165 | the row the code computes is the one `Ends` describes case by case |
| Dispatching.Dispatcher.Try | internal/notification/dispatcher.go:125-148 | the attempt as run: outcome and HTTP calls are those of `Attempt`, the calls made by the client's retry loop and within its limit for one POST |
| Dispatching.Dispatcher.Attempt | internal/notification/dispatcher.go:125-148 | an attempt is accepted only if rendered, with the resolved sender, and then with provider and message id; it costs a call exactly if a POST leaves the client |
| Sending.Preferred | internal/notification/repository.go:91-105 | none exactly if no active row of tenant, application and channel is there; otherwise such a row that comes before all others by priority and code |
| Sending.Resolve | internal/notification/dispatcher.go:176-193 | that provider is used exactly if its upstream is allowed and configured; without one the fallback is used |
| Sending.Send | internal/notification/dispatcher.go:31-71 | accepted means a 2xx answer carrying that message id, or the in-app sender; never an unconfigured channel |
| Sending.ProviderSend | internal/notification/dispatcher.go:48-71 | through the HTTP client: outcome and number of calls are exactly those of `Send` and `Posts`, the body of every answer, accepted or not, is closed exactly once and no other |
| Sending.Dispatch | internal/notification/dispatcher.go:31-71 | every sender: the in-app one always accepts, an unconfigured one never does, a provider exactly on a 2xx answer with a message id; a call is made exactly if the request leaves the client, within its limit for one POST |
| Service.Api.Send | internal/notification/service.go:251-300 | a success is the live row with this tenant, application and key; a replay happens exactly if there is one and changes nothing; otherwise each refusal has its error, and an admitted request is stored with its event, all columns given, unless the transaction does not apply; it is a run of the step system |
| Service.Api.RecordReceipt | internal/notification/service.go:341-380 | a row is found exactly if the receipt is valid and one matches it in tenant, application, provider and message; a repeat is answered with it, a finished delivery refused, no match is NotFound, otherwise exactly the sent row and its event change, all columns given; it is a run of the step system |
| Service.WritableIsSent | internal/notification/service.go:362-367 | a row with a message id that is not terminal is sent |
| Retention.Cleaner.Clean | internal/notification/cleanup.go:52-65 | terminates after a number of full batches and a short one; succeeds unless a statement of its last round fails; then exactly the sent and dead rows updated before the last cutoff are gone and the counts add up to the difference; on every result any other row is still there unchanged |
| Retention.Cleaner.DeleteTerminalBefore | internal/notification/repository.go:201-216 | one round deletes the oldest sent and dead rows updated before the cutoff, at most a batch, a short batch being all of them; it succeeds exactly if no statement it runs fails |
| Outbound.DoWithRetry | internal/outbound/http.go:92-133 | ends as `Ended` says and closes every body it moved past exactly once, the one it ended on and all others not at all |
| Outbound.EndedUnique | internal/outbound/http.go:92-133 | the script of replies determines result and number of calls |
| Outbound.RetryBudget | internal/outbound/http.go:98-132 | between one call and the limit; an answer 429, 502, 503 or 504 only when the budget is spent; "attempts exhausted" exactly if the limit is below one |
| Outbound.Execute | internal/outbound/http.go:73-90 | behind an admitting breaker the caller gets doWithRetry's result while a retryable status is booked as a failure; a rejection makes no call |
| Outbound.PlainPostIsOneCall | internal/outbound/http.go:98-101 | a POST without idempotency key is one call whatever the retry policy |
| Registers.NoTwoWinners | internal/notification/repository.go:111-121 | over all interleavings the version counts the successful writes and no two of them beat the same version |
| Registers.RefinesRegister | internal/notification/service.go:81-103 | a write succeeds exactly when compare-and-set on an atomic register does, with the same value |
| Registers.ReturnedIsCommitted | internal/notification/service.go:217-220 | the value returned equals the committed row in every column however stale the read; a create fixes id and creation columns, an update keeps them |
| Registers.ExpectedIsHonouredIff | internal/notification/service.go:203-213 | in every reachable state a write succeeds exactly when compare-and-set on the caller's own expected version does, except for creates that name a version; never an exception for providers |
| Registers.TemplateCreateIgnoresExpected | internal/notification/service.go:203-213 | a run in which a missing template is created although version 7 was expected |
| Registers.Table.PutProvider | internal/notification/service.go:80-104 | alone it is compare-and-set on the expected version; a lost comparison or an unapplied commit changes nothing, a lost acknowledgement is an error with the write in place |
| Registers.Table.PutTemplate | internal/notification/service.go:201-221 | alone it is compare-and-set, except that a create takes any expected version |

## Left out

- Liveness after a crash: not claimed, because the program has none (see Findings).
- Exactly-once delivery to the recipient: a provider may have acted on a call whose answer was lost; what is proved is that at most one send reports success.
- `Guarantees.IdempotentSend`: holds while the row is not retired; retention frees the key.
- Clocks: one clock for all processes; dispatchers with skewed clocks are not modelled. Rounding of timestamps to the database's microseconds is not modelled.
- Configuration changes between runs: one MaxAttempts, batch size and base delay for the whole run.
- Trimming and lower-casing of request fields, tenant and application checks, the rate limiter: `Send` starts from a normalised request and an arbitrary limiter verdict.
- Template lookup, JSON variables and rendering inside `deliver`: one optional failure reason, since only success or failure matters to the row.
- Event envelopes: event ids, subjects and protobuf encoding; an event is its kind and the delivery fields the envelope carries (no locale, no idempotency key).
- Errors of the plain lookups in `Send` and `RecordReceipt` other than not found: they end the call before anything is written.
- The database's collation of provider codes is a parameter of the dispatcher.
- Outbox publishing and its cleaner, the idempotency middleware, locks, scheduler, transports, metrics, logging: library wrappers around the engine.
- ListDeliveries, ListProviders, ListTemplates and the Get methods of the service: read-only paging and access checks.
- Provider and template columns: the columns an update may write are one opaque body; the checks of their content are left out.
- HTTP redirects and connection retries inside net/http: one call is one `http.Client.Do`. The breaker's counting is left out; it rejects, or runs the call once and is told how it ended (a cancelled context, which it does not count, is shown as a failure).
- Wait times of the HTTP retry loop: a wait continues or is cancelled.
- Row locks of statements other than the claim: they last one atomic step.
