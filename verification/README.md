# Verification of the payment simulator's protocol

A Dafny model of `payment-sim`: the API, the transactional outbox, the job queue, the workers and the
database tables they share, together with the pure code (canonical hashing, sanitizing, validation,
risk and decision), the migration runner and the rate limiter. Everything is proved for all inputs
and all interleavings; no statement carries a bound on the number of processes, steps or payments.
`dafny verify dfyconfig.toml` checks the whole project.

## What is proved

* **The lifecycle refines a small specification.** `Protocol` is a state machine over the tables, the
  queue, the worker processes and the outbox senders: 21 kinds of step, each one SQL statement, queue
  transition, crash, stall or clock tick; a run is any sequence of steps. `Lifecycle` holds a ledger in
  which a key is accepted once and decided once with `decide(payload)`; `Runs.RunRefines` shows every run
  of the protocol to be a run of the ledger. `Invariant` has the inductive invariant over all tables.
* **Where it is not safe, exactly when.** Lost payments, updates that reach somebody else's claim and
  events that leave `OUTBOX_FAILED` are possible in the code. `NoLoss.LosesIff`,
  `Runs.OvertakenIsFenced` and `OutboxLedger.LeavesFailedIff` give the exact conditions; `Losses` has
  a concrete run for each.
* **What can still be decided.** `Reach.DecisionReachableIff` says of every reachable state whether a
  payment can still get a final status: the condition is read off the row, the event, the job, the
  batches and the handlers, and where it fails the payment is stuck for ever.
* **End to end.** `EndToEnd` runs the protocol with the real sanitizer, the real decision and JSONB
  columns: whatever crashes, stalls and retries happen, a decided row shows what the raw body, PIN
  included, called for; and a retried key is a duplicate exactly when the bodies are equal up to member
  order. `Samples` takes a concrete purchase the whole way.
* **Hashing.** `JsonReading` reads JSON by the grammar of RFC 8259, without reference to the printer;
  `RequestHash.CanonicalReads` shows that it gives back the sorted value from the canonical text, and
  `CanonicalizeIff` that equal texts mean equal requests. Where the grammar leaves a choice, the text is
  pinned too: numerals (`NumberSyntax.NumberTextIff`), escapes (`JsonText.EscapeIff`), the order of
  members (`MemberOrder.EnumeratedReorders`, `RequestHash.SortValueSorted`), and no white space.
* **Amounts.** `Amounts` fixes what a number amounts to by the numeral it is printed as, and shows
  different numbers to amount to different values.
* **Attempts.** `Attempts` relates the retry_count column to the queue's own count, says exactly when they
  part, and bounds the timeline by the number of claims.
* **Timing.** `Heartbeat` computes the longest gap between renewals, and shows the claim to be safe if
  and only if the lease covers it; `HeartbeatRuns` puts that heartbeat into the protocol and shows the same
  for its runs.
* **Concurrency of the outbox processors** with explicit row locks (`OutboxClaims`): every run with locks
  over sanitized payloads is matched by a run of the protocol, where a claim is one atomic step
  (`ClaimRefinement`); **outbox accounting** (`OutboxLedger`); **migrations** interrupted anywhere
  (`Migrate`); **rate limiting** over all arrival histories (`RateLimiter`).

The functions of `Tables` say what each SQL statement does to a row, and `Columns` declares it column by
column, apart from them. `Store.Database` is the imperative form of store/store.js, with both as its
contracts.
`Handlers` is the imperative form of the worker, cut at its awaits, and `Processes` that of the outbox
processor, cut into the start of a pass, its events one by one, and its end (a start and an event hold two
awaits each, which `Protocol` separates); each piece is proved to have the effect of its protocol steps in
any state the other processes have left.
`Protocol` then lets the steps of all processes interleave.

## Failure model

A worker-side SQL statement takes effect and returns, or is not part of the run; a job handler throws
only for a processor failure. The queue's failed callback runs together with the queue's own transition
as far as its retry reset or its dead-letter save; the status write that follows the dead-letter save is
a step of its own. A job is never failed for stalling. Workers may crash or stall anywhere, a stalled
worker goes on as a zombie, outbox senders may crash anywhere, an enqueue may fail with or without effect,
and a completion update may fail. Every worker process has its own id and handles one job at a time. The
queue ignores an id it already has, removes completed jobs and keeps failed ones.

## Reading notes

* Strings are sequences of UTF-16 code units; an object is its members in creation order; a number is the
  sign, digits and decimal point that Number::toString uses (sections 6.1.6.1.20, 10.1.11.1 and 25.5.2 of
  ECMA-262).
* `Sensitive.Host` stands for String(v), Number(v) and the keyed digest of the card number.
* `CLAIMED` in `Tables.EventStatus` is the outbox status text PROCESSING.
* `Protocol.World.starts` and the epochs in handlers count claims; nothing reads them. `base` and `failed`
  in `Heartbeat.Beat` are history too.
* The repository's README.md says that recovery resets abandoned transactions (line 71). The code
  resets the row and does not queue it again (store/store.js:314-321), so such a payment can stay
  ACCEPTED for ever: `Losses.RecoveredLeaseLoses`.
* The repository's README.md says that finalized transactions are not reprocessed (line 69). The final
  status is indeed kept, but a claim is not protected from the failed callback of an earlier claimant
  (store/store.js:177-195): `Losses.ResetReachesAnotherClaim`, `Losses.FailureReachesAnotherClaim`.

## Model

| member | source | states |
|---|---|---|
| EndToEnd.PaymentOutcome | app.js:128-224 | In every run, with any crashes, stalls, retries and duplicate deliveries, the payment of a submitted body is filed under its header's key, its fresh id and its own hash; once decided, its row shows the decision the raw body (PIN included) calls for |
| EndToEnd.RetriedKey | store/store.js:73-121 | A save under a used key, any history later, gets the first transaction's id: as a duplicate exactly when the bodies behind the two hashes are equal up to member order and `__proto__` members, else as a conflict |
| EndToEnd.RetriedPayment | app.js:140-218 | The same for any two bodies that /pay hashed and submitted under one key |
| EndToEnd.StoredDecides | app.js:170-203 | The record read back from JSONB and sanitized again by any later process decides as the raw body calls for |
| EndToEnd.PaymentReachableIff | jobs/transactionJobHandler.js:32-212 | In every reachable state such a payment's row can still be brought to that decision if and only if CanDecide holds |
| EndToEnd.SubmittedRow | store/store.js:34-128 | A request that inserts keeps its row, key, hash and sanitized payload in every continuation |
| EndToEnd.FiledUnderHeader | app.js:140-181 | A submitted body without id, idempotencyKey and requestHash is filed under the fresh id, the header's key and its own hash |
| EndToEnd.DeployedOk | utils/sensitiveData.js:64-89 | Sanitize-then-store is idempotent, which the protocol needs of its payloads |
| EndToEnd.Api.PostPay | app.js:128-233 | The handler hashes the body, leaves the tables as the one Pay step of its record, or as they were, and answers 400, 403, 202, 200, 409 or 500 accordingly |
| Runs.RunRefines | store/store.js:34-341 | Every run of the protocol is a run of the ledger: accept a fresh key once, decide once with decide(payload), or nothing |
| Lifecycle.StepRefines | jobs/transactionJobHandler.js:32-212 | One step of any process is at most one step of the ledger |
| Lifecycle.StepEvolves | jobs/transactionJobHandler.js:36-84 | How one transaction's row, payload, job and dead letter may change in one step: key, hash and payload never, a final row never, a failed one's job and dead letter never |
| Invariant.StepKeeps | jobs/transactionWorker.js:26-66 | Every step of every process keeps the invariant over tables, queue, handlers and batches |
| Invariant.RunKeeps | jobs/transactionWorker.js:26-66 | The invariant holds after every run |
| Runs.ReachableRow | store/store.js:215-300 | PROCESSING iff the four lease columns are set, start <= heartbeat <= now, lease = heartbeat + length; the timeline is in the lifecycle language; route, reason and result are those of the decision; retries within the limit |
| Runs.DecidedForever | jobs/transactionJobHandler.js:42-49 | A final row carries its payload's decision and never changes in any continuation |
| Runs.KeyForever | store/store.js:34-121 | A key stays with its transaction, hash and payload for ever, and no other row has it |
| Runs.FinalizeIffCurrent | store/store.js:264-300 | A finalize takes effect iff the row is PROCESSING in the epoch its worker opened; then the row's timeline is the worker's local copy |
| Runs.OvertakenIsFenced | store/store.js:177-195 | A worker whose claim was retaken leaves the row as it is, but for the two unguarded updates of the failed callback (retry reset, FAILED after the dead letter); somebody's current claim changes if and only if its step is one of these |
| Runs.ClaimEndsIff | store/store.js:264-328 | In any run a claim ends exactly by its own finalize, by recovery of its expired lease, or by an unguarded update of the failed callback |
| Runs.OnlyFailuresAreReset | jobs/transactionWorker.js:37-60 | The failed callback only ever updates payments whose decision is a failure |
| Runs.AtMostOneFinalize | store/store.js:264-300 | At most one finalize ever takes effect on a transaction; the count is one exactly when a worker settled it |
| Runs.FailedHasDeadLetter | jobs/transactionWorker.js:50-60 | A FAILED row has a dead letter with all attempts made and the decision's reason, and a failed job that blocks re-adding |
| Runs.DeadLetterFirst | jobs/transactionWorker.js:50-60 | When a step turns a row FAILED, its dead letter was already saved before that step |
| Idempotency.EveryAnswerDeclared | store/store.js:73-121 | Every save in every history answers as the earlier requests alone determine: first use inserts, same hash gives the first id, another hash a conflict |
| Idempotency.HistoryKept | store/store.js:34-121 | The unique index lists for each key the first request that used it |
| Idempotency.OneEventEach | store/store.js:112-114 | Every transaction has exactly one outbox event and every event its transaction |
| Idempotency.RowsComeFromRequests | store/store.js:34-128 | No row exists without a request that used its id |
| NoLoss.NothingLost | outbox/outboxProcessor.js:118-173 | While no active job stalls, no lease is taken back and no worker dies between dead letter and FAILED, whatever else crashes, an accepted transaction is final, or has a job that can still be worked on or marked, or has no job yet and an unsent event |
| NoLoss.LosesIff | jobs/transactionJobHandler.js:42-84 | In any run a step loses a payment iff a skipping handler's return drops the job of a sent event, or an event is marked sent after its job is gone, or the last worker about to write FAILED dies |
| NoLoss.CalmAlways | outbox/outboxProcessor.js:122-171 | In the runs of NothingLost a busy handler holds its job, a failed job has its marker, and a sent event has a carrier |
| Reach.DecisionReachableIff | outbox/outboxProcessor.js:16-51 | In every reachable state a final status can still be reached, by any continuation at all, if and only if CanDecide holds of the row, the event, the job, the batches and the handlers; otherwise the payment is stuck for ever |
| Reach.CalmCanBeDecided | outbox/outboxProcessor.js:25-37 | In the runs of NothingLost every accepted payment can still be decided, unless the outbox gave up on its event |
| Progress.WaitingCanBeDecided | jobs/transactionWorker.js:34-60 | A waiting job of an accepted row can be carried to a final status, through all the retries it has left |
| Losses.RecoveredLeaseLoses | store/store.js:302-341 | A run with no stall and no crash in which lease recovery leaves a payment with no carrier; no continuation decides it |
| Losses.StalledJobLoses | jobs/transactionJobHandler.js:51-58 | A run without lease recovery in which a stalled job is dropped and the claimant dies; no continuation decides the payment |
| Losses.AbandonedFailureLoses | jobs/transactionWorker.js:50-60 | A run without stall and lease recovery in which a worker dies between its dead letter and the FAILED status; no continuation decides the payment |
| Losses.ResetReachesAnotherClaim | jobs/transactionWorker.js:37-48 | A run in which the failed callback of an overtaken worker resets another worker's claim |
| Losses.FailureReachesAnotherClaim | jobs/transactionWorker.js:50-60 | A run in which the status write of an overtaken worker puts FAILED over another worker's claim |
| Losses.LateMarkUndoesFailure | outbox/outboxProcessor.js:139-150 | For every recovery limit, a run in which a late completion takes an event out of OUTBOX_FAILED |
| Losses.FreshJobForgets | jobs/transactionWorker.js:37-45 | A run in which a payment that failed once is queued afresh: the row counts one attempt, the queue none |
| Attempts.HeardFailure | jobs/transactionWorker.js:34-51 | A failure the queue hears counts one attempt; before the third the row is accepted again with the queue's count and the decision's reason, the third leaves a dead letter |
| Attempts.AgreesIff | jobs/transactionWorker.js:37-45 | In any run, retry_count and the live job's attemptsMade part exactly when a payment with failed attempts behind it is queued again after its job was dropped |
| Attempts.CalmCounts | jobs/transactionWorker.js:37-45 | In the runs of NothingLost they agree for every undecided row: none without a job, as many as the live job's, one less than the failed job's |
| Attempts.TimelinesAreShort | jobs/transactionJobHandler.js:60-74 | A row has at most as many PROCESSING entries as it had claims, not counting the second one of a completion |
| OutboxLedger.BooksAlways | outbox/outboxProcessor.js:93-168 | attempts + in-flight <= claim_count <= attempts + recovery_count + (1 if claimed), and OUTBOX_FAILED implies recovery_count >= limit, for any number of processors and crashes |
| OutboxLedger.SingleAlways | outbox/outboxProcessor.js:16-51 | With one live processor claim_count is exact, recovery_count never passes the limit, and equals it exactly for OUTBOX_FAILED events |
| OutboxLedger.LeavesFailedIff | outbox/outboxProcessor.js:139-168 | An event leaves OUTBOX_FAILED iff a processor that still has it marks it |
| OutboxLedger.FailedStays | outbox/outboxProcessor.js:25-37 | With one live processor OUTBOX_FAILED is never left |
| OutboxLedger.EventBecomes | outbox/outboxProcessor.js:25-37 | What any step of any process makes of an event, column by column: marked, claimed, taken back after the timeout, or left alone |
| OutboxLedger.RecoveryIff | outbox/outboxProcessor.js:21-43 | Recovery takes a claim back if and only if it is older than the timeout |
| OutboxLedger.FreshClaimStays | outbox/outboxProcessor.js:21-43 | In every run, until the timeout has passed a claimed event stays as it is unless a process that has it marks it |
| OutboxClaims.ClaimsDisjoint | outbox/outboxProcessor.js:76-89 | Under any interleaving of select, update, commit, marks, recoveries and crashes, claims under way are pairwise disjoint, ascending and within their limits |
| OutboxClaims.ClaimIsLowest | outbox/outboxProcessor.js:78-89 | A claim takes exactly the lowest-id pending rows that nobody has locked, of the given transactions if any are given, up to the limit |
| OutboxClaims.LowestFewUnique | outbox/outboxProcessor.js:84-86 | Order and limit determine the claim |
| OutboxClaims.ClaimsSplit | outbox/outboxProcessor.js:84-86 | Two concurrent claims together take what one claim with the summed limit would |
| OutboxClaims.CommitClaims | outbox/outboxProcessor.js:91-109 | At commit each returned event was pending until then, is as the select read it, becomes PROCESSING under its claimer, and no other row changes |
| OutboxClaims.NotTwiceUnlessGivenBack | outbox/outboxProcessor.js:75-109 | No event is returned twice, by one processor or two, unless a step in between gave this event back: its processor marked it pending, or recovery took it back stale with a retry left |
| OutboxClaims.PendingIffGivenBack | outbox/outboxProcessor.js:16-51 | An event that is not pending becomes pending exactly by such a step: a mark by its processor, or recovery after the timeout with a retry left |
| ClaimRefinement.LocksRefineProtocol | outbox/outboxProcessor.js:68-173 | For every configuration: every run with row locks over sanitized payloads, with separate select, update and commit, is a run of the protocol with atomic claims: same events and same batches after every step |
| EndToEnd.DeployedLocksRefine | store/store.js:8-32 | The same with the real sanitizer and JSONB columns, whatever records were sanitized and stored |
| ClaimRefinement.LocksKeepBooks | outbox/outboxProcessor.js:93-168 | In every such run with row locks the outbox accounting holds of every row |
| ClaimRefinement.CommitIsClaim | outbox/outboxProcessor.js:91-109 | A commit is the protocol's claim step: same rows, same batch |
| Heartbeat.SafeIffLeaseCoversGap | jobs/transactionJobHandler.js:91-116 | Recovery takes the claim in no run free of failed-callback updates if and only if the lease is at least the longest gap between renewals |
| Heartbeat.ClaimIsKept | jobs/transactionJobHandler.js:91-116 | With such a lease, in every such run, whatever recovery and other workers do, the claim stays, renewals are within the gap, and finalize succeeds |
| Heartbeat.ClaimKeptIff | jobs/transactionWorker.js:37-45 | With such a lease the claim is lost exactly in the runs in which a failed callback updates the row (for payments whose decision is no failure, none does: Runs.OnlyFailuresAreReset) |
| Heartbeat.ShortLeaseIsLost | store/store.js:302-328 | With a shorter lease there is a run in which recovery takes the claim |
| Heartbeat.GapAtMost | jobs/transactionJobHandler.js:91-116 | The exact gap is at most (f + 1)(H + D) + D |
| Heartbeat.SimpleBoundIsEnough | jobs/transactionJobHandler.js:16-19 | A lease of (f + 1)(H + D) + D is enough |
| HeartbeatRuns.ClaimSafeIff | jobs/transactionJobHandler.js:91-116 | In the protocol, with the heartbeat's timer and queries among its steps: the claim of a payment that is not to fail is kept in every run, until its handler ends, if and only if the lease is at least the longest gap |
| HeartbeatRuns.HeartbeatKeepsClaim | store/store.js:246-300 | With such a lease, in every such run, renewals are within the gap and the finalize decides the row |
| Outcome.OutcomePreserved | jobs/transactionJobHandler.js:130-189 | For every accepted request the decision on the sanitized record, sanitized again by any process, is the decision table on the raw body; bad amount, unsupported route and unsupported network never occur |
| Outcome.OutcomeIff | systems/internal.js:4-42 | On the stored record: FAILED iff the amount is the number 999, digits and all; else DECLINED iff internal, no balance inquiry, and wrong PIN or (no reversal and above the balance), with that reason and no other |
| Outcome.AnyRecord | jobs/transactionJobHandler.js:130-178 | What is decided about any record, accepted or not: bad amounts, the 999 failure, both card systems, unsupported routes |
| Outcome.AnyInternalRecord | systems/internal.js:4-42 | What the internal systems answer to any record |
| Outcome.RecordIdentity | app.js:176-181 | The record keeps the header's key, the fresh id and the hash iff the body, spread after them, does not say otherwise |
| Outcome.RecordFields | app.js:172-194 | Type, issuer, network and amount in the record are the body's, pinVerified is the PIN test |
| Outcome.RecordStart | app.js:183-196 | Whatever the body says, the record starts ACCEPTED, with no retries, at the request's time, with one timeline entry |
| Outcome.RecordRest | app.js:176-197 | Every other property of the body is in the record, cleaned |
| Admission.PayIff | app.js:133-168 | The exact conditions on key and raw body under which /pay refuses, rejects, holds or submits; a refusal names the first condition that fails |
| Admission.RefusalIff | validation/validator.js:3-52 | Validation refuses iff one of its ten conditions fails, and names the first; for absent fields exactly those, in order |
| Amounts.ValueOfText | validation/validator.js:22-31 | The printed numeral of any number, its whole, fraction, power and sign, says what the number amounts to |
| Amounts.ValueOfNat | validation/validator.js:22-31 | A number printed as the decimal text of n amounts to n |
| Amounts.PointMoves | validation/validator.js:22-31 | Moving the point by one multiplies the amount by ten |
| Amounts.ValueInjective | processor/processor.js:13-15 | Different numbers amount to different values |
| Amounts.NineHundredNinetyNine | processor/processor.js:13-15 | A number amounts to 999 iff it is 999 |
| Admission.ValidIff | validation/validator.js:3-62 | A body passes validation iff the declarative conditions on its fields hold, whatever order they are checked in |
| Samples.PurchaseCompletes | jobs/transactionJobHandler.js:191-211 | A concrete purchase is submitted, filed and, carried through outbox, queue and worker, completes over the card network |
| Outcome.DecideOnFields | processor/processor.js:1-18 | The decision depends on five properties only, whatever the rest and the order |
| Outcome.ValidFields | validation/validator.js:54-61 | A validated transaction is the body with the numeric amount |
| Sensitive.RemoveSensitiveFields | utils/sensitiveData.js:42-62 | The loop computes the recursive removal |
| Sensitive.RemovedAt | utils/sensitiveData.js:42-62 | At every path: nothing if it passes a pin, card-number or `__proto__` key, else what was there, cleaned |
| Sensitive.SanitizedAt | utils/sensitiveData.js:64-89 | The same through the whole payload, but for the derived card fields |
| Sensitive.SanitizedProperty | utils/sensitiveData.js:64-81 | Every property of a sanitized object; the derived ones are the last four digits of the card number, or all if there are fewer, and its fingerprint |
| Sensitive.CardDigitsOf | utils/sensitiveData.js:21-40 | The card number is cardNumber, or card_number if that is falsy; its digits are those of its text |
| Sensitive.KeepDigitsJoin | utils/sensitiveData.js:21-23 | The digits of a text are those of its parts, one after the other |
| Sensitive.SanitizeCleans | utils/sensitiveData.js:83-89 | No sensitive key remains at any depth |
| Sensitive.SanitizeIdempotent | utils/sensitiveData.js:83-89 | A second pass, even with another secret, changes nothing |
| RequestHash.CanonicalizeIff | utils/requestHash.js:20-22 | Two values have the same canonical text iff their meanings are equal, fields named `__proto__` left out at every depth |
| RequestHash.PlainRequests | utils/requestHash.js:20-22 | For values without `__proto__` members that is equality up to member order |
| RequestHash.ProtoGoesUnseen | utils/requestHash.js:9-14 | A value with a `__proto__` member and one without can have the same canonical text |
| RequestHash.RequestHashIff | utils/requestHash.js:24-26 | With an injective digest, equal hashes iff equal in that sense |
| RequestHash.SortValueMeans | utils/requestHash.js:3-18 | Sorting keeps the value, but for `__proto__` members |
| RequestHash.SortValueCanonical | utils/requestHash.js:3-18 | Values equal in that sense sort to the identical value |
| RequestHash.SortValueIdempotent | utils/requestHash.js:3-18 | Sorting twice is sorting once |
| RequestHash.SortValueSorted | utils/requestHash.js:8-14 | The members of the sorted value ascend strictly by code unit, a prefix first, in every object at any depth |
| RequestHash.CanonicalReads | utils/requestHash.js:20-22 | Read by the grammar of RFC 8259, the canonical text is the sorted value, with array indices first where V8 puts them |
| RequestHash.StringifyReads | utils/requestHash.js:20-22 | Read by that grammar, the text of any value is the value with its members in own-key order |
| RequestHash.StringifyMeans | utils/requestHash.js:20-22 | JSON.stringify loses nothing but member order |
| KeyOrder.KeyBeforeIff | utils/requestHash.js:9-10 | The sort's order: a prefix first, else by the first code unit that differs |
| JsonText.ReadsBack | utils/requestHash.js:20-22 | The text of a value reads back as the value whatever legal text follows |
| JsonText.EscapeIff | utils/requestHash.js:20-22 | A code unit is printed as itself, or in a two-character escape, or with four lower-case hex digits: the one shortest form that reads back as it, lone surrogates escaped |
| JsonText.QuoteSum | utils/requestHash.js:20-22 | The text of a string is that of its parts, one after the other, unless a surrogate pair is torn |
| JsonText.TextUnique | utils/requestHash.js:20-22 | JSON text is unambiguous: equal texts, with any continuations, come from equal values |
| NumberSyntax.RoundTrip | utils/requestHash.js:20-22 | The text of a number reads back as the number, in all of Number::toString's notations |
| NumberSyntax.NumberTextIff | utils/requestHash.js:20-22 | It is the one numeral without superfluous digits that stands for the number, with a signed power of ten exactly outside 10^-6 <= n < 10^21 |
| MemberOrder.EnumeratedMeans | utils/requestHash.js:9-14 | Own-key order keeps the value |
| MemberOrder.EnumeratedReorders | utils/requestHash.js:9-14 | Own-key order: array indices first, by number, then the other keys as created, at every depth |
| MemberOrder.ArrayIndexIff | utils/requestHash.js:9-14 | Array indices are the decimal texts of the numbers below 2^32 - 1 |
| Migrate.CrashesDoNotMatter | db/migrate.js:33-61 | Any number of runs stopped anywhere, over lists that keep what is recorded, then an uninterrupted run: same schema, records and outcome as one clean run |
| Migrate.RecordsArePrefix | db/migrate.js:33-61 | After every history the recorded versions are exactly a prefix of the list, and the schema is that prefix applied |
| Migrate.RunExtends | db/migrate.js:33-61 | Any run, stopped anywhere, takes a prefix of the list to a longer prefix; it stops early only at a raising file or for lack of statements |
| Migrate.AppliesNothingIff | db/migrate.js:41-46 | An uninterrupted run applies nothing iff the first file not recorded as it stands was modified, raises, or does not exist |
| Migrate.ModifiedAppliesNothing | db/migrate.js:41-46 | With a recorded file changed, every run applies nothing and ends in the error unless interrupted first |
| Migrate.GrowingIsHistory | db/migrate.js:9-14 | Lists that only grow at their end keep what is recorded |
| Migrate.ListedGrows | db/migrate.js:9-14 | Adding files that sort last extends the listing at its end |
| Migrate.ListedOk | db/migrate.js:9-14 | The listing holds exactly the directory's migrations, strictly ascending by code unit |
| Migrate.PassesIff | db/migrate.js:12-12 | The filter, from left to right, passes exactly the names of the pattern |
| Migrate.Runner.Migrate | db/migrate.js:20-66 | The loop with its transactions, stopped after any statement, is the specified run |
| RateLimiter.AtMostTwiceTheLimit | middleware/rateLimiter.js:44-65 | Any closed interval of one window length admits at most twice the limit |
| RateLimiter.TwiceTheLimitIsReached | middleware/rateLimiter.js:44-65 | That bound is reached |
| RateLimiter.WindowAdmitsFirst | middleware/rateLimiter.js:63-65 | An arrival is admitted iff fewer than the limit came before it in its window |
| RateLimiter.CountIsPlace | middleware/rateLimiter.js:46-52 | The count is the arrival's place in its window, and the key expires with the window |
| RateLimiter.ClientsIndependent | middleware/rateLimiter.js:45-45 | A client's counter depends on its own arrivals alone |
| RateLimiter.EveryKeyExpires | middleware/rateLimiter.js:47-50 | No counter key is ever without an expiry |
| RateLimiter.Limiter.Eval | middleware/rateLimiter.js:46-52 | The script's effect on the keys, its count and its time to live |
| RateLimiter.Limiter.Handle | middleware/rateLimiter.js:55-68 | Admission, remaining count and reset seconds from the new counter |
| Store.Database.SaveTransactionWithOutbox | store/store.js:34-128 | A used key inserts nothing and is a conflict iff the hashes differ; a used id raises; else both rows appear, column by column |
| Store.Database.InsertOutboxEvent | store/store.js:8-32 | A pending event, unless the transaction has one |
| Store.Database.SaveDeadLetterJob | store/store.js:130-163 | Insert or overwrite by job id |
| Store.Database.UpdateTransaction | store/store.js:177-213 | The update of one row without a guard: which columns change, COALESCE, and the lease if asked |
| Store.Database.StartTransactionProcessing | store/store.js:215-244 | The claim: only from ACCEPTED, a fresh lease for the claimant, outcome columns kept |
| Store.Database.RenewTransactionProcessingLease | store/store.js:246-262 | The renewal: only for the claimant of a row in processing; heartbeat and lease move, nothing else |
| Store.Database.FinalizeTransactionProcessing | store/store.js:264-300 | The compare-and-set finalize: only for the claimant of a row in processing; the lease is gone afterwards |
| Store.Database.RecoverStaleProcessingTransactions | store/store.js:302-341 | Exactly the rows whose lease, or without one whose start plus timeout, has passed are taken back, and their claimants returned; other rows and columns stay |
| Store.Database.RecoverStaleOutboxEvents | outbox/outboxProcessor.js:11-51 | Exactly the claims older than the timeout are taken back, or failed at the limit; other events and columns stay |
| Store.Database.SelectPending | outbox/outboxProcessor.js:78-89 | The oldest pending events up to the limit |
| Store.FirstPendingOk | outbox/outboxProcessor.js:78-89 | These are the beginning of all pending events in serial order, cut only at the limit |
| Processes.NothingLeft | outbox/outboxProcessor.js:118-120 | A pass claims ten events, or leaves none pending |
| Store.Database.SetProcessing | outbox/outboxProcessor.js:93-106 | The listed events, and only they, become claimed now by p, one claim more; other columns stay |
| Store.Database.ClaimOutboxEvents | outbox/outboxProcessor.js:68-116 | Select and update together |
| Processes.HandledEffect | outbox/outboxProcessor.js:122-171 | The protocol steps of one event have the effect of enqueue and mark |
| Processes.OutboxProcessor.Fire | outbox/outboxProcessor.js:175-185 | A tick starts a pass, with the protocol's recovery and claim, iff none is running; the flag guarantees the empty batch the protocol's guards ask for |
| Processes.OutboxProcessor.Advance | outbox/outboxProcessor.js:122-171 | The next event of a pass, in any state others have left: its protocol steps for any replies of queue and database |
| Processes.OutboxProcessor.Finish | outbox/outboxProcessor.js:187-191 | The end of a pass, normal or by a throw, leaves no batch |
| Processes.OutboxProcessor.Callback | outbox/outboxProcessor.js:118-193 | The whole callback, completed or broken off, is its sequence of protocol steps, or nothing while a pass is running |
| Handlers.Worker.Look | jobs/transactionJobHandler.js:33-67 | Up to the reply of the first read: not found, skipped or going on, as the protocol's Read step |
| Handlers.Worker.Claim | jobs/transactionJobHandler.js:69-84 | The claim in any state others have left: won or lost, as the protocol's Start step |
| Handlers.Worker.ProcessClaimedTransaction | jobs/transactionJobHandler.js:130-212 | Throws iff the decision is a failure; else done iff the claim is still held, with the outcome's columns and timeline, lost otherwise; as the protocol's Finalize step |
| Handlers.Worker.OnFailed | jobs/transactionWorker.js:26-51 | Before the third attempt the row is accepted again with the attempts made and the reason, at it the dead letter is saved; as the protocol's Throw step, whosever claim the row is |
| Handlers.Worker.MarkTransactionFailed | jobs/transactionWorker.js:53-60 | The FAILED status with attempts and reason after the dead letter, whatever the row is by then, as the protocol's MarkFailed step |
| Handlers.Worker.HandleTransactionJob | jobs/transactionJobHandler.js:32-128 | The whole handler, with any steps of others at its awaits, is its protocol steps among theirs, with every way it can end |

## Left out

- Replies of committed statements that are lost, and arbitrary exceptions inside the job handler: outside the failure model above. With them the unguarded `updateTransaction` could overwrite a final status.
- Protocol.ApplyMarkFailed: the failed callback is not awaited by the queue's worker, so a process may take its next job before the FAILED status is written; in the model a worker writes it first.
- EndToEnd.DeployedLocksRefine: the SELECT's limit is at most the ten of processOutboxEvents.
- Stall-limit failures of the queue, and the internals of BullMQ, Redis and PostgreSQL: only atomic statements, row locks, key expiry and the queue options named above are modelled. Whether a Redis key still exists at its very expiry instant is a parameter, and the limiter's results hold for both readings, except the example that reaches the bound.
- A SELECT .. FOR UPDATE that re-reads a row changed between its snapshot and its lock: `OutboxClaims` takes the whole SELECT as one step.
- Invariant.StepKeeps: a timeline keeps the status of each entry, not its timestamp and message; metadata columns that nothing reads back (correlation id, amount, channel, accounts, updated_at) are not modelled.
- Protocol.ApplyClaimOutbox: outbox rows go by transaction id, which is unique; the serial id and its order are in `OutboxClaims` and `Store`, and `ClaimRefinement.LocksRefineProtocol` connects them. The optional list of eligible transactions is only in `OutboxClaims`.
- Processes.OutboxProcessor.Callback: one pass at one clock value with nobody in between; its pieces `Fire`, `Advance` and `Finish` are proved for any state, and time and others are in `Protocol`.
- EndToEnd.PaymentOutcome: for bodies without id, idempotencyKey and requestHash; `Outcome.RecordIdentity` says exactly what happens otherwise.
- EndToEnd.Api.PostPay: an id, idempotencyKey or requestHash in the body that is not a string is filed as an empty text, where the database driver would convert it; the results ask for bodies without these members.
- EndToEnd.RetriedKey: takes the hash to be injective; SHA-256 itself is not modelled.
- RequestHash.CanonicalizeIff: negative zero is the number zero; what an object inherits from a prototype set by a `__proto__` member is not modelled, as stored and hashed text holds own members only.
- Payments.Validate: a numeric string that Number reads as an infinity is not told from one that is not a number; both are refused alike.
- Migrate.Runner.Migrate: the advisory lock is taken to keep runs apart, SQL that ends its own transaction is excluded, and creation of schema_migrations is part of the initial state.
- Card fingerprint keys, `sanitizeText`, `maskSensitiveData` and the regular expressions in them: the digest is an arbitrary function and error texts are kept as they are.
- API keys, client ownership, CORS, status and dead-letter reads, health checks, metrics, logging: short checks or reporting without hard properties.
- Process entry points, timers other than the heartbeat and the outbox guard, shutdown, `queue/queue.js` and `generateSettlement.js`: plumbing, or not on the payment path.
