# TokenBank in Dafny

TokenBank's control plane hands out work to workers under leases, fences late results by attempt number,
writes an event for every change in the same transaction, and keeps an audit ledger on top. Around it sit a
worker with a crash spool, a verifier, a route scorer and a capacity projection. This project models those
parts and proves what they promise over every input and every run. Where the scheduler or the ledger reads
before its transaction opens, read and commit are also separate steps and the interleavings are covered.

`dafny verify dfyconfig.toml` checks the whole project.

## How the model is laid out

| file | contents |
|---|---|
| `Common.dfy` | identifiers, JSON values, hashes as free constructors, the gateway constants |
| `TimeText.dfy` | UTC timestamps as text: when text order is time order |
| `Scheduler.dfy` | the database as a value, every scheduler operation as a function on it, runs |
| `Integrity.dfy` | what every step keeps and what it may change |
| `Refusals.dfy` | exactly when each operation goes through, and with which error it is refused otherwise |
| `EventSourcing.dfy`, `Leases.dfy`, `Fencing.dfy`, `Sweeping.dfy` | the run-level theorems about the scheduler |
| `FirstLease.dfy` | the shortest history that leads to a lease, from which witnesses start |
| `StaleReads.dfy` | accept, progress, submit, create_attempt and the sweep split into a read and a later commit, all interleavings |
| `StaleSweeps.dfy` | when a sweep expires what is no expired lease any more |
| `StaleResults.dfy` | where stored results and tokens come from in every interleaving |
| `Outbox.dfy` | the event outbox and its flush, as a protocol and as a class |
| `ControlPlane.dfy` | the scheduler as a class with tables updated in place, proved against `Scheduler.dfy` |
| `Worker.dfy`, `Daemon.dfy` | worker and spool against the control plane, as a protocol and as classes |
| `Verifier.dfy` | envelopes, their two hash computations, the checks and the recommendation |
| `Verdicts.dfy` | the verdict in terms of the result's faults, without checks |
| `Ledger.dfy`, `Contexts.dfy`, `Receipts.dfy`, `LedgerStore.dfy` | usage ledger and audit receipts: operations, what they read and make said over rows, what each call keeps, repositories |
| `LedgerRuns.dfy`, `LedgerSplits.dfy`, `Provenance.dfy`, `LedgerWitnesses.dfy` | runs of scheduler and ledger with reads and commits apart, how they relate to whole calls, what stands behind every receipt, two runs worth knowing |
| `Scoring.dfy`, `Ranking.dfy` | rounding, weights, totals, hard filters, ranks and selection |
| `Routing.dfy` | route plan guardrails, normalisation, re-validation |
| `Capacity.dfy` | the capacity node projection |

An operation commits a new database or fails and leaves it alone. Ids and tokens are parameters, so a
repeated id is an integrity failure and not excluded. Clocks, the network and file errors are parameters
too. SHA-256 over canonical JSON is injective: a hash is the value that was hashed.

Where the code and a plausible reading of it part ways, the model follows the code and says when they agree:

- The text order of timestamps is not the time order inside one second when exactly one of the two has no
  microseconds (`TimeText.TextOrderIsTimeOrder`), so a sweep can be early or late by less than a second.
- An accept that does not expect version 0 can take over a lease issued in between (`StaleReads.TakeoverIffNonZero`).
- A submit reads lateness before its transaction and create_attempt its number, so a late attempt can succeed and two
  attempts can share a number, each exactly when such an attempt was created in between (`StaleReads.FenceBreaksExactly`,
  `StaleReads.NumberRepeatsExactly`). A result stored like that can get a receipt (`Provenance.ReceiptProvenance`,
  `LedgerWitnesses.LateReceiptReached`).
- The sweeper expires what it selected without looking again, so it expires an assignment that is no expired lease any
  more exactly when its last event in between is a rejection, expiry, completion or quarantine, or its lease was renewed
  to the sweep's time or later (`StaleSweeps.StaleSweepExactly`).
- A crash between appending a line and marking its row leaves one extra line (`Outbox.FlushOrder`).
- An output is lost exactly when a crash, a progress call that fails after execution, or a submit that is not stored and
  gets no answer takes its only copy (`Worker.KeptIffNotDropped`). The worker spools on ControlPlaneRequestError alone
  (worker/daemon.py:120), which its client raises only for an answer with status 400 or above (worker/poller.py:94-104);
  a refused connection or a timeout is not caught.
- A recipe id outside the five fails a check that no recommendation branch looks at, so its outputs are accepted
  unexamined (`Verifier.AcceptedMeansSound`, `Verifier.UnknownRecipeAccepted`). That needs a recipe file with such an id
  (verifier/recipes.py:31-33). The other overlooked check, on empty ids, cannot fail for an envelope the data model accepts.
- A late envelope is stored as quarantined under its old result hash (`Envelopes.LateRewriteBreaksHash`).
- A usage entry, named by the caller or found as the latest, is compared neither with the work unit nor with the
  result (`Receipts.UsageBelongs`).
- Rebuilding the capacity table from unchanged manifests is not a no-op: every node carries the clock
  (`Capacity.RebuildLater`).
- A backend manifest that claims a worker's node id overwrites that worker's row (`Capacity.WorkerRowSurvives`),
  and the registry accepts such a manifest (`Capacity.WorkerRowOverwritten`).
- When candidate ids repeat, every position of the scoring report shows the last ranked trace of its id
  (`Ranking.ShownIsLast`).

## Model

| member | source | states |
|---|---|---|
| `TimeText.UtcTextOrder` | src/tokenbank/scheduler/lease.py:20-41 | exactly how two rendered UTC times compare as text, for all valid date-times |
| `TimeText.TextOrderIsTimeOrder` | src/tokenbank/scheduler/lease.py:20-41 | text order is time order if and only if the times do not share a second with exactly one zero fraction |
| `Integrity.StepKeeps` | src/tokenbank/scheduler/scheduler.py:36-676 | every step keeps references and lease columns consistent; owners, issued tokens, attempt numbers, results and log entries never change |
| `Integrity.RunKeeps` | src/tokenbank/scheduler/scheduler.py:36-676 | the same over every run, so what was true of a row's owner and token stays true |
| `Refusals.CommitsExactly` | src/tokenbank/scheduler/scheduler.py:36-665 | in every database whose references resolve, each operation commits if and only if what it asks for holds, said over the rows, and fails with exactly that error otherwise; a whole accept goes through only at version 0 |
| `Refusals.RunCommitsExactly` | src/tokenbank/scheduler/scheduler.py:36-665 | the same condition after every run |
| `EventSourcing.LogRebuildsStatuses` | src/tokenbank/scheduler/scheduler.py:57-652 | in every reachable state, replaying the log by event type gives exactly the status of every work unit, attempt and assignment |
| `EventSourcing.RunFaithful` | src/tokenbank/scheduler/lifecycle.py:13-47 | a run from any database whose log is faithful ends in one, failed steps included |
| `EventSourcing.SameLogSameStatuses` | src/tokenbank/db/transactions.py:15-37 | two histories with equal logs agree on every status |
| `Leases.LeaseHistory` | src/tokenbank/scheduler/lease.py:44-108 | lease_version counts the accepted and progress events, versions are 1, 2, ... in order; version 0, no token and no expiry are equivalent; the accept is unique, by the assignment's worker, and precedes every use of the lease |
| `Leases.RunBooked` | src/tokenbank/scheduler/scheduler.py:245-393 | every run keeps that bookkeeping, from any state that has it |
| `Fencing.SubmitFences` | src/tokenbank/scheduler/scheduler.py:427-652 | supporting: a committed submit is quarantined exactly when a newer attempt exists; otherwise it completes the assignment and marks the work unit succeeded; it appends one row, with the envelope's id, output and hashes, or for a bare output the new id, the output's hash and the hash of what the row says |
| `Fencing.BareRowsRecompute` | src/tokenbank/scheduler/scheduler.py:451-484 | whatever happens before and after, both hashes of a row stored by a bare submit recompute from its other columns |
| `Fencing.LateForever` | src/tokenbank/scheduler/scheduler.py:654-665 | once an attempt is late it stays late in every continuation |
| `Fencing.LateSubmitNeverSucceeds` | src/tokenbank/scheduler/scheduler.py:445-460 | no later submit of a late attempt touches a work unit |
| `Fencing.OnlyNewestSucceeds` | src/tokenbank/scheduler/scheduler.py:522-547 | a work unit becomes succeeded only by a submit of its newest attempt under the lease credential |
| `Fencing.FenceHolds` | src/tokenbank/scheduler/scheduler.py:445-665 | in every reachable state the non-quarantined results and the completions of a work unit have non-decreasing attempt numbers, and each such result was announced while no newer attempt had been logged |
| `Fencing.FreshNumberLogged` | src/tokenbank/scheduler/retry_fallback.py:8-17 | a new attempt's number differs from every other of its work unit and is the one logged |
| `StaleReads.OneWinnerPerVersion` | src/tokenbank/scheduler/lease.py:57-108 | in every interleaving of reads and commits each (assignment, version) has one winner and the versions are 1..lease_version in order; the log still rebuilds every status |
| `StaleReads.AtMostOneAccept` | src/tokenbank/scheduler/scheduler.py:253-309 | if accepts expect version 0, at most one accept per assignment ever commits, whatever was read when |
| `StaleReads.TakeoverIffNonZero` | src/tokenbank/scheduler/scheduler.py:253-270 | a committing stale accept takes over an issued lease if and only if it did not expect version 0 |
| `StaleReads.TakeoverHappens` | src/tokenbank/app/routers/assignments.py:28-28 | the takeover is real: from the empty database, two reads of one row, then commits expecting 0 and 1; two accepts are logged and the first token is dead |
| `StaleReads.FenceBreaksExactly` | src/tokenbank/scheduler/scheduler.py:445-547 | in every interleaving: a lateness that was read is never wrong; a submit commits as current for a late attempt if and only if it read no lateness and a newer attempt was created between its read and its commit |
| `StaleReads.StaleIffAttemptCreated` | src/tokenbank/scheduler/scheduler.py:445-486 | when attempts are numbered in one step, that is: if and only if any attempt of the work unit was created in between |
| `StaleReads.FenceBreaks` | src/tokenbank/scheduler/scheduler.py:581-599 | it happens: from the empty database, a retry between a submit's read and commit lets the late attempt succeed |
| `StaleReads.NumberRepeatsExactly` | src/tokenbank/scheduler/scheduler.py:46-57 | a new attempt repeats a number of its work unit if and only if one with that number was created between its read and its commit |
| `StaleReads.NumbersCollide` | src/tokenbank/scheduler/scheduler.py:46-57 | it happens: two creates that read first number two attempts alike |
| `StaleSweeps.StaleSweepExactly` | src/tokenbank/scheduler/sweeper.py:11-45 | whatever comes between selection and commit: a selected row is neither accepted nor running if and only if its last event since is a reject, expiry, completion or quarantine; it is no expired lease if and only if that is so or a lease commit since moved its expiry to the sweep's time or later; the commit expires it all the same and keeps its other columns |
| `StaleSweeps.CompletedLeaseExpires` | src/tokenbank/scheduler/sweeper.py:11-45 | it happens: from the empty database, a submit between selection and commit; the completed assignment expires while its work unit stays succeeded |
| `StaleSweeps.RenewedLeaseExpires` | src/tokenbank/scheduler/sweeper.py:28-45 | it happens: so does a progress call in between, to any later expiry; the running assignment expires |
| `StaleReads.FreshRunsSerialise` | src/tokenbank/db/transactions.py:15-25 | an interleaving whose reads are all still true at their commits is a run of whole operations |
| `StaleReads.FreshRunsFenced` | src/tokenbank/scheduler/scheduler.py:445-665 | so the fence holds in every such interleaving |
| `Sweeping.SweepBound` | src/tokenbank/scheduler/sweeper.py:11-27 | no lease is swept a full second early, every lease expired a second ago is selected, and selection is exact outside the whole-second case |
| `Sweeping.SweepExact` | src/tokenbank/scheduler/sweeper.py:11-45 | a sweep moves exactly the selected rows, changes nothing else, logs one event each, and a second sweep at the same instant does nothing |
| `ControlPlane.Database.UpdateWorkUnitStatus` | src/tokenbank/scheduler/lifecycle.py:13-47 | status and event together, or a missing row and no change |
| `ControlPlane.Database.ConditionalAssignmentUpdate` | src/tokenbank/scheduler/lease.py:57-108 | compare-and-swap on lease_version; a missing token keeps the stored one; no change on conflict |
| `ControlPlane.Database.ReadNextAttemptNumber` | src/tokenbank/scheduler/retry_fallback.py:8-17 | one more than the largest number of the work unit's attempts |
| `ControlPlane.Database.Rollback` | src/tokenbank/db/transactions.py:15-25 | every table and the outbox are as they were at the start |
| `ControlPlane.Database.PersistWorkUnit` | src/tokenbank/host/url_check.py:451-523 | realises the specified step or changes nothing |
| `ControlPlane.Database.CreateAttempt` | src/tokenbank/scheduler/scheduler.py:36-94 | realises the specified step or changes nothing |
| `ControlPlane.Database.ScheduleAgain` | src/tokenbank/scheduler/scheduler.py:581-599 | realises the specified step or changes nothing |
| `ControlPlane.Database.CreateAssignment` | src/tokenbank/scheduler/scheduler.py:96-183 | realises the specified step, rolling back when the work unit is missing |
| `ControlPlane.Database.AcceptAssignment` | src/tokenbank/scheduler/scheduler.py:245-309 | realises the specified step, rolling back on a lease conflict |
| `ControlPlane.Database.RejectAssignment` | src/tokenbank/scheduler/scheduler.py:311-350 | realises the specified step or changes nothing |
| `ControlPlane.Database.ProgressAssignment` | src/tokenbank/scheduler/scheduler.py:352-393 | realises the specified step, rolling back on a lease conflict |
| `ControlPlane.Database.CheckCredential` | src/tokenbank/scheduler/lease.py:44-54 | accepts exactly the stored hash, or a token with that hash |
| `ControlPlane.Database.StoreResult` | src/tokenbank/scheduler/scheduler.py:451-652 | the transaction of a submit: late rows quarantined, current rows completed, failures rolled back |
| `ControlPlane.Database.SubmitResult` | src/tokenbank/scheduler/scheduler.py:427-579 | realises the specified submit with every refusal in its order; the new row carries what was sent, under its own hashes |
| `ControlPlane.Database.SweepExpiredLeases` | src/tokenbank/scheduler/sweeper.py:11-45 | realises the specified sweep and returns the number of leases expired |
| `Outbox.FlushOrder` | src/tokenbank/events/flusher.py:19-40 | after any mix of enqueues, flushes and crashes sequences are 1..n, handled rows are a prefix, every written row is in the file and the file never steps back; it has one line more than written rows per crash that hit a pending row, and is exactly the written rows, strictly increasing, if and only if there was none |
| `Outbox.RunChannelInv` | src/tokenbank/events/outbox.py:34-122 | the flush prefix invariant holds in every run from any state that has it |
| `Outbox.CrashDuplicates` | src/tokenbank/events/flusher.py:28-36 | supporting: the shortest run with a duplicated line |
| `Outbox.FlushManyIsSteps` | src/tokenbank/events/flusher.py:19-40 | a limited flush with some failing appends is that many single-row steps |
| `Outbox.EventOutbox.NextSequence` | src/tokenbank/events/outbox.py:34-38 | the next sequence is one more than the number of rows |
| `Outbox.EventOutbox.EnqueueEvent` | src/tokenbank/events/outbox.py:41-79 | appends one pending row with the next sequence and keeps the invariant |
| `Outbox.EventOutbox.PendingEvents` | src/tokenbank/events/outbox.py:82-94 | the oldest pending rows, in order, up to the limit |
| `Outbox.EventOutbox.FlushOldest` | src/tokenbank/events/outbox.py:97-122 | one row marked written with its line appended, or marked failed with its counter raised |
| `Outbox.EventOutbox.FlushPendingEvents` | src/tokenbank/events/flusher.py:19-40 | the flush as specified; written plus failed is the batch, written is the number of new lines |
| `Worker.NoLossSingleContent` | src/tokenbank/worker/daemon.py:74-136 | in every run with lost calls, lost answers, error statuses, crashes and replays: an output whose submit returned or was spooled is in the spool or stored, and all rows of one assignment carry the same output, as does its spool entry |
| `Worker.DeliverableForever` | src/tokenbank/worker/spool.py:37-43 | after any later steps a spooled hash still passes the checks and the result is stored as succeeded or quarantined, the latter exactly when late |
| `Worker.SpoolAlwaysDeliverable` | src/tokenbank/worker/daemon.py:74-86 | in every reachable state every spool entry can be delivered |
| `Worker.KeptIffNotDropped` | src/tokenbank/worker/daemon.py:98-136 | in every run an executed output is spooled, stored or still in memory if and only if no crash, no failed progress call and no submit that was neither stored nor answered took its only copy |
| `Worker.RunKept` | src/tokenbank/worker/daemon.py:98-136 | the same from any state of the protocol, for every later run |
| `Worker.LostForever` | src/tokenbank/worker/daemon.py:74-136 | a lost output stays lost whatever happens later |
| `Worker.LossBeforeSubmit` | src/tokenbank/worker/daemon.py:101-111 | it happens: from nothing, a crash after execution, or a progress call that fails, loses the output |
| `Worker.LossInSubmit` | src/tokenbank/worker/daemon.py:112-128 | it happens: from nothing and without any crash, a submit that is lost and gets no answer escapes the except clause and loses the output |
| `Worker.LossBeforeSpool` | src/tokenbank/worker/daemon.py:112-128 | it happens: so does a crash after an error status came back and before the spool file is in place; with the file it is safe |
| `Daemon.ResultSpool.WriteCompleted` | src/tokenbank/worker/spool.py:29-51 | one file per assignment, holding the token's hash and not the token |
| `Daemon.ResultSpool.CompletedEntries` | src/tokenbank/worker/spool.py:53-60 | every spooled entry exactly once, sorted by file name |
| `Daemon.ResultSpool.Remove` | src/tokenbank/worker/spool.py:62-63 | that file and no other goes; a missing one is no error |
| `Daemon.WorkerDaemon.ReplayCompletedSpool` | src/tokenbank/worker/daemon.py:74-86 | whether or not it stops early, every entry is still on disk unchanged or stored; what was submitted and what is left add up |
| `Daemon.WorkerDaemon.SubmitOrSpool` | src/tokenbank/worker/daemon.py:112-128 | after an answer the output is stored; after an error status it is spooled under the lease hash; without an answer nothing is spooled, and an undelivered submit stores nothing |
| `Daemon.WorkerDaemon.HandleAssignment` | src/tokenbank/worker/daemon.py:98-136 | from accept to submit, with nobody else acting in between: after an accept that returned, the call fails before the submit exactly when the progress call was not delivered and answered, and escapes unspooled exactly when the submit then got no answer; in both cases the spool is unchanged, and nothing is stored if the submit was not delivered |
| `Envelopes.ProducerVerifierAgree` | src/tokenbank/backends/adapter.py:113-176 | supporting: the output hash always checks; the result hash checks exactly for known backend classes |
| `Envelopes.LateRewriteBreaksHash` | src/tokenbank/verifier/checks/common.py:89-150 | supporting: a valid envelope rewritten to quarantined checks only if it was quarantined before |
| `Envelopes.LateRowKeepsHash` | src/tokenbank/scheduler/scheduler.py:451-484 | supporting: a late submit stores the submitted hash beside the new status, so the row no longer checks |
| `Envelopes.ResultHashBindsFields` | src/tokenbank/verifier/checks/common.py:131-150 | supporting: equal valid result hashes mean equal output, status, ids, class, usage and errors |
| `Verifier.NoFailureFallsThrough` | src/tokenbank/verifier/runner.py:37-151 | for the five recipes, named ids and a table that never maps to accept: accept if and only if every check passed or was skipped |
| `Verifier.AcceptExactly` | src/tokenbank/verifier/runner.py:80-151 | with no condition on recipe or ids: accept if and only if nothing failed but the two checks no branch looks at |
| `Verifier.AcceptMeansClean` | src/tokenbank/verifier/runner.py:80-151 | supporting: for any list of handled checks, accept if and only if all are clean |
| `Verifier.TaskCleanIffGood` | src/tokenbank/verifier/checks/task_specific.py:12-207 | each recipe's task checks are clean exactly when the output meets what the recipe asks, said without checks |
| `Verifier.ClaimsCleanIffGood` | src/tokenbank/verifier/checks/task_specific.py:90-193 | no claim failure among any number of claims exactly when every claim is good |
| `Verifier.AcceptedMeansSound` | src/tokenbank/verifier/checks/common.py:65-229 | for any recipe and ids: accept if and only if both hashes recompute, the policy approves this work unit, no secret, schema met, and the demands of the recipe met if it is one of the five |
| `Verifier.UnknownRecipeAccepted` | src/tokenbank/verifier/checks/task_specific.py:12-28 | it happens: under a recipe id outside the five any output of a known backend class is accepted although its task check failed |
| `Verifier.StoredEnvelopeChecks` | src/tokenbank/backends/adapter.py:117-176 | an envelope the adapter built, once stored by a submit, passes both hash checks if and only if its class is known and the submit was not late, unless it was quarantined anyway |
| `Verifier.LateNeverAccepted` | src/tokenbank/verifier/runner.py:80-106 | such a failure is never recommended for acceptance, whatever the recipe, ids and evidence |
| `Verdicts.VerdictExactly` | src/tokenbank/verifier/runner.py:80-151 | for every recipe, envelope, evidence and table: the first fault of the result, in the order secret, missing hash, mismatch, schema, policy, then the task's own faults, decides under its key or default; accept without one; said in terms of the output |
| `Verdicts.AcceptedHasNoFailure` | src/tokenbank/verifier/runner.py:80-151 | if only the four warning keys may map to accept_with_warning, nothing accepted with or without a warning has a failed check apart from the two overlooked ones |
| `Verdicts.OverlookedExactly` | src/tokenbank/verifier/checks/common.py:65-86 | supporting: when the two checks no branch looks at fail |
| `Verdicts.BuiltIsTaken` | src/tokenbank/backends/adapter.py:117-176 | an envelope the adapter builds for the worker's own assignment, sent under its lease, is stored with the output and its hash, unless its id is taken |
| `Verdicts.CollectClaimFailures` | src/tokenbank/verifier/checks/task_specific.py:99-143 | the claim loop collects nothing exactly when every claim is good |
| `Verdicts.RunVerifier` | src/tokenbank/verifier/runner.py:37-78 | the list built group by group; the verdict is the answer to the first fault; accept if and only if all clean; with a careful table no failure gets through as a warning |
| `Provenance.ReceiptProvenance` | src/tokenbank/audit/receipts.py:31-128 | behind every receipt of every interleaving stand, in order: the accept that issued a token for the assignment; a submit by the assignment's worker under that token that read while the attempt was the newest; the commit that stored the result, when the attempt was late if and only if a newer one had been created since that read; the reading of the rows it is made from, namely the latest succeeded result of the work unit, the latest report on that very result, which recommended acceptance, and the latest plan of the work unit; the finding of the latest receipt of another result, to which it links; the insert |
| `Contexts.CreateExactly` | src/tokenbank/audit/receipts.py:31-292 | a receipt is returned if and only if the work unit has an accepted context and an entry is at hand or can be made; a new one says field by field what the latest rows say, takes the named, latest fitting or new entry, and links to the latest receipt of another result; otherwise an old one for that result and entry is returned |
| `Contexts.PicksExactly` | src/tokenbank/audit/receipts.py:187-292 | the queries return the latest rows that qualify, said over the rows, and nothing only if none does |
| `Contexts.ReportSaved` | src/tokenbank/host/url_check.py:636-669 | supporting: a report saved again changes the body of its row alone; a new one needs a stored result and comes last |
| `Contexts.PlanSaved` | src/tokenbank/router/service.py:164-187 | supporting: likewise for a plan, which needs its work unit |
| `Contexts.RecordExactly` | src/tokenbank/ledger/usage.py:24-39 | an entry is made if and only if there are a succeeded result, a plan and the account given; it names the latest result, report and plan |
| `LedgerSplits.SplitIsWhole` | src/tokenbank/audit/receipts.py:31-68 | the separate steps of a call, with nothing in between, are the whole call, whatever other calls are under way |
| `Provenance.NoLateReceipts` | src/tokenbank/audit/receipts.py:180-253 | in every interleaving no result in the quarantine has a receipt or a usage entry |
| `Provenance.TraceInv` | src/tokenbank/ledger/usage.py:161-217 | at every point of every interleaving usage entries and receipts name stored succeeded results, receipt ids and hashes are unique, links resolve, and every call under way holds a context still true of the tables |
| `Provenance.ResultHistory` | src/tokenbank/scheduler/scheduler.py:427-449 | behind every stored succeeded result stand its commit, the read of a submit that was current and under the lease then, and before that the accept that issued the token |
| `Provenance.ResultOrigin` | src/tokenbank/scheduler/scheduler.py:427-579 | every stored row, quarantined or not, is the very row a submit had built when it read, from what was sent, stored by a later or the same step |
| `Provenance.ReceiptLinks` | src/tokenbank/audit/receipts.py:281-292 | from any receipt of any interleaving, walking back visits strictly earlier receipts, each of another result than the one before, and ends |
| `LedgerWitnesses.LateReceiptReached` | src/tokenbank/audit/receipts.py:187-253 | it happens: a retry between read and commit of a submit, and the late attempt's result gets a receipt |
| `Receipts.EqualHashesEqualChains` | src/tokenbank/audit/receipts.py:295-353 | equal receipt hashes, even in two stores, mean equal back-chains |
| `Receipts.HashNamesOne` | src/tokenbank/audit/receipts.py:356-366 | supporting: a receipt hash names one receipt |
| `Receipts.CreateTwice` | src/tokenbank/audit/receipts.py:39-68 | repeating a call with unchanged inputs at any time returns the same receipt and changes neither receipts nor usage entries |
| `Receipts.UsageBelongs` | src/tokenbank/audit/receipts.py:255-279 | the usage entry belongs to the work unit, and was recorded for the receipt's result, if and only if it was recorded just now or the entry found (named outright, or the latest that fits) says so |
| `Receipts.AnyEntryNamed` | src/tokenbank/audit/receipts.py:264-268 | whatever existing entry the caller names, of any work unit or result, the receipt takes it |
| `LedgerWitnesses.WrongUsageReached` | src/tokenbank/audit/receipts.py:269-274 | it happens: a run whose second result gets a receipt naming the usage entry of the first |
| `LedgerStore.FindLatest` | src/tokenbank/audit/receipts.py:187-232 | a row of the selection that no selected row beats, or none when nothing is selected |
| `Receipts.UpsertRows` | src/tokenbank/ledger/usage.py:41-80 | supporting: a new row at the end, or the one row with this id under a new body and its old time and plan |
| `LedgerStore.LedgerRepository.UpsertEntry` | src/tokenbank/ledger/usage.py:41-109 | a new row, or the same row with a new body, and one event |
| `LedgerStore.LedgerRepository.RecordForWorkUnit` | src/tokenbank/ledger/usage.py:24-39 | the entry specified, for the latest result, report and plan, or the reason there is none and no change |
| `LedgerStore.LedgerRepository.EnsureUsageEntry` | src/tokenbank/audit/receipts.py:255-279 | the named entry, the latest fitting one, or a new one |
| `LedgerStore.LedgerRepository.CheckAccepted` | src/tokenbank/audit/receipts.py:180-253 | nothing is wrong if and only if the latest succeeded result has a latest report that accepts it, a plan and its assignment; NotAccepted if and only if that report does not accept |
| `LedgerStore.LedgerRepository.InsertReceipt` | src/tokenbank/audit/receipts.py:47-128 | the receipt already there, or a new one linked to the latest of another result |
| `LedgerStore.LedgerRepository.CreateForWorkUnit` | src/tokenbank/audit/receipts.py:31-68 | realises the specified operation for the latest rows; a receipt if and only if the context is acceptable and an entry ready; a new one says what those rows say |
| `Rounding.RoundNear` | src/tokenbank/router/route_scorer.py:246-265 | supporting: rounding to four decimals moves a value by at most 0.00005 |
| `Rounding.RoundMonotone` | src/tokenbank/router/route_scorer.py:246-265 | supporting: rounding keeps order |
| `Scoring.WeightsSumNearOne` | src/tokenbank/router/route_scorer.py:330-342 | normalised rounded weights are non-negative, on the grid and sum to within 0.0003 of one |
| `Scoring.TotalBound` | src/tokenbank/router/route_scorer.py:246-268 | totals lie in 0..0.9703 and the upper clamp never acts |
| `Scoring.TotalMonotone` | src/tokenbank/router/route_scorer.py:246-268 | no worse in any component and in both penalties means no smaller total |
| `Scoring.ScoreInRange` | src/tokenbank/router/route_scorer.py:227-279 | for every candidate all six fits are in 0..1, the penalty in 0.03..0.25 and the total in 0..0.9703 |
| `Scoring.PassesIffEligible` | src/tokenbank/router/route_scorer.py:177-225 | the hard filters pass if and only if ten conditions on task, candidate and manifests hold |
| `Scoring.ScoreNear` | src/tokenbank/router/route_scorer.py:227-342 | an eligible candidate's total is within 0.00065 of the sum of its fits weighted by the configured shares less both penalties, cut off at zero; any other total is zero |
| `Scoring.PenaltyExactly` | src/tokenbank/router/route_scorer.py:457-474 | the cap never acts and no filter is ever pending, so the penalty is a plain sum |
| `Scoring.CapabilityFull` | src/tokenbank/router/route_scorer.py:361-374 | the capability fit is full if and only if every requirement is met |
| `Scoring.TierFitExactly` | src/tokenbank/router/route_scorer.py:394-410 | supporting: the values the tier fit takes; the floor never acts |
| `Scoring.QualityFitExactly` | src/tokenbank/router/route_scorer.py:377-391 | supporting: what tier, verification and pass rate are worth |
| `Scoring.CostFitExactly` | src/tokenbank/router/route_scorer.py:413-428 | supporting: the price bands, and that a preference never reaches the clamps |
| `Scoring.LatencyFitExactly` | src/tokenbank/router/route_scorer.py:431-444 | supporting: when each latency fit is given |
| `Scoring.TrustFitExactly` | src/tokenbank/router/route_scorer.py:447-454 | supporting: the order of ownership scopes |
| `Ranking.RankIsCount` | src/tokenbank/router/route_scorer.py:118-129 | a rank is one more than the number of candidate keys ahead |
| `Ranking.RanksPermute` | src/tokenbank/router/route_scorer.py:477-491 | for distinct ids ranks are a permutation of 1..n: eligible first, then by total, priority, cost and id |
| `Ranking.SelectionExactly` | src/tokenbank/router/route_scorer.py:130-152 | for distinct ids the selection is the eligible candidate ahead of every other; if none is eligible the existing selection stays |
| `Ranking.OrderIndependent` | src/tokenbank/router/route_scorer.py:118-152 | neither ranks nor selection depend on the order of the candidates |
| `Ranking.RemovalKeepsSelection` | src/tokenbank/router/route_scorer.py:130-152 | dropping any candidates but the selected one keeps a passing selection |
| `Ranking.DominanceRanksAhead` | src/tokenbank/router/route_scorer.py:227-279 | a passing candidate no worse anywhere with a smaller (priority, cost, id) ranks ahead |
| `Scoring.BetterFits` | src/tokenbank/router/route_scorer.py:361-474 | no dearer and on capacity no worse for the task means no smaller fit in any component and no larger penalty |
| `Ranking.BetterRanksAhead` | src/tokenbank/router/route_scorer.py:61-175 | in terms of manifests: such a passing candidate with a smaller (priority, cost, id) ranks ahead |
| `Ranking.MeasureCapability` | src/tokenbank/router/route_scorer.py:361-374 | the capability loop computes the mean of the capped ratios, within 0..1 |
| `Ranking.RejectedCandidates` | src/tokenbank/router/route_scorer.py:494-519 | hard_filter_failed for exactly the other ids shown failing, lower_score for exactly those shown passing |
| `Ranking.Score` | src/tokenbank/router/route_scorer.py:61-175 | the selection and ranks specified; at every position the last ranked trace of its id, which is the candidate's own when ids are distinct; scored if and only if some candidate is eligible, and then an eligible one is selected; for distinct ids every other candidate is rejected, for its filters if and only if it is not eligible; a missing backend or profile if and only if one is missing |
| `Ranking.ShownIsLast` | src/tokenbank/router/route_scorer.py:118-129 | what is shown for an id is a ranked trace of that id with none of that id behind it |
| `Routing.ScanExactly` | src/tokenbank/router/route_plan_validator.py:117-166 | the scan raises nothing if and only if nothing that occurs in the document at any depth is forbidden: texts free of path fragments, keys of field fragments, backend ids of backend fragments, no denied domain source |
| `Routing.PlanTexts` | src/tokenbank/router/route_plan_validator.py:36-40 | supporting: which texts occur in a plan |
| `Routing.ValidatesExactly` | src/tokenbank/router/route_plan_validator.py:36-166 | a plan validates if and only if nothing it shows is forbidden and the verifier, selection and candidate rules hold field by field |
| `Routing.ReselectValidates` | src/tokenbank/router/route_plan_validator.py:36-166 | a good plan under a new selection is good if and only if that is one of its candidates |
| `Routing.SelectedIsCandidate` | src/tokenbank/router/route_scorer.py:130-152 | the scorer selects a candidate or keeps the selection, repeated ids or not |
| `Routing.SecondValidationNeverRaises` | src/tokenbank/router/service.py:73-161 | planning succeeds if and only if there are candidates and the normalised plan is good; scorer and second validation never raise, and what is handed out is good |
| `Routing.NormalizeExactly` | src/tokenbank/router/normalizer.py:9-32 | the normalised plan has the same candidates by priority, backend and id, each selector by key, the first selected, nothing else changed |
| `Routing.NormalizeCanonical` | src/tokenbank/router/normalizer.py:9-32 | the normalised plan does not depend on candidate order |
| `Routing.PlanRouteCanonical` | src/tokenbank/router/service.py:73-110 | nor does the outcome of planning |
| `Capacity.RebuildExact` | src/tokenbank/capacity/registry.py:237-279 | the rebuilt table has exactly the projected ids, the last projection as body, and the stored or first created_at |
| `Capacity.RebuiltSays` | src/tokenbank/capacity/registry.py:70-279 | from manifests to rows: a row for exactly the ids a manifest claims, saying field by field what the last backend claiming it says, or else the last worker |
| `Capacity.IncrementalIsFromScratch` | src/tokenbank/capacity/registry.py:237-279 | from any prior table the result equals a rebuild from nothing, apart from created_at of rows that were there |
| `Capacity.RebuildLater` | src/tokenbank/capacity/registry.py:70-141 | rebuilding from the same manifests at another time keeps every id and created_at column and changes bodies only where the clock is stamped on them; the table is unchanged if and only if the clock is or there are no manifests |
| `Capacity.RebuildTicks` | src/tokenbank/capacity/registry.py:105-141 | for one: a single backend rebuilt a tick later is another table |
| `Capacity.RebuildIdempotent` | src/tokenbank/capacity/registry.py:144-205 | supporting: rebuilding again from the same nodes changes nothing |
| `Capacity.PairsExactly` | src/tokenbank/capacity/validators.py:18-81 | manifests pair if and only if every backend is well placed and, if there is any, everything a worker lists resolves to a manifest that suits it |
| `Capacity.WorkerRowsPaired` | src/tokenbank/capacity/registry.py:282-305 | when backends are given, every worker row's backends exist, have a row and satisfy the pairing rules |
| `Capacity.WorkerRowSurvives` | src/tokenbank/capacity/registry.py:257-260 | a worker keeps its row if and only if no backend claims its node id |
| `Capacity.WorkerRowOverwritten` | src/tokenbank/capacity/registry.py:237-260 | it happens: for any worker without backends there is a backend manifest that passes every check and after whose rebuild no row is the worker's |
| `Capacity.CapacityRegistry.ValidatePairing` | src/tokenbank/capacity/validators.py:18-81 | accepts exactly the manifests that satisfy the location and pairing rules; without backends workers are not looked at |
| `Capacity.CapacityRegistry.UpsertCapacityNode` | src/tokenbank/capacity/registry.py:144-205 | a new row, or a new body under the old created_at |
| `Capacity.CapacityRegistry.RebuildCapacityNodes` | src/tokenbank/capacity/registry.py:237-279 | refuses and changes nothing, or leaves exactly the rebuilt table and one health snapshot per node in order |

## Left out

- Command line, HTTP routers, dashboard, MCP server, demo runner, schema export, configuration loading, migrations: input, output and plumbing.
- assign_next_work, poll_next_assignment, worker registration and heartbeats: they only pick or report; heartbeats appear as events that change no status.
- create_attempt with a status and event type other than the three pairs the code base uses.
- Fencing.FenceHolds: speaks of whole operations; StaleReads.FreshRunsFenced carries it to every interleaving whose reads are still true at commit, and StaleReads.FenceBreaksExactly says when it fails otherwise.
- Fencing.OnlyNewestSucceeds: speaks of whole operations, as above.
- ControlPlane.Database.PersistWorkUnit: does not model the runs table, so not a repeated run id either.
- ControlPlane.Database.CreateAttempt: does not model the foreign keys to route_plans and policy_decisions.
- An append that fails halfway and leaves part of a line, and two flushers at once.
- An execution that raises: it produces no output.
- The several SELECTs of one read, of a submit or of a receipt's context, count as one step; what comes between reads and commits is any step.
- Daemon.WorkerDaemon.HandleAssignment: assumes nobody else acts on the assignment between its three calls; Worker.KeptIffNotDropped covers the interleavings.
- Event bodies apart from type and ids, and their redaction.
- Secret patterns, JSON schema validation, URL canonicalisation and HTML extraction: the verifier is given their verdicts.
- Python's str.lower and str on arbitrary values: parameters of the guardrails, with the one law used stated as `LowerKeepsLower`.
- Which of several guardrail errors is raised first.
- Floating point: scores are reals, rounded half to even at four decimals.
- Duplicate keys in a JSON object, which Python's dict cannot hold.
- The token and cost figures of a usage entry, its capacity profile id, and the work unit and assignment hashes in a receipt: sums and opaque digests.
- The order SQLite gives to rows with equal created_at: any choice is allowed, except for usage entries, whose id breaks the tie through a given injective rank.
- Candidate generation, task analysis, task profiling and capacity profiles: inputs of scoring.
- Reason codes and summaries of the scoring report.
- The several clock readings of one capacity rebuild, and the body of a health snapshot: one `now` stands for all readings.
- Forbidden field names in manifests and envelopes, rejected by the data model before this code runs.
