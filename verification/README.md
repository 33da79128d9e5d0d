# Verified model of chattice

A Dafny model of the parts of chattice where correctness depends on more than one function: the
lease protocol that delivers messages at least once, the two Redis stores beneath it, versioned
FSM records, the keyed lock registry, the life of a bot's clients, routing, and two small
codecs and lifecycles. `dafny verify dfyconfig.toml` checks all of it.

Asynchronous code is a state machine with one step per `await`. Every machine is a total
function `Do(world, action)`: an action that is not enabled changes nothing. So a theorem about
`After(actions)` for every sequence of actions is a theorem about every interleaving, with every
pattern of delays, failures and cancellations. Classes carry the code between two awaits, and each
of their methods is proved equal to the function the theorems speak of. There is one real-valued,
monotone clock, which clients and servers read, and owner tokens never repeat.

- `Claims.dfy` is the idempotency contract: claim, complete, release and renew over one claim per
  key, the in-process store, and what every history keeps (lease exclusion, absorption of
  duplicates, conservation of claims).
- `PullDelivery.dfy` and `PushDelivery.dfy` are one pull attempt and one push request: the
  machine, the coroutine itself, and the exact outcome of every run.
- `StoreCalls.dfy` is the store as its callers see it: a call is made, takes effect at some later
  moment, and returns later still, or never. `DeliveryRuns.dfy` puts any number of pull attempts,
  renewals and push requests over one such store; `DeliveryClaims.dfy` says what they leave in it,
  and `DeliverySuccess.dfy` that they get through when nothing goes wrong.
- `RedisTransactions.dfy` is the loop WATCH, GET, decide, MULTI/EXEC over a versioned server with
  expiry and lost connections, for any decision; `RedisProgress.dfy` says that no call fails by a
  conflict. `RedisClaims.dfy` and `RedisRecords.dfy` are its two uses. `RedisDeliveries.dfy` puts
  the attempts of `DeliveryRuns` over the commands of `RedisClaims`, and `RedisUpdates.dfy` puts
  concurrent updates over those of `RedisRecords`.
- `Records.dfy`, `RecordRuns.dfy` and `RecordFacade.dfy` are versioned records, concurrent updates
  on them, and the plain storage interface on top.
- `KeyedLocks.dfy` is the lock registry over asyncio's lock, with its queue of futures, and
  `LockOrder.dfy` its fairness.
- `BotLifecycle.dfy` is single-flight initialization against a terminal close; `BotOutcomes.dfy`
  says what its runs come to, credentials, errors and retries included.
- `RouterForest.dfy`, `Routing.dfy` and `RoutedTree.dfy` are the router tree, the search through
  it, and the two together.
- `ActionCodec.dfy` and `Lifespans.dfy` are the typed action parameters and the resource lifespan.

## Where the code and its documentation differ

The model follows the code in each case and proves exactly when the promise holds.

- A delivery "is NEVER both ACKed and NACKed" (pubsub_runner.py:365). A cancellation inside the
  hook after the ack nacks it, and a message without a delivery counter is neither acked nor
  nacked when its work fails. `DispositionsPerRun` gives the exact condition for each count,
  `AckedAndNackedOrNeither` such runs.
- "If construction already completed, its transport is closed exactly once before close returns"
  (bot.py:308-310). `close` raises before closing anything if a task in flight failed with
  something other than `ChatAPIError`, and a transport whose close raises leaves the next one open:
  `CloseRaisesExactlyOn` and `CloseStopsAtTheFirstFailure`, with the run
  `CloseCanLeaveATransportOpen`.
- "A conflict retries on the new revision instead of losing fields" (record.py:360-362). A record
  that expires restarts at revision 1, which a stale writer can match: `LandsOnWhatItRead` gives
  the exact condition, `ExpiryCanLoseAnUpdate` a losing run.
- "Cleaned up when idle" (pubsub_runner.py:141). A waiter that gives up as the last one leaves the
  idle lock behind: `QuietRegistry` says exactly which locks stay.
- "None (optional) fields are OMITTED from parameters and restored from their default"
  (actions.py:11-12). A None with another default does not come back: `RoundTripExactly`, with
  `TripsThatChangeTheValue`.
- "iff the current record has `expected_revision`" (record.py:110-112). The Redis store looks at the
  expiry before it sends EXEC, so it can replace a record that has expired in between:
  `LiveAtExec` gives the exact condition, which a record without `expires_at` always meets, and
  `ExpiryAtExecIsOverlooked` a run.
- A lease "must carry its TTL" (idempotency.py:261-263). The TTL is the lease cut to whole
  milliseconds, so the server drops a claim before its lease has run out in some run exactly when
  the lease is longer than one millisecond and not a whole number of them:
  `LeasesAreCutShortExactly`.

## Model

| member | source | states |
|---|---|---|
| Claims.OperationsAreOwnerSafe | src/chattice/idempotency.py:94-127 | No operation touches another key or another owner's live claim, and nothing but the owner's own release undoes a completion. |
| Claims.LeasesLastAsGranted | src/chattice/idempotency.py:88-127 | A claim is granted exactly on a free or expired key and a renewal exactly to the stored owner of an uncompleted claim; a granted lease holds off every other claim until its end and none after that. |
| Claims.LeaseExclusion | src/chattice/idempotency.py:88-127 | In every legal history, an owner with a granted, unreleased lease that has not run out is the stored owner, with that very lease or completed; for a store that drops early, up to its slack. |
| Claims.LeaseHolds | src/chattice/idempotency.py:88-127 | While a granted, unreleased lease has not run out its owner is the stored owner, also in a store that forgets completions, as long as it forgets none of the owner's before the lease is over. |
| Claims.AtMostOneUnexpiredLease | src/chattice/idempotency.py:88-127 | Two owners with unexpired leases on one key at one instant are the same owner. |
| Claims.SecondFirstNeedsExpiry | src/chattice/idempotency.py:94-107 | A claim is answered FIRST again only after the earlier unreleased lease is over, so two reclaimers never both win within a lease. |
| Claims.CompletionAbsorbs | src/chattice/idempotency.py:94-127 | A completed claim stays unchanged through any other operations, racing renewals included, until its owner releases it or the store forgets it. |
| Claims.CompletedDeliveriesAreAbsorbed | src/chattice/idempotency.py:94-113 | From the stored owner's complete on, every later claim by anyone is answered COMPLETED. |
| Claims.CompletionHolds | src/chattice/idempotency.py:88-113 | In a legal history a completed claim never lapses: it stays until its owner releases it or the store forgets it, and until then every claim is answered COMPLETED. |
| Claims.ClaimsAreConserved | src/chattice/idempotency.py:88-119 | The FIRST answers on a key equal its effective releases plus its expiries plus one if a claim is stored now. |
| Claims.FreshOwnersHoldNothing | src/chattice/idempotency.py:54-56 | An owner token that has not claimed is stored nowhere and holds no grant, in every history. |
| Claims.MemoryIdempotencyStorage.PruneExpired | src/chattice/idempotency.py:88-92 | Drops the key's claim exactly when it is uncompleted and its lease has run out. |
| Claims.MemoryIdempotencyStorage.Acquire | src/chattice/idempotency.py:94-107 | The claim call: its answer and the whole new store are those of the contract's acquire. |
| Claims.MemoryIdempotencyStorage.Complete | src/chattice/idempotency.py:109-113 | Only the stored owner's complete changes anything; the store is the contract's. |
| Claims.MemoryIdempotencyStorage.Release | src/chattice/idempotency.py:115-119 | Only the stored owner's release deletes; the store is the contract's. |
| Claims.MemoryIdempotencyStorage.Renew | src/chattice/idempotency.py:121-127 | Extends only the stored owner's uncompleted claim and says whether it did. |
| PullDelivery.DispositionsPerRun | src/chattice/transports/pubsub_runner.py:358-570 | The exact number of acks and nacks of every run: none, one or two, each with its condition; two is always an ack and then a nack. |
| PullDelivery.AckedAndNackedOrNeither | src/chattice/transports/pubsub_runner.py:481-527 | With any counter and limit, a cancellation in the hook after the ack leads to an ack and a nack; without a counter a failed dispatch leads to neither. |
| PullDelivery.SingleDisposition | src/chattice/transports/pubsub_runner.py:358-367 | With a delivery counter and no hooks a run never disposes twice, and an uncancelled one disposes exactly once. |
| PullDelivery.AcksAreEarned | src/chattice/transports/pubsub_runner.py:400-547 | A run acks exactly when its own completion was recorded or the claim found one; it poison-acks exactly the failed messages whose attempts are used up. |
| PullDelivery.ReleasesFollowFailures | src/chattice/transports/pubsub_runner.py:499-570 | Every run ends with its renewal task ended, and its release call has returned exactly when its work failed and that call was let through. |
| PullDelivery.AwaitsOfARun | src/chattice/transports/pubsub_runner.py:499-570 | Which awaits after the work a run comes by: its release exactly on failure, the nack hook exactly on a failure that is to be tried again, the join of the renewal task exactly after a FIRST answer. |
| PullDelivery.DriveDisposes | src/chattice/transports/pubsub_runner.py:376-570 | From any await, the machine emits exactly the dispositions read off the outcomes of the remaining awaits. |
| PullDelivery.Process | src/chattice/transports/pubsub_runner.py:423-498 | The try block: what it emits, followed by what the except branch of its ending emits, is what the remaining awaits give, for every delivery counter. |
| PullDelivery.Handle | src/chattice/transports/pubsub_runner.py:376-570 | The coroutine, statement by statement, disposes of its message as the await machine does. |
| PullDelivery.RenewLoop | src/chattice/transports/pubsub_runner.py:572-604 | The loop renews until the first renewal that is refused or fails and never again. |
| PushDelivery.RequestsAreAnswered | src/chattice/integrations/fastapi/router.py:437-461 | The exact condition for 204, 429, 500 and no answer of every request, and for a release that took effect. |
| PushDelivery.CoordinatorClaim | src/chattice/integrations/fastapi/router.py:85-118 | The coordinator's claim lets the request go on exactly on FIRST or without a tracked message, and otherwise ends it as the machine does. |
| PushDelivery.Endpoint | src/chattice/integrations/fastapi/router.py:437-461 | The endpoint, statement by statement, ends as the await machine does. |
| StoreCalls.StepKeepsInv | src/chattice/idempotency.py:88-127 | Whatever happens between a call and its return, each answered call is the atomic operation at one moment since it was made, and is in the history there if it changed anything. |
| DeliveryRuns.RunsKeepInv | src/chattice/transports/pubsub_runner.py:358-604 | Every interleaving of pulls, pushes, renewals, expiry, failures and calls that take effect late keeps the invariant that ties each attempt and each of its calls to the history. |
| DeliveryRuns.AcksImplyDispatch | src/chattice/transports/pubsub_runner.py:400-481 | A message is acked outside the poison branch only if the dispatcher returned normally for its key in some attempt. |
| DeliveryRuns.NoContentImpliesDispatch | src/chattice/integrations/fastapi/router.py:437-461 | A 204 means the dispatcher returned normally in this request or in an attempt for the same key. |
| DeliveryRuns.ReturnedDispatchesAreAnswered204 | src/chattice/integrations/fastapi/router.py:446-461 | A request whose dispatch returned is never answered anything but 204. |
| DeliveryRuns.TooManyRequestsMeansActiveElsewhere | src/chattice/integrations/fastapi/router.py:111-117 | The return of a claim call leads to a 429 exactly when, at the moment the call was answered, another owner held the claim, neither completed nor expired. |
| DeliveryRuns.RefusedRequestsFoundAnother | src/chattice/integrations/fastapi/router.py:111-117 | Every request that was answered 429 had found such a claim at one moment after it began. |
| DeliveryRuns.ReleasedRequestsLeaveNoClaim | src/chattice/integrations/fastapi/router.py:446-457 | After a failed dispatch whose release returned, no claim of that request is stored, then or later. |
| DeliveryRuns.OverlapNeedsAnExpiredLease | src/chattice/transports/pubsub_runner.py:419-600 | Of two attempts at work on one key at one time, pull or push, from dispatch until the completion takes effect, at least one has outlived its last granted lease. |
| DeliveryRuns.EntriesAreBounded | src/chattice/transports/pubsub_runner.py:400-433 | The attempts that get to the dispatcher for a key are at most one, plus one per effective release and one per expiry. |
| DeliveryClaims.AckedDeliveriesAreCompleted | src/chattice/transports/pubsub_runner.py:396-481 | Complete first, then ack: an acked message had its claim answered COMPLETED, or the attempt's own complete call has been answered and is in the history unless the attempt no longer held the claim; after a FIRST answer it is always the second. |
| DeliveryClaims.AckedDeliveriesAreAbsorbed | src/chattice/transports/pubsub_runner.py:443-481 | An attempt that acks never gives its claim back, so if it held the claim when its complete call was answered, every later claim of the message is answered COMPLETED for as long as the store does not forget it. |
| DeliveryClaims.ReturnedRequestsAreCompleted | src/chattice/integrations/fastapi/router.py:446-461 | A request whose dispatch returned has made its complete call and never gives its claim back; once the call is answered with the claim still its own, the message stays absorbed. |
| DeliveryClaims.ReleasedDeliveriesLeaveNoClaim | src/chattice/transports/pubsub_runner.py:499-522 | After failed work whose release call returned, no claim of that pull attempt is stored, then or later. |
| DeliveryClaims.RenewsWhileInFlight | src/chattice/transports/pubsub_runner.py:419-604 | The lease of an attempt is renewed from its FIRST answer until the attempt is over or its renewal loop has met a call that was refused or failed, and never after; a finished attempt makes no renewal call. |
| DeliveryClaims.RenewalsStopForAReason | src/chattice/transports/pubsub_runner.py:581-600 | The renewal loop stops only on a failed or cancelled wait or on an answer that is no grant. |
| DeliveryClaims.PullsGoOnAsTheySee | src/chattice/transports/pubsub_runner.py:376-570 | When a storage call of a pull attempt ends, the attempt goes on as its coroutine does on that call's own answer, on a failure, or on a cancellation. |
| DeliveryClaims.RequestsGoOnAsTheySee | src/chattice/integrations/fastapi/router.py:437-461 | The same for a push request. |
| DeliveryClaims.FedMeansReturned | src/chattice/transports/pubsub_runner.py:429-433 | An attempt is on record as dispatched only through a dispatcher call of its own, for its own key, that returned normally. |
| DeliverySuccess.UndisturbedDeliveriesAreAcked | src/chattice/transports/pubsub_runner.py:376-570 | From any state of any run in which the message can be claimed, an attempt nobody disturbs acks it exactly once, with the claim completed, its lease renewed on the way, and nothing left running. |
| DeliverySuccess.UndisturbedRequestsAreAnswered | src/chattice/integrations/fastapi/router.py:437-461 | From any such state a request nobody disturbs, whose dispatch returns, is answered 204 with its claim completed. |
| RedisTransactions.RunsKeepInv | src/chattice/idempotency.py:200-318 | In every run of the WATCH loop each finished call is justified by the value stored at one point between its start and its end, and the history replays to the server's entries and their deadlines. |
| RedisTransactions.RunsKeepCode | src/chattice/fsm/record.py:254-330 | Every call in flight runs its own code: the opening and the loop body it entered with. |
| RedisTransactions.DropsFollowTtls | src/chattice/idempotency.py:200-275 | Whatever the server drops was written with a TTL, at least that long ago, and has not been touched since. |
| RedisProgress.OnlyLosingLoses | src/chattice/idempotency.py:207-239 | In every run of any code over the loop, a call fails only by losing its connection, however often its EXEC finds the key changed. |
| RedisProgress.LostCallsAreNotNoticed | src/chattice/idempotency.py:207-239 | Any unfinished call can lose its connection, and then neither the server nor another call changes. |
| RedisProgress.UndisturbedCallsFinish | src/chattice/idempotency.py:207-318 | From any state of any run, also with an EXEC about to fail, a call that nobody disturbs goes round again and finishes within seven steps of its own. |
| RedisClaims.TtlShortfall | src/chattice/idempotency.py:205 | The PX expiry is less than a millisecond short of the lease, and short of it exactly for leases longer than one millisecond that are not a whole number of them. |
| RedisClaims.RunsAreClaimHistories | src/chattice/idempotency.py:200-318 | Every run of the Redis store is a legal history of the claim contract that replays to what the server holds. |
| RedisClaims.CallsAreAtomic | src/chattice/idempotency.py:200-318 | Every finished call is the atomic operation at its SET NX, its deciding GET or its EXEC. |
| RedisClaims.EarlyDropsFallShort | src/chattice/idempotency.py:203-275 | In every run, a claim dropped before its lease has run out had been granted, by a claim or a renewal, for a lease that falls short of its TTL. |
| RedisClaims.ShortLeasesCanBeCut | src/chattice/idempotency.py:203-206 | For every lease that falls short, on any key, a run in which the server drops the claim early. |
| RedisClaims.LeasesAreCutShortExactly | src/chattice/idempotency.py:203-275 | Some run drops a claim granted for this lease early if and only if the lease is longer than one millisecond and not a whole number of them. |
| RedisClaims.CompletedClaimsAreRetained | src/chattice/idempotency.py:161-161 | The server forgets a completed claim no earlier than the retention time after the EXEC that completed it. |
| RedisClaims.CompletionsStay | src/chattice/idempotency.py:241-242 | For the retention time after its EXEC a completion stays on the server, whoever calls, unless its own owner releases it. |
| RedisClaims.DuplicatesAreAbsorbed | src/chattice/idempotency.py:200-242 | A claim call that starts after a completion and reads within the retention time is answered COMPLETED, unless the owner released it. |
| RedisClaims.LeasesAreExclusive | src/chattice/idempotency.py:200-275 | In every Redis run, an owner whose unreleased lease ends more than a millisecond from now is the owner stored on the server, with that lease or completed; for an owner that has completed, if no lease is longer than the retention time. |
| RedisDeliveries.RunsAreDeliveries | src/chattice/idempotency.py:200-318 | Every run of pull attempts, renewals and push requests over the Redis commands is a run of DeliveryRuns over a store that drops no lease early, with the same attempts and the claims the server holds. |
| RedisDeliveries.AcksImplyDispatch | src/chattice/transports/pubsub_runner.py:400-481 | Over Redis too, a message is acked outside the poison branch only if the dispatcher returned normally for its key. |
| RedisDeliveries.NoContentImpliesDispatch | src/chattice/integrations/fastapi/router.py:437-461 | Over Redis too, a 204 means the dispatcher returned normally in this request or in an attempt for the same key. |
| RedisDeliveries.OverlapNeedsAnExpiredLease | src/chattice/transports/pubsub_runner.py:419-600 | Of two attempts at work on one key over Redis, one has outlived the last lease a SET NX or an EXEC granted it, with no allowance for early drops. |
| RedisDeliveries.ReturnedDispatchesAreAnswered204 | src/chattice/integrations/fastapi/router.py:446-461 | Over Redis too, a request whose dispatch returned is never answered anything but 204. |
| RedisDeliveries.ReleasedRequestsLeaveNoClaim | src/chattice/integrations/fastapi/router.py:446-457 | After a failed dispatch whose release returned, the server holds no claim of that request, then or later. |
| RedisDeliveries.RefusedRequestsFoundAnother | src/chattice/integrations/fastapi/router.py:111-117 | Every request answered 429 over Redis had found, at a GET of its own claim call, another owner's uncompleted, unexpired claim on the server. |
| RedisDeliveries.EntriesAreBounded | src/chattice/transports/pubsub_runner.py:400-433 | Over Redis too, the attempts that get to the dispatcher for a key are at most one, plus one per effective release and one per expiry. |
| RedisDeliveries.AckedDeliveriesAreCompleted | src/chattice/transports/pubsub_runner.py:396-481 | Over Redis too, an acked message had its claim answered COMPLETED or the attempt's own complete call has returned. |
| RedisDeliveries.AckedDeliveriesAreAbsorbed | src/chattice/transports/pubsub_runner.py:443-481 | Over Redis, if that call wrote, every claim of the message that starts after its EXEC and reads within the retention time is answered COMPLETED. |
| RedisDeliveries.ReleasedDeliveriesLeaveNoClaim | src/chattice/transports/pubsub_runner.py:499-522 | After failed work whose release call returned, the server holds no claim of that pull attempt, then or later. |
| Records.MemoryFSMRecordStorage.GetRecord | src/chattice/fsm/record.py:135-143 | Answers with the live record and deletes exactly an expired one. |
| Records.MemoryFSMRecordStorage.CompareAndSet | src/chattice/fsm/record.py:145-167 | Stores the stamped replacement over the live record exactly when its revision is the expected one; the whole new store is given. |
| Records.CompareAndSetDecides | src/chattice/fsm/record.py:145-167 | It stores exactly over the expected revision, content unchanged, one revision on and stamped, and otherwise reports the revision it found; no other key changes, and of its own it drops at most an expired record. |
| Records.StampedUpdates | src/chattice/fsm/record.py:357-405 | Every update changes the one thing it is for and keeps the rest of the record it read, its expiry and schema version always. |
| RecordRuns.RunsKeepInv | src/chattice/fsm/record.py:120-167 | In every interleaving the store is the log of successful writes seen through expiry, and each write extends the one found live. |
| RecordRuns.RevisionsGrow | src/chattice/fsm/record.py:145-167 | Until a record of the key expires, revisions strictly grow, so a revision names one write. |
| RecordRuns.LandsOnWhatItRead | src/chattice/fsm/record.py:357-378 | An update lands on the very write it was computed from exactly when no record of the key, from that write on, had expired. |
| RecordRuns.ExpiryCanLoseAnUpdate | src/chattice/fsm/record.py:152-163 | A concrete run in which an expiry lets a stale writer wipe out another's data. |
| RecordRuns.NoUpdateIsLost | src/chattice/fsm/record.py:357-405 | Over the in-process store and with no expiry, the stored record is the fold of all successful updates in order and the revisions are 1, 2, 3 and so on. |
| RecordRuns.UpdatesKeepTheRest | src/chattice/fsm/record.py:357-405 | In every interleaving, with or without expiry, each successful update stored its own change of the record it had read and kept everything else of it, one revision on from the record it landed on. |
| RecordRuns.ConflictsSurface | src/chattice/fsm/record.py:357-405 | update_data never lets a conflict out, every other update lets out its first, and only a finish returns without having written. |
| RecordRuns.UndisturbedUpdatesEnd | src/chattice/fsm/record.py:357-405 | From any state of any run an update nobody disturbs ends within three steps; it succeeds if it has yet to read, is an update_data, or has read what is still there, and has then written, but for a finish that finds no record. |
| RecordRuns.FinishOfNothing | src/chattice/fsm/record.py:380-384 | finish of a key without a live record returns at its first read and writes nothing. |
| RecordRuns.RetriesAreBounded | src/chattice/fsm/record.py:357-378 | With no expiry, every conflict of update_data is paid for by another writer's success on its key during the call. |
| RedisRecords.CompareAndSetIsAtomic | src/chattice/fsm/record.py:289-330 | Every finished compare_and_set compared, by the first of its clock readings, with the record stored at one point of its duration, and exactly when it succeeded wrote over it the replacement stamped by the second, with a TTL counted from the third. |
| RedisRecords.LiveAtExec | src/chattice/fsm/record.py:289-330 | A success finds the expected revision live at its EXEC exactly when the record did not expire between the expiry check and the EXEC; always, when the record carries no expiry. |
| RedisRecords.ExpiryAtExecIsOverlooked | src/chattice/fsm/record.py:308-327 | A run, for any two records of which the first expires, in which compare_and_set succeeds although no record is live at its EXEC. |
| RedisRecords.GetRecordIsAtomic | src/chattice/fsm/record.py:254-287 | get_record answers with the record visible at one point, and deletes only a record that had expired, never one written meanwhile. |
| RedisRecords.DropsOnlyExpired | src/chattice/fsm/record.py:322-326 | The server by itself drops only records within a millisecond of their expiry. |
| RedisRecords.DeadlinesFollowExpiries | src/chattice/fsm/record.py:321-327 | The server keeps a record without an expiry for good, and any other for the time its writer saw left at its last clock reading, cut to whole milliseconds and one at the least. |
| RedisRecords.ExpiredRecordsAreDeleted | src/chattice/fsm/record.py:254-287 | A get_record that nobody disturbs and that meets an expired record answers None and deletes it. |
| RedisRecords.StoredRevisionsArePositive | src/chattice/fsm/record.py:308-316 | Every stored record has a revision of at least 1, so 0 always means no record. |
| RedisUpdates.RevisionsCount | src/chattice/fsm/record.py:308-318 | Over Redis and with no expiry, the stored revision counts the writes of the key, and nothing ever deletes its record. |
| RedisUpdates.LandsOnWhatItRead | src/chattice/fsm/record.py:357-405 | Over Redis and with no expiry, every successful update replaces exactly the record its get_record answered with. |
| RedisUpdates.UpdatesKeepTheRest | src/chattice/fsm/record.py:357-405 | Over Redis, whatever expires when, a successful update stores its own change of the record its get_record answered with and keeps everything else of it, its expiry and schema version included. |
| RedisUpdates.NoUpdateIsLost | src/chattice/fsm/record.py:357-405 | Over Redis and with no expiry, the stored record is the fold of all successful updates in the order of their EXECs and the revisions are 1, 2, 3 and so on. |
| RedisUpdates.ConflictsArePaidFor | src/chattice/fsm/record.py:357-378 | Over Redis and with no expiry, an update conflicts exactly when the key was written between its get_record and its compare_and_set. |
| RedisUpdates.RetriesAreBounded | src/chattice/fsm/record.py:357-378 | Over Redis and with no expiry, a call of update_data conflicts at most as often as the key was written from its first get_record to its last compare_and_set, and all those writes are by others. |
| RecordFacade.MemoryStorage.Ensure | src/chattice/fsm/storage.py:95-100 | The entry of a key is made on demand and otherwise left alone. |
| RecordFacade.MemoryStorage.GetState | src/chattice/fsm/storage.py:102-105 | Reads the state, None without an entry, and changes nothing. |
| RecordFacade.MemoryStorage.SetState | src/chattice/fsm/storage.py:107-111 | Sets the state and nothing else; clearing the state of a missing entry changes nothing. |
| RecordFacade.MemoryStorage.GetData | src/chattice/fsm/storage.py:113-116 | Reads the data, empty without an entry, and changes nothing. |
| RecordFacade.MemoryStorage.SetData | src/chattice/fsm/storage.py:118-120 | Replaces the data and keeps the state. |
| RecordFacade.MemoryStorage.UpdateData | src/chattice/fsm/storage.py:122-128 | Merges into the data, keeps the state, and answers with the merged data. |
| RecordFacade.MemoryStorage.Finish | src/chattice/fsm/storage.py:130-132 | Removes the entry. |
| RecordFacade.EntriesAreMadeOnDemand | src/chattice/fsm/storage.py:95-132 | An entry is made by the first write that has something to store, and removed by finish; no other entry changes. |
| RecordFacade.BaseStorageFromRecord.GetState | src/chattice/fsm/record.py:343-345 | Reads the live record's state. |
| RecordFacade.BaseStorageFromRecord.GetData | src/chattice/fsm/record.py:350-352 | Reads the live record's data. |
| RecordFacade.BaseStorageFromRecord.Mutate | src/chattice/fsm/record.py:386-405 | One read and one compare-and-set, with three clock readings; what it stores is its own change of the record it read, with that record's expiry and schema version. |
| RecordFacade.BaseStorageFromRecord.SetState | src/chattice/fsm/record.py:347-348 | A state update, or a surfaced conflict. |
| RecordFacade.BaseStorageFromRecord.SetData | src/chattice/fsm/record.py:354-355 | A data update, or a surfaced conflict. |
| RecordFacade.BaseStorageFromRecord.UpdateData | src/chattice/fsm/record.py:357-378 | With no other writer the retry loop ends after at most one conflict and answers with the merged data. |
| RecordFacade.BaseStorageFromRecord.Finish | src/chattice/fsm/record.py:380-384 | Empties a live record and leaves a missing one alone. |
| RecordFacade.MutationsKeepTheRest | src/chattice/fsm/record.py:386-405 | One read and compare-and-set stores its change of what it read, one revision on and stamped, or finds that record expired in the meantime. |
| RecordFacade.WritesKeepTheRest | src/chattice/fsm/record.py:347-405 | set_state keeps the data, set_data and update_data keep the state, all of them and finish keep expiry and schema version, and no other key changes; the exact conditions for storing nothing and for a surfaced conflict. |
| RecordFacade.CallKeepsView | src/chattice/fsm/record.py:333-405 | Each of the six operations answers the same on both storages and keeps the correspondence, in which no record carries an expiry. |
| RecordFacade.StoresCannotBeToldApart | src/chattice/fsm/record.py:333-405 | From empty, after any sequence of calls and whatever the clock says, the record-backed storage answers as the plain one and never raises. |
| RecordFacade.ReadsSeeTheLastWrite | src/chattice/fsm/record.py:343-405 | After any calls, reads of a key see the last write of it and keep what that write does not change, and reads of another key answer as before. |
| KeyedLocks.KeyedLockRegistry.BeginAcquire | src/chattice/transports/pubsub_runner.py:151-157 | Makes the lock on demand, counts the waiter, and takes the lock or queues; the whole new registry is given. |
| KeyedLocks.KeyedLockRegistry.FinishAcquire | src/chattice/transports/pubsub_runner.py:156-157 | A woken waiter takes over the lock and leaves the queue. |
| KeyedLocks.KeyedLockRegistry.AbortAcquire | src/chattice/transports/pubsub_runner.py:158-160 | A cancelled waiter leaves the queue, passes its wake-up on, and is no longer counted. |
| KeyedLocks.KeyedLockRegistry.Release | src/chattice/transports/pubsub_runner.py:162-166 | Unlocks, wakes the first waiter, and discards the lock when nobody is counted; raises without a locked lock. |
| KeyedLocks.KeyedLockRegistry.DropWaiter | src/chattice/transports/pubsub_runner.py:168-173 | Counts one waiter less and forgets a key without waiters. |
| KeyedLocks.RunsKeepInv | src/chattice/transports/pubsub_runner.py:140-173 | Every sequence of acquires, wake-ups, cancellations and releases keeps holders, queue and counts of every key in agreement. |
| KeyedLocks.MutualExclusion | src/chattice/transports/pubsub_runner.py:785-793 | At most one task holds a key, also across replacements of its lock object. |
| KeyedLocks.LocksInUseStay | src/chattice/transports/pubsub_runner.py:162-166 | The lock a task holds or awaits is the one the registry hands out, and its release never raises. |
| KeyedLocks.WaitersAreCounted | src/chattice/transports/pubsub_runner.py:155-173 | The waiter count of a key is its holders plus its pending acquires. |
| KeyedLocks.FreeLocksWakeSomebody | src/chattice/transports/pubsub_runner.py:151-166 | No wake-up is lost: if nobody holds a key somebody waits for, a waiter can run; and the lock is granted in queue order. |
| LockOrder.GrantsFollowArrival | src/chattice/transports/pubsub_runner.py:140-166 | Fairness: whenever a task comes to hold a key, every other task that waits for the key and has not been cancelled began later. |
| KeyedLocks.QuietRegistry | src/chattice/transports/pubsub_runner.py:151-173 | With no task left nothing is counted, and the locks left over are exactly those whose last task gave up waiting. |
| KeyedLocks.QuietRegistryIsEmpty | src/chattice/transports/pubsub_runner.py:151-173 | Without cancellations a quiet registry is empty. |
| KeyedLocks.CancelledWakeupLeavesTheLock | src/chattice/transports/pubsub_runner.py:156-160 | A run in which a cancelled wake-up leaves an idle lock in the map. |
| BotLifecycle.Bot.Join | src/chattice/client/bot.py:388-395 | Every caller of a slot shares the task in it; a new one is made only when there is none. |
| BotLifecycle.Bot.ForgetFailed | src/chattice/client/bot.py:401-404 | A failed task is dropped only while it is still the current one. |
| BotLifecycle.Bot.StartResolve | src/chattice/client/bot.py:531-570 | A credential task answers from the cache or the configuration, starts its provider, or asks for the other identity's credentials; the whole new bot is given. |
| BotLifecycle.Bot.FinishThread | src/chattice/client/bot.py:537-575 | The provider's answer is cached for its identity and nothing else changes. |
| BotLifecycle.Bot.FinishAsk | src/chattice/client/bot.py:570-576 | The single credential serves the USER identity only if it is classified USER, and the outcome is cached. |
| BotLifecycle.Bot.Build | src/chattice/client/bot.py:406-449 | Publishes a client exactly when nothing fails and close has not begun; the whole new bot is given. |
| BotLifecycle.Bot.BeginClose | src/chattice/client/bot.py:315-325 | Only the first close goes on, and it waits for the four tasks in flight in order. |
| BotLifecycle.Bot.CloseTransports | src/chattice/client/bot.py:337-352 | Closes each distinct published transport once, in order, and stops at the first that fails; raises exactly if one fails. |
| BotLifecycle.ClosingFollowsTheCode | src/chattice/client/bot.py:337-352 | The machine, stepping through an uncancelled close one transport at a time, closes the same transports and ends the same way. |
| BotLifecycle.RunsKeepInv | src/chattice/client/bot.py:304-575 | Every interleaving of callers, tasks, providers and close keeps one unfinished task per slot and the cached results beside their task. |
| BotLifecycle.ClientsArePublishedOnce | src/chattice/client/bot.py:379-491 | At most one client per identity is ever published, and none once close has begun. |
| BotLifecycle.ProvidersAreCalledOnce | src/chattice/client/bot.py:510-575 | A provider is called at most once, plus once per call that raised, and no slot has two tasks running. |
| BotOutcomes.ProvidersStartOnce | src/chattice/client/bot.py:531-575 | Counted over the steps of any run, the provider of an identity starts at most once, plus once for every time it raised. |
| BotOutcomes.ClientsHaveTheirCredentials | src/chattice/client/bot.py:406-491 | Every published USER client has a USER credential behind it and every APP client an APP credential, unless the transport was injected; each client works over the injected transport or over one of its own. |
| BotOutcomes.CredentialsComeFromTheirSource | src/chattice/client/bot.py:531-575 | An identity with a provider has what that provider answered; without one the APP identity has the configured credential, and the USER identity has the single credential exactly if it is classified USER. |
| BotOutcomes.InitializationsEnd | src/chattice/client/bot.py:406-491 | With its credentials there, an initialization publishes its client exactly if the bot is not closed, the credentials suffice and the constructor returns; otherwise it fails with the error of the first of these that does not hold. |
| BotOutcomes.LateTasksFail | src/chattice/client/bot.py:406-478 | A shared task made after close has begun can only fail, with a ChatAPIError. |
| BotOutcomes.CallersStartAfresh | src/chattice/client/bot.py:388-404 | A caller that saw the shared task fail drops it: the next call of the getter never gets that task, and gets a new one unless another has been made already. |
| BotOutcomes.CachedClientsAreAnsweredAtOnce | src/chattice/client/bot.py:388-390 | A cached client is answered at once, closed or not, without a task. |
| BotOutcomes.ParentsForget | src/chattice/client/bot.py:514-556 | A task that waited for a failed one fails with the same error and drops it. |
| BotOutcomes.CancellingACallerCancelsNothingElse | src/chattice/client/bot.py:396-400 | A cancelled caller leaves the shared task and the other callers as they are. |
| BotLifecycle.CloseClosesEverythingOnce | src/chattice/client/bot.py:304-352 | When the first close has returned, the transports of all clients ever published have been closed, each distinct one once, and nothing else. |
| BotLifecycle.NothingIsClosedTwice | src/chattice/client/bot.py:337-352 | At no time has a transport been closed twice. |
| BotLifecycle.CloseRaisesExactlyOn | src/chattice/client/bot.py:317-352 | Once close has ended, it has raised exactly when a task in flight failed with something other than ChatAPIError, or it was cancelled while waiting for one, or a transport's close raised or was cancelled; what it closed and what it left open are the published transports in order, and a failed task leaves all of them open. |
| BotLifecycle.CloseStopsAtTheFirstFailure | src/chattice/client/bot.py:317-352 | For any set of transports that fail to close: nothing is closed if a task failed so or the wait was cancelled; otherwise the published transports are closed in order up to the first that fails, and close returns exactly if none does. |
| BotOutcomes.CloseWaitsForEveryTask | src/chattice/client/bot.py:317-336 | Once close is past its wait, every shared task there was when it began has ended. |
| BotLifecycle.CloseCanLeaveATransportOpen | src/chattice/client/bot.py:331-336 | A run in which close raises and the published transport stays open. |
| RouterForest.EveryRunIsAForest | src/chattice/dispatcher/router.py:55-75 | Any calls of include_router on detached routers keep a single-parent acyclic forest with matching links. |
| RouterForest.RefusedExactlyOnCycles | src/chattice/dispatcher/router.py:67-70 | Of a detached router, an include is refused exactly when the link would close a cycle. |
| RouterForest.IncludeDecides | src/chattice/dispatcher/router.py:55-75 | An include is accepted exactly for a detached router that is no dispatcher and closes no cycle, and a refusal names the first of its reasons. |
| RouterForest.Router.IncludeRouter | src/chattice/dispatcher/router.py:55-75 | Links parent and child on acceptance, changes nothing on rejection, and keeps the forest either way. |
| RouterForest.Router.ContainsRouter | src/chattice/dispatcher/router.py:77-80 | The recursive search over the objects ends and agrees with reachability in the graph. |
| RouterForest.WalkVisitsTheTreeOnce | src/chattice/dispatcher/router.py:82-88 | The walk meets exactly the routers of the tree, each once, each with the middleware of its root path. |
| RouterForest.ParentsFirst | src/chattice/dispatcher/router.py:82-88 | A parent comes before its children. |
| RouterForest.EarlierTreesFirst | src/chattice/dispatcher/router.py:82-88 | The whole tree of an earlier child comes before that of a later one. |
| RouterForest.IncludedRoutersComeLast | src/chattice/dispatcher/router.py:71-88 | The walk comes to an included router and all below it after everything below the routers its parent had included before. |
| Routing.EvaluateFilters | src/chattice/filters/base.py:37-63 | The loop's verdict and the context it leaves are those of evaluating the filters in order. |
| Routing.FiltersPassExactlyWhenAllAccept | src/chattice/filters/base.py:37-63 | An event passes exactly when each filter in turn accepts it in the context built so far, adding only new string keys, and the handler gets the last context. |
| Routing.VerdictOfTheFirstRefusal | src/chattice/filters/base.py:37-63 | Any other verdict is that of the first filter that does not accept, and the context is left with the items merged before the one that failed. |
| Routing.FiltersOnlyAdd | src/chattice/filters/base.py:57-62 | Filters never redefine or drop a context key, whatever their verdict. |
| Routing.FiltersCompose | src/chattice/filters/base.py:37-63 | Evaluating a joined list is evaluating the second part in the context the first leaves. |
| Routing.InvokeWithMiddleware | src/chattice/dispatcher/middleware.py:33-54 | The loop over the reversed list nests the handler with the first middleware outermost, and leaves the context as that nest leaves it. |
| Routing.FirstMiddlewareDecides | src/chattice/dispatcher/middleware.py:33-54 | The first middleware is called with the rest of the nest as its next and has the last word. |
| Routing.ComposeConcat | src/chattice/dispatcher/middleware.py:33-54 | Inherited middleware and a router's own nest as one joined list. |
| Routing.RoutePass | src/chattice/dispatcher/dispatcher.py:281-387 | One observer's nested loops decide, and call, what the flat search over its candidates does. |
| Routing.TryHandler | src/chattice/dispatcher/dispatcher.py:309-387 | One candidate's filters and handler decide what the candidate decides on its own; what it does to the context stays in its own copy. |
| Routing.WhatCandidatesDecide | src/chattice/dispatcher/dispatcher.py:309-387 | A candidate's handler is called exactly if all filters before it pass, in the context they leave, and decides by what comes back; a candidate whose filters do not pass decides only if one stops the event or fails. |
| Routing.RouteEvent | src/chattice/dispatcher/dispatcher.py:230-242 | Routing an event is the flat search over all candidates of all its observers, with the same calls in the same order. |
| Routing.ObserversGetTheirEvents | src/chattice/dispatcher/dispatcher.py:395-431 | Every observer is offered exactly the events it is for, the observer of one kind before that of all commands, and the catch-all last and for all events but errors. |
| Routing.Recover | src/chattice/dispatcher/dispatcher.py:185-214 | An exception that escaped routing goes on at once if it is no Exception; otherwise the first error candidate that decides answers with its value or raises in its turn, and if it stops, or none decides, the exception goes on. |
| Routing.FeedUpdate | src/chattice/dispatcher/dispatcher.py:161-228 | In the completed context the first candidate that decides gives the value fed back, stops the event, which feeds back nothing, or raises, which goes to the error observers; an event nobody decides feeds back nothing, but for an interaction under strict_interactions. |
| Routing.ContextOfAnEvent | src/chattice/dispatcher/dispatcher.py:161-173 | Key by key, the context an event is routed in: the caller's, with the bot it names or the configured one, and always the configured preview enrollment and FSM context. |
| Routing.SearchIsFirstMatch | src/chattice/dispatcher/dispatcher.py:281-387 | The search ends at the first candidate that decides and calls no handler after it. |
| Routing.CandidatesInOrder | src/chattice/dispatcher/dispatcher.py:230-387 | The flat list holds exactly the registered handlers, by observer, then router in the walk, then registration. |
| Routing.EachCandidateOnce | src/chattice/dispatcher/dispatcher.py:230-431 | No candidate is offered an event twice. |
| RoutedTree.EveryHandlerIsOfferedOnce | src/chattice/dispatcher/dispatcher.py:281-289 | An event is offered to a handler exactly when it is registered, for one of the event's observers, on a router of the tree, and only once. |
| RoutedTree.MiddlewareNestsAlongThePath | src/chattice/dispatcher/router.py:82-88 | A handler runs inside its router's middleware, inside its parent's, up to the root's. |
| ActionCodec.IntegersRoundTrip | src/chattice/actions.py:57-58 | Parsing the decimal print of an integer gives the integer back. |
| ActionCodec.ParsesIntegersExactly | src/chattice/actions.py:74-78 | A string is read as an integer exactly if it is an optional sign and digits that single underscores may group, between any whitespace. |
| ActionCodec.WhitespaceIsDropped | src/chattice/actions.py:74-78 | Each of the ten ASCII whitespace characters, and no other character, is whitespace to the parser, which drops it at both ends. |
| ActionCodec.ValueRoundTrip | src/chattice/actions.py:52-103 | A value other than None comes back as itself, an enum member exactly when it is the first of its printed name. |
| ActionCodec.ValuesDecodeExactly | src/chattice/actions.py:71-103 | A string decodes to a value exactly if it stands for it, true and false only, integer literals only, the first member that prints so; everything else is malformed. |
| ActionCodec.ToParameters | src/chattice/actions.py:155-163 | The loop encodes the fields in order, omits None, and stops at a value it cannot encode. |
| ActionCodec.FromParameters | src/chattice/actions.py:165-183 | The loop and the constructor's defaults decode field by field and stop at the first missing or malformed one. |
| ActionCodec.FieldsDecodeExactly | src/chattice/actions.py:165-183 | A parameter decodes as its field's type says; without one the default stands in, and a field without a default is missing. |
| ActionCodec.OptionalFieldsDecodeAsTheirType | src/chattice/actions.py:106-114 | A field declared X or None, either way round, decodes like one declared X; with any other union its parameter is malformed. |
| ActionCodec.FirstFailureIsReported | src/chattice/actions.py:165-183 | A failing decode reports the first field that does not decode. |
| ActionCodec.EncodesItsFields | src/chattice/actions.py:155-163 | A well-typed instance encodes, to exactly its fields that are not None. |
| ActionCodec.EncodingFailsExactly | src/chattice/actions.py:52-68 | Encoding fails exactly on a value of an unsupported type. |
| ActionCodec.DecodesFieldwise | src/chattice/actions.py:165-183 | Decoding gives an instance exactly when every field decodes, and gives each field its own value. |
| ActionCodec.RoundTripExactly | src/chattice/actions.py:155-183 | The round trip is the identity exactly when every None has None as its default and every enum member is the first of its printed name. |
| ActionCodec.TripsThatChangeTheValue | src/chattice/actions.py:155-183 | One-field models whose round trip changes the value: a None with any other default, and an enum member that prints as an earlier one. |
| ActionCodec.UnknownParametersAreIgnored | src/chattice/actions.py:165-183 | Parameters nobody declared never change the decode. |
| Lifespans.Lifespan.Enter | src/chattice/dispatcher/lifespan.py:41-62 | Starts in order; on a failing start closes what was started, newest first, and raises that start's error; refuses a used lifespan. |
| Lifespans.Lifespan.Exit | src/chattice/dispatcher/lifespan.py:64-87 | Closes everything started, newest first, despite failures, and raises the first failure only after a clean body. |
| Lifespans.Use | src/chattice/dispatcher/lifespan.py:41-87 | One whole life: its trace and the error that surfaces. |
| Lifespans.LifeIsBalanced | src/chattice/dispatcher/lifespan.py:41-87 | Exactly the successfully started resources are closed, each once, in reverse order. |
| Lifespans.FirstErrorIsFirst | src/chattice/dispatcher/lifespan.py:73-87 | The error that surfaces is that of the first close that failed. |

## Left out

- Liveness and real time: what an undisturbed attempt, call or update comes to is proved, but no theorem says that anything is scheduled, or that a renewal comes in time; the sleep between renewals is any delay.
- The Pub/Sub client, the Redis wire protocol, the event loop, threads and the scheduling of callbacks: asyncio's lock is its flag and queue, Redis a versioned map, and a step ends at an await.
- The semaphore of the pull runner: it is created and never acquired, so no bound on concurrency is claimed.
- Token verification, envelope parsing and the interaction endpoint with its synchronous answer: foreign calls and plumbing in front of the modelled part.
- The content of answers, cards, forms and messages, logging and diagnostics.
- Workspace event routing: the same forest and middleware again.
- The synchronous client and credential paths of the bot: they publish without the shared tasks and carry no promise of single flight.
- Key encodings: storage keys and Redis keys are taken as they are; that the joined strings are distinct is not claimed.
- JSON encoding of records and claims on the server: values are stored and read back unchanged.
- IntegersRoundTrip: ASCII digits and whitespace only, and not the interpreter's limit on the length of integer strings; floats are library behaviour and left out of the codec.
- ParsesIntegersExactly: ASCII digits and whitespace only, as above.
- FromParameters: a field's default stands for its default factory too, and enum members are known by their printed values.
- RouteEvent: the observability hooks around a handler are left out, and so are changes a filter makes to the context other than by the mapping it returns.
- FeedUpdate: without the hooks before and after an event, and without the bot it makes current for the handler.
- Handle: ack and nack do not raise, and logging does not.
- RunsAreClaimHistories: for calls whose TTL falls short of the lease by at most the stated slack, which is zero for the leases the runner and the endpoints use and never more than a millisecond.
- RunsAreDeliveries: one Redis command per step; that a cancelled task's connection is closed is its call taking no further steps, or finishing unheard.
- RetriesAreBounded: only while no record of the key carries an expiry, since an expiry is a change no writer made.
- CloseClosesEverythingOnce: shutting the event loop down, which cancels the shared tasks themselves, is not modelled.
