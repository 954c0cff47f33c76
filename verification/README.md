# Verified model of junando's incident delivery

junando receives alerts from queues and pollers, groups them into clusters, claims each cluster in a deduplication
store, applies rules, asks a language model for a diagnosis and notifies people over chat channels. This project models
that system in Dafny and proves what it promises, with the conditions under which it holds:

* When the queue has drained, an incident has been completed, once for each deduplication window, and no failed attempt is
  left without a completion after it. This holds if the store guarded the incident's fingerprint, no message that calls
  for its notification became visible again while in work, and no run left its claim behind.
* The store guards a fingerprint exactly when it could be reached at each claim and every run was done before its own
  claim expired.
* A failed send gives the claim back, unless the `reset` of the store fails as well or the run crashes before it.
* In a guarded run that has drained, each note has gone out once for each completion that has one, and once more for each
  attempt that failed or went away after sending it.
* No capacity limit of the queue consumer is exceeded and no wake-up is lost. No poller has two queries of one rule in
  flight, provided that the rules differ in what they are tracked by.

`dafny verify dfyconfig.toml` checks everything.

## How the model is built

* **Protocols are transition systems.** The code runs without interruption between two awaits, so every such stretch is
  one step: `Delivery` (workers, claim store, queue), `Subscriber` (the bounded queue consumer), `Polling` (the two
  interval runners). Steps are total functions, an event that cannot happen changes nothing, and the theorems quantify
  over all traces, that is over all interleavings, failures and timings.
* **Imperative code is imperative here.** `UseCase.Worker`, `SubscriberClass.SqsSubscriber`,
  `PollingRunners.IngestRunner` and `PollingRunners.PrometheusIngestRunner` are classes with the fields of the original;
  their methods are proved to take exactly the steps of the transition system, so the theorems about traces hold of them.
  The methods of the subscriber and of the runners are the stretches between two awaits. Those of the worker span many
  awaits, and at each of them all other workers, the queue and the store take arbitrary steps (`UseCase.Worker.Await`).
  The stores, the registry, the rule engine with its shared lists, the row reader and the OpenRouter loops are methods or
  classes as well, each proved against a specification.
* **Claims are a set in the protocol and entries with an expiry in the store.** `StoredClaims` runs the protocol over the
  table of a store and a clock, and shows that every such run is a run of the protocol.
* **Mishaps are part of the model.** A store outage, an expiring claim, a rejecting triage port, a failing `reset`, a
  crash and a message that becomes visible while still in work are events of `Delivery`. An expiry after the outcome is
  ordinary operation and ends a window. For the others the theorems say which of them they tolerate, and `DeliveryLimits`
  gives the runs that the rest make possible, for every queue except in the case of the outage, and the exact conditions
  that follow.

| file | contents |
|---|---|
| `Delivery.dfy`, `Outcomes.dfy` | delivery protocol and its claims, what it amounts to |
| `Diagnoses.dfy` | where diagnoses come from, what a note carries |
| `StoredClaims.dfy` | the protocol over a real store and a clock |
| `DeliveryRuns.dfy`, `DeliveryLimits.dfy` | runs that exist for every queue, the limits of the protocol |
| `UseCase.dfy` | the worker that follows the protocol |
| `Subscriber.dfy`, `SubscriberClass.dfy` | queue subscriber: capacity, wake-ups, drain, deletion |
| `Dedup.dfy` | deduplication stores: expiry, sweeping, rate |
| `Rules.dfy`, `Routing.dfy` | rule compiler and engine, delivery plan, startup check |
| `Fingerprints.dfy`, `Clustering.dfy`, `Sorting.dfy` | fingerprints, grouping, percentile, sampled traces |
| `Polling.dfy`, `PollingRunners.dfy` | polling runners and the keys they rely on |
| `Csv.dfy`, `OpenRouter.dfy`, `Redaction.dfy` | row reader, model fallback chain, log redactor |
| `Prelude.dfy`, `Text.dfy` | shared datatypes and sequence facts, string operations |

## What the code does not do as documented

The model follows the code. Where a comment or document says otherwise, this is what was found.

* `process-incident.use-case.ts:285-287` calls the release of a claim safe because deliveries of one fingerprint never
  overlap. `scripts/worker-batch.ts:51` asks for a visibility timeout of 20 seconds while one rate-limited model call
  alone may wait 30, so a message can come back while it is in work. `DeliveryLimits.ResurfacedMessageLost` gives, for any
  queue, the run in which the incident then disappears, although the store guarded it and no run left its claim behind; by
  `DeliveryLimits.ResurfacingIff` it can happen exactly when a message that calls for a notification of the fingerprint
  may resurface.
* `process-incident.use-case.ts:262-274` releases the claim after any failed send. When the primary notification has gone
  out and an escalation fails, the redelivery sends the primary again (`DeliveryLimits.FirstNoteResent`). How often each
  note goes out is `Outcomes.SendsLaw`. By `DeliveryLimits.NoResendIff` every note goes out exactly as often as it is
  completed, in all guarded runs that have drained, if and only if no notification of the fingerprint has more than one
  note. A new window sends again by design, and so may an outage of the store.
* `process-incident.use-case.ts:178-181` says that any triage failure fails open. That rests on the shipped triage
  adapters, which catch every error; the use case does not catch a rejecting port, which leaves the claim behind
  (`DeliveryLimits.RejectedTriageLoses` has the run, `Outcomes.LeftIff` all ways in which a claim is left).
* `rules.example.yaml:84-91` ships a rule that asks for labels, and `rules.example.yaml:24` lists them among the
  conditions. The clusters of `execute` have none, and tags are set only after the last evaluation, so no such rule ever
  decides anything (`Routing.LabelRulesDead`).
* `handler.ts:199` says that an invalid record will be retried. It is skipped (`UseCase.Worker.HandleRecord`) and deleted
  with its batch; only the failure of another record or of the deletion brings it back (`UseCase.Worker.ProcessBatch`),
  and a drained queue means that it is gone (`Outcomes.DrainedDeleted`).
* A rule may ask for four severities, of which only `critical` can match (`Rules.SeverityMeaning`).
* `redaction.ts:66-69` keeps stacks out of production logs. An error given as an array keeps them
  (`Redaction.ProductionStack` has the exact condition).
* `openrouter.provider.ts:64` speaks of deduplication. Only the primary model is removed; fallbacks are asked at most once
  in every run exactly when the remaining list has no repetition (`OpenRouter.NeverTwiceIff`).
* Fields that contain a quote do not survive the row reader even when written as RFC 4180 prescribes
  (`Csv.RoundTripIff` has the exact condition).

## Model

| member | source | states |
|---|---|---|
| Delivery.ClaimMeaning | packages/core/src/application/use-cases/process-incident.use-case.ts:98-296 | in every interleaving of any number of runs, with any failures and with claims expiring after their outcome, a fingerprint has at most one run between claim and outcome, and its claim is held exactly when the current window is finished, lost to a run that left its claim, or owned by a run; nothing is sent after completion within a window |
| Delivery.ClaimInvStep | packages/core/src/application/use-cases/process-incident.use-case.ts:112-274 | every single step of every run keeps the claim invariant, unless the store fails to guard the fingerprint |
| Delivery.ClaimInvRun | packages/core/src/application/use-cases/process-incident.use-case.ts:98-281 | the claim invariant holds in every reachable state |
| Delivery.ScanCounts | packages/core/src/application/use-cases/process-incident.use-case.ts:112-144 | in every log that reads properly, completions and claims left behind equal expiries plus the one whose claim is still held |
| Delivery.AccountedRun | scripts/worker-batch.ts:74-92 | at every moment an undisturbed fingerprint is claimed, or a visible message or unfinished work still calls for it, or its latest attempt did not fail and it has been dealt with or not been reached at all |
| Delivery.TagsApplied | packages/core/src/application/use-cases/process-incident.use-case.ts:237-240 | tags override labels of the same key, keep the others and touch nothing else of the cluster |
| Outcomes.LeftIff | packages/core/src/application/use-cases/process-incident.use-case.ts:178-296 | a claim is left behind exactly by a rejecting triage, a failing `reset` or a crash of the run that holds it |
| Outcomes.UnguardedIff | packages/core/src/infrastructure/dedup/dynamodb-dedup.adapter.ts:32-59 | the store fails to guard a fingerprint exactly when a claim is granted during an outage or expires under a run still at work |
| Outcomes.DrainedOncePerWindow | packages/worker/src/handler.ts:168-217 | when the queue has drained, each undisturbed fingerprint has been dealt with at least once, and exactly once in each window that its claim opened, and in no window is an attempt owed: the latest one did not fail |
| Outcomes.FailureMadeUp | scripts/worker-batch.ts:74-92 | in a drained run every failed attempt of an undisturbed fingerprint, in whatever window, is followed by a completion or by a run that leaves the claim behind |
| Outcomes.DrainedCompleted | packages/worker/src/handler.ts:168-217 | unless some step left the claim behind, a drained queue means at least one completion, exactly one for each window, and no failed attempt after the last one |
| Outcomes.DrainedExactlyOnce | packages/worker/src/handler.ts:168-217 | within one window there is exactly one completion if and only if no step left the claim behind |
| Outcomes.OneCompletionPerWindow | packages/core/src/application/use-cases/process-incident.use-case.ts:112-144 | between two completions of a fingerprint its claim has expired |
| Outcomes.DoneMeaning | packages/core/src/application/use-cases/process-incident.use-case.ts:245-279 | done means one suppression, or the primary notification and all escalations in order since the last failure, and nothing after it until the claim expires |
| Outcomes.DrainedDeleted | scripts/worker-batch.ts:74-92 | a drained queue means that every message has been deleted, malformed ones included |
| Outcomes.SendsLaw | packages/core/src/application/use-cases/process-incident.use-case.ts:245-274 | note k goes out once for each completion that has one and once more for each failed attempt that had got past it |
| Outcomes.DrainedSends | packages/core/src/application/use-cases/process-incident.use-case.ts:245-274 | in a drained run the notes beyond those of completed notifications are exactly those of failed attempts |
| DeliveryRuns.DrainAll | scripts/worker-batch.ts:43-93 | from every state one worker can drain the queue without any mishap, and leaves alone what is claimed already |
| DeliveryLimits.ResurfacedMessageLost | scripts/worker-batch.ts:46-53 | for every queue, a message that becomes visible while in work can end with no claim, no message and no notification, although the store guarded it and no run left its claim |
| DeliveryLimits.ResurfacingIff | scripts/worker-batch.ts:46-53 | if only given messages resurface, some guarded run that leaves no claim can drain without a completion, or with a failed attempt that is never made up, exactly when one of the messages calls for the notification |
| DeliveryLimits.RejectedTriageLoses | packages/core/src/application/use-cases/process-incident.use-case.ts:183-189 | for every queue, a rejecting triage port can end with the queue drained and no completion |
| DeliveryLimits.FailedResetLoses | packages/core/src/application/use-cases/process-incident.use-case.ts:289-296 | so can a failed send whose `reset` fails as well |
| DeliveryLimits.CrashLoses | packages/core/src/application/use-cases/process-incident.use-case.ts:112-274 | so can a crash between claim and outcome |
| DeliveryLimits.FirstNoteResent | packages/core/src/application/use-cases/process-incident.use-case.ts:247-274 | for every queue, a notification with two notes whose second fails once drains with the first note sent more often than completed |
| DeliveryLimits.NoResendIff | packages/core/src/application/use-cases/process-incident.use-case.ts:247-274 | in all guarded runs that have drained every note has gone out exactly as often as completed if and only if no notification of the fingerprint has more than one note |
| DeliveryLimits.OutageTwoOwners | packages/core/src/infrastructure/dedup/dynamodb-dedup.adapter.ts:54-58 | failing open during an outage lets two runs own one fingerprint |
| Diagnoses.AnalyseStep | packages/core/src/application/use-cases/process-incident.use-case.ts:178-221 | after triage and model have answered, the run sends with no diagnosis and degraded if triage was low or the model threw, and with the model's own diagnosis and reason otherwise |
| Diagnoses.NoteDiagnosed | packages/core/src/application/use-cases/process-incident.use-case.ts:192-253 | every note of every run goes back to one answer of triage and model for a cluster of its fingerprint, and is a note of that cluster's plan under the diagnosis which that answer gives |
| Diagnoses.CompletionDiagnosed | packages/core/src/application/use-cases/process-incident.use-case.ts:74-79 | every completed notification of every run goes back to such an answer, and counts as degraded exactly if triage was low, the model threw or it gave a reason |
| Diagnoses.NoteCarries | packages/core/src/application/use-cases/process-incident.use-case.ts:192-247 | a note carries a diagnosis exactly when triage did not call the incident minor and the model answered with that very diagnosis |
| Diagnoses.NotesMeaning | packages/core/src/application/use-cases/process-incident.use-case.ts:237-253 | the notes of a plan name its channels in order, carry the diagnosis as it is, and show the cluster unchanged but for the tags of the deciding post-model rule, of which the last for each key wins over the cluster's labels |
| UseCase.ResolveOutcome | packages/core/src/application/use-cases/process-incident.use-case.ts:74-79 | an outcome is an error exactly on a notification failure and a success exactly without any trouble |
| UseCase.CollectChannels | packages/core/src/application/use-cases/process-incident.use-case.ts:146-154 | the loop collects the routes and the escalations of the actions in order |
| UseCase.OthersKeep | packages/core/src/application/use-cases/process-incident.use-case.ts:98-280 | whatever all others do meanwhile, a suspended run is where it was |
| UseCase.Worker.Await | packages/core/src/application/use-cases/process-incident.use-case.ts:113-271 | at every await the others take any steps of the protocol, and only those |
| UseCase.Worker.IsNew | packages/core/src/application/use-cases/process-incident.use-case.ts:113-122 | the claim step: new exactly when unclaimed while the store is up, new anyway when it is down |
| UseCase.Worker.ReleaseDedupClaim | packages/core/src/application/use-cases/process-incident.use-case.ts:262-296 | after a failed send the claim is given back, or the failing `reset` leaves it behind |
| UseCase.Worker.Notify | packages/core/src/application/use-cases/process-incident.use-case.ts:247-279 | with others interleaving at every await, the sends go out in plan order, stop at the first failure with the claim released, and end in the resolved outcome; it fails exactly when a send does |
| UseCase.Worker.ClaimCluster | packages/core/src/application/use-cases/process-incident.use-case.ts:112-124 | a duplicate is skipped; unless others take claims away the cluster is claimed afterwards, and was not before if it is new |
| UseCase.Worker.DecideCluster | packages/core/src/application/use-cases/process-incident.use-case.ts:126-144 | a suppressed cluster is recorded and skipped with its claim kept, any other goes on to the analysis |
| UseCase.Worker.Begin | packages/core/src/application/use-cases/process-incident.use-case.ts:112-155 | a duplicate is skipped, a suppressed cluster is recorded and skipped, any other goes on; unless others take claims away it is claimed afterwards, and was not before if it goes on |
| UseCase.Worker.Diagnose | packages/core/src/application/use-cases/process-incident.use-case.ts:178-221 | after one answer of triage and model, which is its last step, a low triage leaves no diagnosis and a reason to degrade, otherwise the model's diagnosis and reason are taken as they are or its failure is noted; a rejecting triage ends the run with the claim left behind |
| UseCase.Worker.Conclude | packages/core/src/application/use-cases/process-incident.use-case.ts:223-279 | post-model rules add escalations and tags, and the channels sent to are those of the plan |
| UseCase.Worker.ProcessCluster | packages/core/src/application/use-cases/process-incident.use-case.ts:98-280 | one cluster either is passed, or throws with its claim released and its messages visible or deleted; it throws exactly when a send or the triage failed it; unless others take claims away, passing means claimed and throwing means free |
| UseCase.Worker.Execute | packages/core/src/application/use-cases/process-incident.use-case.ts:90-281 | with others interleaving at every await, the clusters of the alerts are processed in order as steps of the protocol, and the first error goes up |
| UseCase.Worker.HandleRecord | packages/worker/src/handler.ts:168-217 | a malformed record is skipped without any effect, any other is executed, and its error goes up |
| UseCase.Worker.Handle | packages/worker/src/handler.ts:156-218 | the records of a batch are handled in order until the first error |
| UseCase.Worker.ProcessBatch | scripts/worker-batch.ts:43-93 | the handler throws exactly when a send or the triage failed it, which is when some cluster is left over, so never over malformed records alone; if it returns, the deletion of the batch is asked for and what the queue deletes is gone; everything else is visible unless deleted by others |
| UseCase.Worker.DeleteBatch | scripts/worker-batch.ts:77-86 | of the messages asked for, those the queue deletes are gone and the others are visible again, whatever others did meanwhile |
| UseCase.Worker.Serve | scripts/worker-batch.ts:43-93 | a worker that polls any batches, among others, follows the protocol, and when the queue has drained every undisturbed fingerprint has been dealt with once per window and no failed attempt is left without one that did not fail |
| UseCase.Worker.Redeliver | scripts/worker-batch.ts:74-92 | when a batch is redelivered any number of times, the cluster at which an attempt fails never moves back, as long as nobody else takes claims of the batch away |
| UseCase.RecordDistinct | packages/core/src/domain/services/clustering.service.ts:16-27 | the clusters of one record have different fingerprints |
| UseCase.Worker.ModelledDistinct | packages/core/src/domain/services/clustering.service.ts:16-27 | so have those of each message in the world of a worker, as the limits above take for granted |
| StoredClaims.Refines | packages/core/src/infrastructure/dedup/dynamodb-dedup.adapter.ts:32-68 | every move over a real store, with claims, resets, outages, sweeps and the passing of time, is a run of the protocol in which what is claimed is what the store shows |
| StoredClaims.ActRefines | packages/core/src/application/use-cases/process-incident.use-case.ts:112-124 | after a step of a run the live entries are what the protocol has claimed, and a claiming run goes on exactly if the store answers that its claim is new |
| StoredClaims.GuardedIff | packages/core/src/infrastructure/dedup/dynamodb-dedup.adapter.ts:32-59 | the store guards a fingerprint in a run exactly when it could be reached at each of its claims and no owner ever worked past the expiry of the claim it had made |
| StoredClaims.StoredClaimMeaning | packages/core/src/application/use-cases/process-incident.use-case.ts:112-296 | then there is one owner at most, each within its window, and the store's entry is live exactly while the window is finished, lost or worked on, with nothing assumed about the log |
| StoredClaims.StoredDrained | packages/worker/src/handler.ts:168-217 | and a drained queue means that the incident has been dealt with, once in each window |
| StoredClaims.CompletionRate | packages/core/src/infrastructure/dedup/redis-dedup.adapter.ts:53-63 | by the clock an incident completes at most once, and once more for every `ttl` seconds that have passed |
| UseCase.NoStepBack | packages/core/src/application/use-cases/process-incident.use-case.ts:262-274 | since claims persist between attempts, a later attempt cannot fail earlier than one before it |
| Dedup.SweepingInvisible | packages/core/src/infrastructure/dedup/dynamodb-dedup.adapter.ts:8-15 | removing any expired entries at any times changes no answer of any run of calls |
| Dedup.SweepMeaning | packages/core/src/infrastructure/dedup/dynamodb-dedup.adapter.ts:11-15 | a sweep removes exactly those of its victims that have expired |
| Dedup.DeletionInvisibleIff | packages/core/src/infrastructure/dedup/dynamodb-dedup.adapter.ts:32-46 | deleting an entry goes unnoticed by all later runs exactly when the entry no longer suppresses |
| Dedup.SuppressionWindow | packages/core/src/infrastructure/dedup/dynamodb-dedup.adapter.ts:33-44 | a claim suppresses exactly until its release time: ttl seconds in memory, more than ttl and at most ttl + 1 with whole-second expiry |
| Dedup.AcceptTimesAt | packages/core/src/infrastructure/dedup/redis-dedup.adapter.ts:53-63 | the times that the next two members speak of are those of all claims of the fingerprint which the store accepts, in order |
| Dedup.AcceptGap | packages/core/src/infrastructure/dedup/redis-dedup.adapter.ts:53-63 | two consecutive accepted claims of a fingerprint are at least one window apart |
| Dedup.RateBound | packages/core/src/infrastructure/dedup/redis-dedup.adapter.ts:53-63 | n + 1 accepted claims span at least n windows, for both stores, sweeps or not |
| Dedup.StoreAsClaims | packages/core/src/infrastructure/dedup/redis-dedup.adapter.ts:50-72 | a store behaves as a set of claims that time can only shrink, as the delivery protocol assumes |
| Dedup.InMemoryDeduplicationStore.IsNewClaim | packages/core/src/infrastructure/dedup/redis-dedup.adapter.ts:53-63 | the map changes and the answer is given as specified, at millisecond precision |
| Dedup.InMemoryDeduplicationStore.ResetClaim | packages/core/src/infrastructure/dedup/redis-dedup.adapter.ts:65-67 | the claim is removed, nothing else |
| Dedup.RedisDeduplicationStore.IsNewClaim | packages/core/src/infrastructure/dedup/redis-dedup.adapter.ts:20-38 | the conditional set decides as the in-memory store does, and an unreachable server counts as new with an error noted |
| Dedup.RedisDeduplicationStore.ResetClaim | packages/core/src/infrastructure/dedup/redis-dedup.adapter.ts:40-42 | the claim is removed, or the call throws and nothing changes |
| Dedup.DynamoDBDeduplicationStore.PutItem | packages/core/src/infrastructure/dedup/dynamodb-dedup.adapter.ts:35-45 | the conditional put fails exactly when the entry exists and has not expired in whole seconds |
| Dedup.DynamoDBDeduplicationStore.IsNewClaim | packages/core/src/infrastructure/dedup/dynamodb-dedup.adapter.ts:32-59 | the put decides, and an unreachable table counts as new with an error noted |
| Dedup.DynamoDBDeduplicationStore.ResetClaim | packages/core/src/infrastructure/dedup/dynamodb-dedup.adapter.ts:61-68 | the claim is removed, or the call throws and nothing changes |
| Subscriber.Reservation | packages/ingest/src/polling/sqs-subscriber.ts:103-150 | in every reachable state tasks in flight plus the size of the outstanding receive stay within `maxInFlight` |
| Subscriber.ReceiveSize | packages/ingest/src/polling/sqs-subscriber.ts:103-114 | a receive is issued exactly when the loop turns with capacity left and no stop, and asks for the least of the batch size, the capacity and ten |
| Subscriber.NoLostWakeup | packages/ingest/src/polling/sqs-subscriber.ts:190-251 | a blocked loop has exactly one registered waiter, is not stopping, is at the limit, and some task in flight will wake it |
| Subscriber.NeverDeadlocked | packages/ingest/src/polling/sqs-subscriber.ts:89-251 | while the loop lives, a batch is pending or a stop waits, some internal step is possible |
| Subscriber.WaitersWoken | packages/ingest/src/polling/sqs-subscriber.ts:89-251 | when a task ends, a batch is untracked or a stop is asked for, nobody is left waiting for capacity |
| Subscriber.StopAborts | packages/ingest/src/polling/sqs-subscriber.ts:89-128 | a receive that is out is aborted exactly when a stop has been asked for, and none is issued after that |
| Subscriber.StopDrains | packages/ingest/src/polling/sqs-subscriber.ts:89-101 | whichever step resolves a pending `stop`, nothing is in flight, pending or waiting after it and the loop is gone |
| Subscriber.DrainStep | packages/ingest/src/polling/sqs-subscriber.ts:89-101 | with a stop pending, every internal step lowers what remains to be done |
| Subscriber.DrainBounded | packages/ingest/src/polling/sqs-subscriber.ts:89-101 | a stop is over after a number of steps known when it is asked for, in whatever order they come |
| Subscriber.ResultsFinal | packages/ingest/src/polling/sqs-subscriber.ts:161-188 | a received batch is never forgotten and the result of a message, once given, never changes |
| Subscriber.BatchHistory | packages/ingest/src/polling/sqs-subscriber.ts:116-149 | the messages of every batch of every run are those of one receive, the one at which the batch was numbered |
| Subscriber.ResultIff | packages/ingest/src/polling/sqs-subscriber.ts:161-199 | in every run a message has a result exactly if its task has ended with that result |
| Subscriber.DeleteRun | packages/ingest/src/polling/sqs-subscriber.ts:161-188 | in every reachable state each batch past its tasks has exactly one delete request if it had a success and none otherwise, made of its successes |
| Subscriber.DeletedExactly | packages/ingest/src/polling/sqs-subscriber.ts:161-182 | in every run, once the tasks of a batch are over, one delete request has been made if some task succeeded and none otherwise, and its entries name in order the messages at exactly the positions of the successes, numbered from zero, each by its handle or the empty one |
| Subscriber.DeleteRequestShape | packages/ingest/src/polling/sqs-subscriber.ts:174-182 | a delete request has between one and ten entries with distinct ids |
| Subscriber.DrainedSettlement | packages/ingest/src/polling/sqs-subscriber.ts:161-188 | after any drained run every batch ever received has a result for every message, and one delete request for the messages at exactly the positions of its successes, or none if it has no success |
| Subscriber.InvRun | packages/ingest/src/polling/sqs-subscriber.ts:54-101 | capacity, stop, task and record invariants hold in every reachable state |
| SubscriberClass.SqsSubscriber.ReleaseCapacityWaiters | packages/ingest/src/polling/sqs-subscriber.ts:246-251 | all waiters are woken and a blocked loop goes on only if it was among them |
| SubscriberClass.SqsSubscriber.RunLoop | packages/ingest/src/polling/sqs-subscriber.ts:103-128 | one turn of the loop is one turn of the protocol |
| SubscriberClass.SqsSubscriber.WaitForCapacity | packages/ingest/src/polling/sqs-subscriber.ts:236-244 | the loop registers a waiter exactly when it is not stopping and the limit is reached |
| SubscriberClass.SqsSubscriber.StartLoop | packages/ingest/src/polling/sqs-subscriber.ts:80-87 | starting is idempotent and takes the protocol's start step |
| SubscriberClass.SqsSubscriber.StopLoop | packages/ingest/src/polling/sqs-subscriber.ts:89-97 | the synchronous part of `stop` aborts exactly the receive that is out, wakes the waiters and takes the protocol's stop step |
| SubscriberClass.SqsSubscriber.ReceiveAnswers | packages/ingest/src/polling/sqs-subscriber.ts:121-149 | the messages received become tasks of one tracked batch |
| SubscriberClass.SqsSubscriber.TaskSettles | packages/ingest/src/polling/sqs-subscriber.ts:190-199 | a task's end records its result, leaves the in-flight set and wakes the waiters |
| SubscriberClass.SqsSubscriber.CollectResults | packages/ingest/src/polling/sqs-subscriber.ts:161-182 | one delete request is added, for the messages at exactly the positions where the task succeeded, in order, numbered from zero and by their handles; nothing is added if no task succeeded |
| SubscriberClass.SqsSubscriber.BatchSettles | packages/ingest/src/polling/sqs-subscriber.ts:152-159 | a settled batch is untracked and the waiters are woken |
| SubscriberClass.SqsSubscriber.StopContinues | packages/ingest/src/polling/sqs-subscriber.ts:94-101 | `stop` passes from the loop to the batches to the tasks it awaits |
| Rules.CompileCondition | packages/core/src/infrastructure/rules/condition-evaluator.ts:104-123 | the compiled predicate is the conjunction of the matchers of the fields given |
| Rules.CompiledMeaning | packages/core/src/infrastructure/rules/condition-evaluator.ts:20-123 | for every cluster, every optional analysis and every order of the fields, the compiled predicate holds exactly when all given fields match |
| Rules.MatchesEach | packages/core/src/infrastructure/rules/condition-evaluator.ts:104-123 | a condition matches exactly when each of its fields alone does |
| Rules.ClusterFieldMeaning | packages/core/src/infrastructure/rules/condition-evaluator.ts:20-60 | what the fields about name, type, endpoint, count and latency mean, each alone: case does not count in names, bounds are inclusive, a missing latency never matches, and no field at all always does |
| Rules.LabelFieldMeaning | packages/core/src/infrastructure/rules/condition-evaluator.ts:30-71 | a labels field asks for a label table with each of its pairs, a severity field for `critical` and an error |
| Rules.AnalysisFieldMeaning | packages/core/src/infrastructure/rules/condition-evaluator.ts:73-93 | what the fields about urgency, rollback and impacted services mean; without an analysis none of them matches |
| Rules.SeverityMeaning | packages/core/src/infrastructure/rules/condition-evaluator.ts:30-35 | a severity condition matches exactly when it asks for `critical` and the alert is an error |
| Rules.DispatchActions | packages/core/src/infrastructure/rules/action-dispatcher.ts:43-58 | the fold over a fresh list and a fresh table yields: suppressed if any action suppresses, routes and escalations in order, the last tag for each key |
| Rules.FoldedAppend | packages/core/src/infrastructure/rules/action-dispatcher.ts:17-58 | folding is a homomorphism from concatenation of action lists |
| Rules.TagsAppend | packages/core/src/infrastructure/rules/action-dispatcher.ts:30-33 | later tags override earlier ones |
| Rules.TagValue | packages/core/src/infrastructure/rules/action-dispatcher.ts:30-33 | the value of a tag is that of the last action that sets its key |
| Rules.CompileSection | packages/core/src/infrastructure/rules/rule-engine.ts:54-60 | every rule is compiled once, to objects of its own |
| Rules.RuleEngine.EvaluateRules | packages/core/src/infrastructure/rules/rule-engine.ts:62-83 | if no rule matches the result suppresses, routes, escalates and tags nothing; otherwise it suppresses exactly if an action of the first matching rule does, and hands out that rule's own list and table; this equals the direct interpreter on the rules as written and changes nothing |
| Rules.RuleEngine.EvaluateAll | packages/core/src/infrastructure/rules/rule-engine.ts:62-83 | although results share lists and tables, each of any number of evaluations gives what the interpreter gives and leaves the earlier results as they were |
| Rules.RuleEngine.EvaluatePreLlm | packages/core/src/infrastructure/rules/rule-engine.ts:36-38 | pre-model evaluation interprets the pre-model rules without an analysis |
| Rules.RuleEngine.EvaluatePostLlm | packages/core/src/infrastructure/rules/rule-engine.ts:45-50 | post-model evaluation interprets the post-model rules with the analysis |
| Rules.InterpretFirst | packages/core/src/infrastructure/rules/rule-engine.ts:67-81 | every rule before the deciding one fails to match, and without a match the result is not suppressed and empty |
| Rules.InterpretDecided | packages/core/src/infrastructure/rules/rule-engine.ts:67-74 | the first rule that matches suppresses exactly if one of its actions does, and gives its routes and escalations in order, its tags and its id |
| Rules.InterpretNone | packages/core/src/infrastructure/rules/rule-engine.ts:76-81 | without a match nothing is suppressed, routed, escalated or tagged |
| Rules.DropAnalysisOnly | packages/core/src/infrastructure/rules/condition-evaluator.ts:73-93 | dropping the pre-model rules that ask about the analysis changes no result |
| Routing.SuppressedIff | packages/core/src/application/use-cases/process-incident.use-case.ts:131-144 | a cluster is suppressed exactly if there is a rules file, some pre-model rule matches and the first that does has a suppressing action |
| Routing.PlanMeaning | packages/core/src/application/use-cases/process-incident.use-case.ts:146-256 | the first send goes to the channel of the first route among the actions of the deciding pre-model rule, or to the default if there is none; after it comes one send for each escalation of that rule and then of the deciding post-model rule, in order, and none of the latter without an analysis |
| Routing.LabelRulesDropped | packages/core/src/infrastructure/rules/condition-evaluator.ts:62-71 | what is left out are exactly the rules that ask for labels, and their conditions match no cluster that grouping builds |
| Routing.LabelRulesDead | packages/core/src/infrastructure/rules/condition-evaluator.ts:62-71 | for every cluster that grouping builds and every analysis, leaving out the rules that ask for labels changes neither evaluation nor the plan |
| Routing.PlanWithinReferenced | packages/core/src/application/use-cases/process-incident.use-case.ts:146-255 | no cluster and no analysis can make a send name a channel that no rule references |
| Routing.ChannelNotifierMeaning | packages/core/src/infrastructure/notifier/factory.ts:56-85 | a Slack entry gives a notifier for the channel it names, a Teams entry one for the address in its variable, each exactly if its settings are there and valid |
| Routing.DefaultNotifierMeaning | packages/core/src/infrastructure/notifier/factory.ts:23-44 | the default notifier for each notifier type, and exactly when it cannot be built |
| Routing.ChannelRegistry.Resolve | packages/core/src/infrastructure/rules/channel-registry.ts:33-44 | a registered channel resolves to its notifier, any other to the default, and it throws exactly when there is neither |
| Routing.ChannelRegistry.Register | packages/core/src/infrastructure/rules/channel-registry.ts:16-18 | the entry is set or replaced, nothing else changes |
| Routing.RoutingNotifier.Send | packages/core/src/infrastructure/notifier/routing-notifier.ts:73-172 | a send falls back exactly when it names an unregistered channel |
| Routing.CollectUnresolvedChannels | packages/core/src/infrastructure/notifier/factory.ts:144-167 | the list has no repetition and holds exactly the referenced channels that are not registered |
| Routing.CreateNotifier | packages/core/src/infrastructure/notifier/factory.ts:104-134 | startup succeeds exactly when the default notifier and every configured channel can be built and every referenced channel is configured; the registry then holds the last entry of each name |
| Routing.ChannelTableKeys | packages/core/src/infrastructure/notifier/factory.ts:115-119 | the table can be built exactly if every entry can, and has the channels of the entries and no others |
| Routing.ChannelTableEntry | packages/core/src/infrastructure/notifier/factory.ts:115-119 | under each channel stands the notifier of the last entry for it |
| Routing.SendPlanned | packages/core/src/infrastructure/notifier/routing-notifier.ts:73-82 | after an accepted startup every planned send reaches the notifier that the last entry for the channel it names describes, and the fallback is never taken |
| Routing.SendUnchecked | packages/core/src/infrastructure/notifier/routing-notifier.ts:73-172 | against any registry a planned send falls back exactly when its channel is not registered, and only for rules that the startup check refuses |
| Routing.UncheckedFallsBack | packages/core/src/infrastructure/notifier/factory.ts:124-130 | a channel that any plan names and the registry lacks is found by the startup check |
| Fingerprints.NormalMeaning | packages/core/src/domain/value-objects/fingerprint.ts:14-18 | normalising cuts white space off both ends, turns capitals into small letters and changes nothing else |
| Fingerprints.KeyText | packages/core/src/domain/value-objects/fingerprint.ts:13-18 | the key is normalised service name, type and normalised endpoint, separated by bars |
| Fingerprints.SameClusterIff | packages/core/src/domain/value-objects/fingerprint.ts:13-22 | with a collision-free hash, and unless one service name shadows the other, two alerts share a fingerprint exactly when their normalised triples agree |
| Fingerprints.NoBarNoShadow | packages/core/src/domain/value-objects/fingerprint.ts:14-18 | a service name without a bar is never shadowed |
| Fingerprints.ShadowCollides | packages/core/src/domain/value-objects/fingerprint.ts:14-18 | if one service name shadows the other, different triples of the two share a fingerprint, whatever the hash |
| Fingerprints.CollisionIff | packages/core/src/domain/value-objects/fingerprint.ts:13-22 | two services can collide exactly when one name goes on where the other ends with a bar and a type name, and then ends or has a bar followed by no white space |
| Clustering.BuildClusters | packages/core/src/domain/services/clustering.service.ts:16-27 | the grouping loop over a mutable table yields one cluster for each distinct fingerprint, in order of first appearance, and each reports its group as the next member says |
| Clustering.ClusterContents | packages/core/src/domain/services/clustering.service.ts:29-72 | every cluster looks like the first earliest alert of its group and counts the group; fewer than one percent of the group are slower than its percentile and at least one percent are slower than anything below it; its traces are at most two distinct ones, none exactly if no alert has one, the first that of the earliest traced alert and the last that of a slowest one, ties going to the earliest and then to input order |
| Clustering.GroupAt | packages/core/src/domain/services/clustering.service.ts:16-26 | a group holds the alerts of its fingerprint, in input order and each once |
| Clustering.ClustersPartition | packages/core/src/domain/services/clustering.service.ts:16-52 | clusters come in order of first appearance with distinct fingerprints, none is empty, and their alert counts add up to the number of alerts |
| Clustering.EveryAlertClustered | packages/core/src/domain/services/clustering.service.ts:19-26 | every alert belongs to exactly one cluster, found under its fingerprint |
| Clustering.InputOrderIrrelevant | packages/core/src/domain/services/clustering.service.ts:29-52 | permuting the alerts changes neither which clusters there are nor their count, first-seen instant or percentile |
| Clustering.FirstSeenSpelling | packages/core/src/domain/services/clustering.service.ts:30-49 | for every group, the first-seen date depends on the input order exactly when its earliest instant is spelled in two ways |
| Clustering.ClusterHead | packages/core/src/domain/services/clustering.service.ts:30-51 | a cluster takes service, type, endpoint and first-seen date from its earliest alert, the first such in input order, counts all its alerts and has no labels |
| Clustering.P99IndexInRange | packages/core/src/domain/services/clustering.service.ts:39-40 | the percentile index is always in range, so clamp and default never apply, and is the last one exactly up to 100 alerts |
| Clustering.P99Rank | packages/core/src/domain/services/clustering.service.ts:37-40 | fewer than one percent of the latencies exceed the percentile, at least one percent reach it, and up to 100 alerts it is the maximum |
| Clustering.SampleTraceIdsShape | packages/core/src/domain/services/clustering.service.ts:54-72 | at most two sampled traces, distinct, none exactly when no alert has one |
| Clustering.SampleTraceIdsChoice | packages/core/src/domain/services/clustering.service.ts:61-71 | the first belongs to the earliest traced alert with ties by input order, the last to a traced alert of maximal latency |
| Polling.OneQueryPerRule | packages/ingest/src/polling/ingest-runner.ts:88-111 | with pairwise distinct keys no run of ticks, completions, starts and stops has two queries of one rule in flight |
| Polling.TickStarts | packages/ingest/src/polling/ingest-runner.ts:88-111 | a tick starts a query for every rule that is not tracked and for no other |
| Polling.StopWaits | packages/ingest/src/polling/ingest-runner.ts:75-82 | a `stop` ends the ticking and waits for exactly the queries in flight |
| Polling.TimersAlive | packages/ingest/src/polling/ingest-runner.ts:63-82 | in every run the intervals alive are that of the latest start, unless stopped, and one for each start that came on top of another |
| Polling.StopClears | packages/ingest/src/polling/ingest-runner.ts:75-82 | after a `stop` only the intervals of starts that came on top of another are alive |
| Polling.StopIsFinal | packages/ingest/src/polling/ingest-runner.ts:75-82 | when `stop` resolves no query runs, and none runs later until `start` is called again |
| Polling.InvRun | packages/ingest/src/polling/prometheus-ingest-runner.ts:83-127 | in every reachable state the tracked queries are exactly those running and a pending stop awaits all of them |
| Polling.SafeIffNamesDistinct | packages/ingest/src/config/ingest-config.schema.ts:60-73 | tracking by name is safe in all runs exactly when the names are pairwise distinct |
| Polling.EnsureUniqueRuleNames | packages/ingest/src/config/ingest-config.schema.ts:60-73 | the check passes exactly when the names are pairwise distinct, and otherwise reports one that is repeated |
| Polling.IndexKeyInjective | packages/ingest/src/polling/prometheus-ingest-runner.ts:106-117 | a key of name and index determines both, whatever characters the name contains |
| Polling.IndexKeysDistinct | packages/ingest/src/polling/prometheus-ingest-runner.ts:106-117 | for distinct rule objects the keys are distinct even with repeated names, and a rule is looked up where it is tracked |
| Polling.SharedObjectDoubles | packages/ingest/src/polling/prometheus-ingest-runner.ts:114-117 | a rule object listed twice is launched again by the next tick |
| Polling.SafeIffObjectsDiffer | packages/ingest/src/polling/prometheus-ingest-runner.ts:100-127 | tracking by name and index is safe in all runs exactly when no rule object is listed twice |
| PollingRunners.IngestRunner.OnTick | packages/ingest/src/polling/ingest-runner.ts:88-111 | the filter and launch loops perform one tick of the protocol |
| PollingRunners.IngestRunner.Start | packages/ingest/src/polling/ingest-runner.ts:63-70 | an immediate tick, then a new interval |
| PollingRunners.IngestRunner.OnSettled | packages/ingest/src/polling/ingest-runner.ts:104-106 | a settled query leaves the map under its rule's name |
| PollingRunners.IngestRunner.Stop | packages/ingest/src/polling/ingest-runner.ts:75-82 | stopping clears the last interval and awaits the queries tracked at that moment |
| PollingRunners.PrometheusIngestRunner.OnTick | packages/ingest/src/polling/prometheus-ingest-runner.ts:100-127 | the filter by position and the launch by identity perform one tick of the protocol, with set and map in step |
| PollingRunners.PrometheusIngestRunner.IndexOfRule | packages/ingest/src/polling/prometheus-ingest-runner.ts:116 | the search returns the first position of the rule object |
| PollingRunners.PrometheusIngestRunner.OnSettled | packages/ingest/src/polling/prometheus-ingest-runner.ts:118-121 | a settled query leaves the set and the map under its key |
| PollingRunners.PrometheusIngestRunner.Stop | packages/ingest/src/polling/prometheus-ingest-runner.ts:86-94 | stopping clears the last interval and awaits the queries tracked at that moment |
| Csv.ParseRow | packages/worker/src/adapters/csv-input.adapter.ts:153-171 | the loop computes the row of the specification that the next three members characterise |
| Csv.RowField | packages/worker/src/adapters/csv-input.adapter.ts:153-171 | there is one field more than commas outside quotes, and field k is what lies between two such commas without its quotes, trimmed |
| Csv.CutsComplete | packages/worker/src/adapters/csv-input.adapter.ts:160-164 | every comma preceded by an even number of double quotes separates two fields |
| Csv.CutsSound | packages/worker/src/adapters/csv-input.adapter.ts:160-164 | nothing else separates fields |
| Text.TrimCut | packages/worker/src/adapters/csv-input.adapter.ts:163-169 | trimming cuts off the white space at the two ends and nothing else |
| Text.SpaceMeaning | packages/worker/src/adapters/csv-input.adapter.ts:163-169 | which characters count as white space |
| Text.LowerAt | packages/core/src/domain/value-objects/fingerprint.ts:14-17 | lower-casing replaces each capital by its small letter and keeps every other character |
| Csv.RoundTripValue | packages/worker/src/adapters/csv-input.adapter.ts:153-171 | any non-empty row written by rules 5 to 7 of section 2 of RFC 4180 comes back with all quotes removed and every field trimmed |
| Csv.RoundTripIff | packages/worker/src/adapters/csv-input.adapter.ts:153-171 | it comes back unchanged exactly when it is non-empty and its fields are trimmed and free of quotes |
| OpenRouter.WithoutMember | packages/core/src/infrastructure/llm/openrouter.provider.ts:64-65 | the fallback list holds exactly the configured models other than the primary |
| OpenRouter.WithoutAt | packages/core/src/infrastructure/llm/openrouter.provider.ts:64-65 | they keep the order in which they are configured |
| OpenRouter.NeverTwiceIff | packages/core/src/infrastructure/llm/openrouter.provider.ts:64-65 | in no run is a fallback asked twice, if and only if that list has no repetition |
| OpenRouter.OpenRouterProvider.Analyze | packages/core/src/infrastructure/llm/openrouter.provider.ts:70-181 | the whole contract of a call: models asked, waits, hops and outcome, for every behaviour of network and clock |
| OpenRouter.OpenRouterProvider.AnalyzeFallback | packages/core/src/infrastructure/llm/openrouter.provider.ts:183-241 | the fallback loop completes that contract from two rate limits on |
| OpenRouter.LawfulUnique | packages/core/src/infrastructure/llm/openrouter.provider.ts:70-241 | the contract determines outcome and log completely |
| OpenRouter.RequestsMeaning | packages/core/src/infrastructure/llm/openrouter.provider.ts:81-235 | the requests of a call: the primary model, once more after a 429, then the fallbacks in order, each after a 429 and before the deadline, for as long as that goes on; with the hops and the wait between |
| OpenRouter.OutcomeMeaning | packages/core/src/infrastructure/llm/openrouter.provider.ts:83-241 | how a call ends, from the reply to its last request: analysis, model and latency, or which failure |
| OpenRouter.SuccessIff | packages/core/src/infrastructure/llm/openrouter.provider.ts:83-238 | a call succeeds exactly when some model of the plan answers, all before it were rate limited and each fallback came before the deadline; it reports that model, and the trailing throw is unreachable |
| OpenRouter.FallbackEntry | packages/core/src/infrastructure/llm/openrouter.provider.ts:118-193 | fallbacks are asked only after two rate limits and before the deadline, never the primary again, at most 2 + n requests and one wait in all |
| OpenRouter.WaitMeaning | packages/core/src/infrastructure/llm/openrouter.provider.ts:119-123 | the wait is what the server asks for up to 30 seconds, and five seconds if it asks for none |
| OpenRouter.WaitBounds | packages/core/src/infrastructure/llm/openrouter.provider.ts:119-123 | the wait is positive and at most 30 seconds, also when the server asks for more |
| Redaction.RedactAgain | packages/core/src/shared/logger/redaction.ts:45-103 | redacting twice equals redacting once under the stricter environment, in particular redaction is idempotent on every JSON tree |
| Redaction.RedactAt | packages/core/src/shared/logger/redaction.ts:91-103 | the top-level keys and their order are kept, each with its redacted value |
| Redaction.RedactShape | packages/core/src/shared/logger/redaction.ts:27-103 | keys outside the whitelist get the placeholder, and whitelisted values other than errors pass unchanged exactly when none of their strings has to be cut |
| Redaction.TruncateMeaning | packages/core/src/shared/logger/redaction.ts:45-49 | a string of up to 1000 characters is kept, a longer one keeps its first 1000 and gets the suffix |
| Redaction.SafeMeaning | packages/core/src/shared/logger/redaction.ts:27-43 | the fields that may pass |
| Redaction.RedactBounded | packages/core/src/shared/logger/redaction.ts:45-103 | no string value of the output is longer than 1014 characters |
| Redaction.RevealsExactly | packages/core/src/shared/logger/redaction.ts:27-103 | two objects are logged alike exactly when they agree on keys and on what is shown of the safe fields; all other values leave no trace |
| Redaction.EssentialsText | packages/core/src/shared/logger/redaction.ts:70-82 | of an error object message, name and, in development, stack remain, truncated |
| Redaction.EssentialsOnly | packages/core/src/shared/logger/redaction.ts:70-82 | nothing but message, name and, in development, stack remains of an error object |
| Redaction.EssentialsShape | packages/core/src/shared/logger/redaction.ts:70-82 | and they come in this order, each once |
| Redaction.RedactError | packages/core/src/shared/logger/redaction.ts:70-82 | the assignments produce exactly these fields in this order |
| Redaction.ProductionStack | packages/core/src/shared/logger/redaction.ts:66-100 | outside development the error section still holds a stack exactly when the error is an array with one inside |

## Left out

- Lost answers: a claim whose answer is lost counts as not made, and a send that fails as not delivered; a port that did the work and then reported an error is not modelled.
- Clock skew: the store's expiries and all workers read one clock.
- Hash function: SHA-256 is an uninterpreted function; collision freedom is a condition where it is needed.
- Text: lower-casing covers the letters A to Z only, and characters are not normalised.
- Numbers and dates: latencies and thresholds are reals, the percentile index is exactly 99 n / 100, dates are integers with a spelling; an unparsable date is not modelled.
- Tag keys and labels: names that collide with prototype properties of the host language are ordinary keys here.
- Rules file: it is read several times at startup and assumed not to change in between; YAML, JSON, URL and schema libraries are not modelled.
- `sendWithActions`: the routing notifier's other entry point sends to all routes where the use case sends to the first, and no modelled code calls it.
- Trace lookup, metrics, wide events and sampling: they do not influence delivery.
- Observers and indexing in the subscriber: they are assumed not to throw; an exception there would change the result of a message.
- Promise order: a settled task's or query's clean-up runs in the same step as its settling, where the host language runs it some microtasks later.
- Overlapping calls: `start` during a pending `stop`, and a second `stop`, are not steps of the model.
- Interval runners: the queries themselves, the mapping of their answers to alerts and the call of the use case are one opaque query.
- Model answers: reading the text of an answer is one of three outcomes (an analysis, none, or an exception); prompts are not modelled.
- The CSV body as a whole: column mapping, timestamps, extra labels and the row filter around the row reader would only add easy members.
- Circuit breaker, Slack and Teams rendering, deployment, configuration loading and the polling server script.
