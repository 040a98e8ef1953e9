# Inference scheduler: a verified model

A Dafny model of the inference scheduler: the mutex-guarded state machine that
admits requests, orders them by weighted fair queuing, forms batches, reserves
worker capacity, hands attempts to workers and takes their reports; the
persistence envelope and the binary state codec; the JSON printer and parser of
the message protocol; and the in-process driver loop.

`dafny verify dfyconfig.toml` checks the project.

## How it is built

- `Types`, `ReadyQueue`, `Ledger`, `Fleet`, `Batching`, `Machine`: the scheduler
  as a state machine on values. One transition per critical section; `Step` is
  the union of them and a run (`IsRun`) is a sequence of steps from the empty
  scheduler. Where the code walks an unordered container the order of the walk
  is part of the event; where it reads the clock, the instant is. A heap is a bag
  of entries, so whichever of two tied entries comes first is allowed.
- `Scheduler`, `Selector`: the same as an object with the implementation's fields
  and loops. Every method is proved against the transition it implements.
  `Service` is the public wrapper; its ghost trace shows that every history of
  the object is a run.
- `Lifecycle`, `Protocol`, `Selection`, `Fairness`, `Accounting`, `Reservations`,
  `Baseline`: theorems about every state of every run. `Leaks`, `Restarts`: exactly
  when batches and units survive what the first seven exclude.
- `Admissions`, `Choices`, `Charges`, `Reports`: what each operation decides, with every
  condition written out: submissions, selections, batches, workers and charges, and
  reports, cancellations and lost workers.
- `Drain`, `Driver`: the in-process driver and the drain of the queue.
- `Bytes`, `Envelope`, `Binary`, `Recovery`, `Limits`, `Continuation`, `Crashes`: the
  persistence formats, which states they hold, recovery, and the runs that go on after it.
- `Json`, `JsonParser`: the JSON printer and parser. `JsonGrammar`, `Truncation`: the
  texts of RFC 8259 they agree with, and what happens to a text that was cut.
- `Witnesses`, `Pairings`: short runs that reach the failing side of every exact condition.

Runs differ in what they assume of the environment. `FreshIds`: no identifier
supplied with a submission is in use. `ProtocolRun`: in addition, reports are
only about attempts that were handed to the reporting worker, but may be delayed,
duplicated and reordered at will. `SteadyRun`: no worker restarts or is removed.
`OrderlyRun`: both, and no reserved request is cancelled. `FairRun`: plan-next is
atomic, batches have one member, costs and weights are bounded.

## Where the code falls short of its documentation

The model follows the code. Each of these has a lemma that says exactly when the
promise holds, and a run or an input, named after the arrow, that reaches the
other side.

- A reused identifier puts the old record back into the queue, even a terminal one
  (`Lifecycle.ReuseRevives`, `Protocol.ReuseQueueExact` -> `Witnesses.RevivesCancelledRequest`,
  `Witnesses.ReusesQueuedId`).
- A completion does not check that the request was dispatched
  (`Protocol.CompleteQueueExact` -> `Witnesses.CompletesQueuedRequest`).
- Neither confirm nor complete checks that the reporting worker holds the batch
  (`Leaks.ConfirmExact`, `Leaks.CompleteExact` -> `Witnesses.WrongWorkerReports`). In orderly
  runs it always does (`Baseline.ReportersHold`); in protocol runs with restarts it may not
  (-> `Witnesses.ConfirmsForgottenBatch`).
- Cancelling a reserved request does not release its batch member, and the units stay booked
  (`Leaks.CancelReservedExact`, `Leaks.CancelReservedInRuns`, `Leaks.CancelledUnitsStayBooked` ->
  `Witnesses.CancelsReservedRequest`).
- A tenant's queued count can fall below the true number
  (`Accounting.CountSlips`, `Accounting.FinishCancelledTenants` -> `Witnesses.CountFallsShort`).
- Recovering a restarted worker takes its started batches off the wrong side
  (`Restarts.ClearWorkerExact`, `Restarts.RestartExact`, `Restarts.RegisterExact`,
  `Restarts.UnregisterExact` -> `Witnesses.RestartLosesUnits`).
- It also forgets requests that were reserved but not confirmed
  (`Restarts.RegisterBatchesExact`, `Restarts.RestartInRuns` -> `Witnesses.ConfirmsForgottenBatch`).
- Heap order uses the slack recorded at entry, not the absolute deadline
  (`Selection.DeadlineOrderExact`, `Selection.FlowYieldsExact` -> `Witnesses.LaterDeadlineFirst`).
- Running units are not subtracted from availability; the code trusts what the
  worker reports. And a batch's rounded cost is compared with a worker's capacity where
  its rounded costs are booked (`Reservations.TrustExact`, `Reservations.DispatchBooks`,
  `Reservations.NoOversubscription` -> `Witnesses.Oversubscribes`, `Pairings.RoundingOverfills`).
- A batch is formed without looking at any worker's capacity, so one that is too
  large blocks the head of the queue (`Drain.DispatchExact`, `Drain.BlockedForGood` ->
  `Witnesses.BatchBlocksQueue`).
- A compatibility bucket may mix phases, or an adapter 0 with none, that its head's
  worker does not support (`Batching.HeadSpeaksForMember` -> `Pairings.MixesPhases`,
  `Pairings.MixesAdapters`).
- Recovery restores the global unit totals but not the workers' bookings
  (`Recovery.RecoveredUnitsExact`, `Continuation.RecoveredIsSound` -> `Witnesses.RecoversWrongTotals`).
- A dispatch between the last save and a crash is forgotten: the request is queued again under
  an attempt that a worker already has (`Crashes.CrashExact`, `Crashes.CrashInRuns`,
  `Continuation.RecoveredIsSound` -> `Witnesses.CrashForgetsDispatch`).
- Object keys are printed without escapes (`Json.ObjectKeyExact` -> `Json.QuoteKeyIsLost`).
- Numbers printed with a negative exponent are not read back
  (`Json.NumberExact` -> `Json.NegativeExponentIsLost`).

## Model

| member | source | states |
|---|---|---|
| `ReadyQueue.InsertKeepsIndex` | src/scheduler.cpp:437-440 | Queuing a request keeps the queued set, its counter and the compatibility buckets equal to the requests in state Queued. |
| `ReadyQueue.RemoveKeepsIndex` | src/scheduler.cpp:443-447 | Dequeuing keeps them equal too, whether or not the request was queued, and leaves no empty bucket. |
| `ReadyQueue.PushKeepsHeaps` | src/scheduler.cpp:426-436 | Pushing an entry under a new generation keeps exactly one live entry per queued request, in its own flow, and active flows exactly the non-empty ones. |
| `ReadyQueue.PruneKeepsHeaps` | src/scheduler.cpp:480-491 | Popping stale entries loses no queued request's entry. |
| `Ledgers.AdmitKeepsExact` | src/scheduler.cpp:317-318 | Counting an admission keeps both admitted counters equal to the numbers of open requests. |
| `Ledgers.RetireKeepsExact` | src/scheduler.cpp:456-457 | Counting a closed request keeps them equal; neither guard against a negative counter is ever needed. |
| `Fleets.OpenBatchConserves` | src/scheduler.cpp:735-737 | Reserving a fresh batch keeps reserved and running units, per worker and globally, equal to the sums over batches. |
| `Fleets.StartBatchConserves` | src/scheduler.cpp:776-780 | So does turning a reservation into running units at the first confirmation. |
| `Fleets.ReleaseBatchExact` | src/scheduler.cpp:608-619 | With the books right, a release takes exactly the batch's units off the side they are booked on; none of the four clamps fires. |
| `Fleets.ReleaseBatchConserves` | src/scheduler.cpp:608-621 | A release keeps the books right, for any worker and batch id. |
| `Fleets.ReleaseMemberConserves` | src/scheduler.cpp:622-631 | So does taking one member off a worker. |
| `Batching.HeadSpeaksForMember` | src/scheduler.cpp:395-418 | Within one bucket, every worker that can run the head can run the member if and only if they agree on the phase and the member needs no adapter the head does not need. |
| `Batching.BucketIsCompatible` | src/scheduler.cpp:269-276 | With phase mixing off and adapter id 0 unused that always holds: a worker compatible with the head is compatible with every member. |
| `Batching.OrderedUnique` | src/scheduler.cpp:529-537 | Two sorted enumerations of the same candidates are the same sequence. |
| `Batching.TakeIsLongest` | src/scheduler.cpp:538-543 | The cut is at the longest prefix of the candidates within the size and token caps. |
| `Batching.BatchUnique` | src/scheduler.cpp:507-545 | The batch does not depend on the order in which the bucket is enumerated. |
| `Batching.BatchMembers` | src/scheduler.cpp:507-545 | A batch is the seed first, then different, queued, not overdue requests of its bucket, at most as many as the limit allows. |
| `Batching.UnitsVersusCost` | src/scheduler.cpp:719-720 | For n >= 1 costs: ceil(sum of max(1,c)) <= sum of rounded costs <= ceil(sum of max(1,c)) + n - 1. |
| `Batching.WholeCostsExact` | src/scheduler.cpp:719-720 | With whole costs the two sums are equal. |
| `Batching.SecondCheckPasses` | src/scheduler.cpp:728-733 | The second capacity check never refuses a selected worker for a batch of one or for whole costs. |
| `Lifecycle.StepProgress` | src/scheduler.cpp:281-1001 | Every step with fresh ids moves every request forward only: specs stay, terminal records stay, attempts are only appended and under identifiers issued by the step itself, a rank bounding the state changes ahead falls with each change. |
| `Lifecycle.TerminalIsFinal` | src/scheduler.cpp:792-817 | In every run a terminal request never changes again in any field. |
| `Lifecycle.AttemptsBounded` | src/scheduler.cpp:675-697 | In every state of every run a request has between 1 and max(1, max_attempts) attempts, with different ids, all but the last failed. |
| `Lifecycle.StateChangesBounded` | src/scheduler.cpp:632-697 | A request changes state at most 3 * max(1, max_attempts) times. |
| `Lifecycle.CancellationIsFinal` | src/scheduler.cpp:820-834 | After cancel has succeeded, no continuation of the run completes the request or gives it another attempt. |
| `Lifecycle.AcceptanceUsesUpAttempt` | src/scheduler.cpp:803-815 | An accepted completion leaves the request terminal or on another attempt, the reported one superseded. |
| `Lifecycle.AcceptedAtMostOnce` | src/scheduler.cpp:792-817 | In every run no two accepted completions carry the same request, attempt and generation. |
| `Lifecycle.AuthorityIsLost` | src/scheduler.cpp:765-802 | In every state of every run a report is refused by confirm and complete, and changes nothing, unless it names the present epoch, a registered boot identity and the current attempt and generation of an open request. Authority lost by a new epoch, by the request ending or by a later attempt is lost for ever. |
| `Reports.GroundExact` | src/scheduler.cpp:792-802 | A completion report is turned away if and only if a ground applies: epoch, worker or boot identity, unknown request, attempt or generation, closed request, committed cancellation. The answer is the first that does, and nothing changes. |
| `Reports.FailureExact` | src/scheduler.cpp:811-815 | After a failed or ambiguous outcome the request is queued again under one more attempt if and only if the failure is of transport or worker, or an ambiguous dispatch where those are retried, no cancellation was requested or committed, attempts are left and the deadline, if any, lies ahead. Otherwise it is failed. |
| `Reports.NewAttempt` | src/scheduler.cpp:682-697 | The attempt of a retry has an identifier that no attempt of the request had before. |
| `Reports.OutcomeExact` | src/scheduler.cpp:803-810 | A success completes the request, or cancels it if its cancellation was requested; a cancelled outcome cancels, an expired one expires, a stale one only marks the attempt; each with its answer, and no other request changes. |
| `Reports.StartExact` | src/scheduler.cpp:765-775 | A start is confirmed if and only if none of seven grounds applies; otherwise the code is that of the first, and nothing changes. |
| `Reports.StartedExact` | src/scheduler.cpp:776-791 | A confirmed start: the request runs on the reporting worker, which has it in flight, is busy if it was online, and has the reported availability; the units of the batch move from reserved to running with its first member; nothing else changes. |
| `Reports.CancelExact` | src/scheduler.cpp:820-834 | Cancelling an unknown or closed request is refused and changes nothing; a running one is only marked; every other one is cancelled at once and leaves the queue. |
| `Reports.CancelAllExact` | src/scheduler.cpp:991-996 | Cancelling everything queued cancels exactly the queued requests and leaves the queue empty. |
| `Reports.LostExact` | src/scheduler.cpp:850-864 | Of the requests in flight on a lost worker each open one is queued again under one more attempt if another may be made, and has failed if not; no other request changes. |
| `Reports.RegisteredExact` | src/scheduler.cpp:835-849 | A registered worker has the boot identity, capability and availability registered and is online unless it said otherwise; another boot identity loses what was in flight; in every other case requests and bookings stay; other workers are not touched. |
| `Reports.RemovedExact` | src/scheduler.cpp:885-892 | Removing a worker loses what it had in flight, and the worker, and touches no other. |
| `Reports.ReleasedExact` | src/scheduler.cpp:608-631 | A request leaves a worker: not in flight there any more; a batch with other pending members has one less; with its last one the batch is forgotten, its units come off the side they are booked on, not below zero, and a busy worker left without units is online. |
| `Reports.UpdatedExact` | src/scheduler.cpp:870-884 | A new capability replaces the old one and says what is available; a new state replaces the old one and availability changes only with a snapshot; nothing else changes, and nothing for an unknown worker. |
| `Lifecycle.ReuseRevives` | src/scheduler.cpp:286-316 | Whatever the step, a terminal request stays as it is if and only if its own id is not reused by an admitted submission; if it is, the old record is queued again and the new specification dropped. |
| `Protocol.CompleteQueueExact` | src/scheduler.cpp:799-815 | A completion that passes the checks keeps the queue in order if and only if the request is not queued or the report says stale or cancelled. |
| `Protocol.ReuseQueueExact` | src/scheduler.cpp:307-318 | A submission keeps the queue in order if and only if it is not an admission under the id of a request that is queued or of whose generation a heap still holds an entry. |
| `Protocol.DispatchHands` | src/scheduler.cpp:739-749 | A dispatch hands out attempts of requests that were queued until then and are reserved after, attempt and generation unchanged. |
| `Protocol.StepProtocol` | src/scheduler.cpp:426-892 | Every step, with reports delayed, duplicated and reordered at will, keeps the whole protocol invariant. |
| `Protocol.RunProtocol` | src/scheduler.cpp:426-892 | The invariant holds in every state of every such run. |
| `Protocol.QueueIsSafe` | src/scheduler.cpp:426-450 | In every such state: a queued request's attempt was never handed out, no attempt was handed out twice, queued_ is exactly the requests in state Queued, global_queued_ its size, compat_ its partition by key. |
| `Protocol.HeapsFollowQueue` | src/scheduler.cpp:426-450 | In every such state every queued request has exactly one ready-heap entry of its current generation, in its own flow and no other, and a flow is active exactly when its heap is not empty. |
| `Protocol.ScanLeaves` | src/scheduler.cpp:461-468 | The expiry scan removes exactly the overdue requests from the queue and touches no other queued request. |
| `Selection.LiveTopIsHead` | src/scheduler.cpp:483-490 | A live entry on top of a heap belongs to the request of that flow with least recorded slack, then highest priority, then smallest id. |
| `Selection.WinnerIsNext` | src/scheduler.cpp:492-498 | The winner of the flow loop is the head of the flow with the least effective finish time, ties by flow key. |
| `Selection.PickIsNext` | src/scheduler.cpp:477-499 | The selector returns nothing if and only if every queued request is overdue; otherwise the plain minimum, stated without heaps or stale entries. No finish time changes. |
| `Selection.NextIsUnique` | src/scheduler.cpp:477-499 | There is only one such request. |
| `Selection.DeadlineOrderExact` | src/scheduler.cpp:57-63 | For two requests of one flow that entered in time: which is ahead in the heap depends on the whole milliseconds left on entry. On the millisecond the first is ahead if and only if the second's delay in entering is less than the distance of their deadlines, or equal with the smaller id first; otherwise that holds to within one millisecond. |
| `Selection.FlowYieldsExact` | src/scheduler.cpp:430-499 | A selection takes a given request from its flow if and only if that request passes, in this sense, every other request left in the flow, requests without a deadline included; an earlier deadline alone does not decide. |
| `Choices.NeverMovesBack` | src/scheduler.cpp:469-476 | With what a flow competes never grows as the deadline of its head approaches, for any finish time and deadline, if and only if boosting is off, its threshold negative or its divisor at least one. |
| `Choices.PickExact` | src/scheduler.cpp:461-499 | A selection returns a given request if and only if it passes every other queued request of its flow and its flow stands before that of every other such request: by finish time, divided by the boost when the head's deadline is less than a millisecond beyond the threshold away, then by tenant, latency class, phase and priority. |
| `Choices.NeverPicksOverdue` | src/scheduler.cpp:477-499 | In whatever state it is made, a selection never returns a request that is overdue or not in the queue. |
| `Choices.DeadlinesComeFirst` | src/scheduler.cpp:529-537 | In a batch a request without a deadline gives way to every one with a deadline. |
| `Choices.BatchExact` | src/scheduler.cpp:507-545 | The members of a batch after the seed are queued, not overdue, and ask for the same model, revision, adapter, latency class and, unless mixed, phase; they are in order of whole milliseconds left, then priority, then identifier; nobody left out is more urgent than a member; size and token caps hold, and the first one left out would break one of them. |
| `Choices.PlanExact` | src/scheduler.cpp:716-734 | For the batch of a queued request: a dispatch goes to a worker that can take it, that is, is online or busy, offers what the head asks for, and has room for the sum of the charges and for the units. It is held back only if a worker can take it but has no room for the units. No worker is eligible only if none can take it, or the one chosen has the invalid identifier. |
| `Choices.PlanRefused` | src/scheduler.cpp:700-715 | Planning for an unknown request is an error, and for no other; for an overdue one or one that does not wait it is held back, and an overdue one has left the queue. |
| `Choices.DispatchedTo` | src/scheduler.cpp:395-419 | Whenever a plan dispatches, the worker is online or busy, has units, and its model, revision, phase and, if one is needed, adapter lists are each empty or hold what the request asks for. |
| `Choices.DispatchedMembers` | src/scheduler.cpp:735-746 | The members of a dispatch were queued and are reserved in one fresh batch under the attempts they had. |
| `Choices.DispatchedUnits` | src/scheduler.cpp:717-737 | The worker has the sum of the members' costs, each rounded up to at least one, reserved, which it had room for, and one pending start for each member; nothing else of the fleet changes. |
| `Charges.WeightExact` | src/scheduler.cpp:255-263 | The weight of a flow is the product of the weights configured for its tenant, by first entry or default, its latency class, priority and phase. |
| `Charges.JoinExact` | src/scheduler.cpp:426-441 | A request that joins the queue adds one entry to its flow; an idle flow becomes active and starts at the later of its finish time and the virtual time; no other flow changes. |
| `Charges.ReserveCharges` | src/scheduler.cpp:500-506 | A dispatch adds to the finish time of every flow the charges of its members in the batch over its weight; heaps, weights and active flows stay. |
| `Charges.ChargeExact` | src/scheduler.cpp:500-506 | In every protocol run, what a dispatch adds to a flow is the sum of its members' costs, each at least one, over the product of the configured weights. |
| `Charges.DoublingHalves` | src/scheduler.cpp:255-263 | Doubling any one weight that applies to a request doubles the share of its flow and halves every charge. |
| `Fairness.PushLag` | src/scheduler.cpp:428-436 | A flow that becomes active catches up with the virtual time; no flow's lag grows. |
| `Fairness.EffectiveBounds` | src/scheduler.cpp:469-476 | The boosted finish time is between the finish time divided by the boost and the finish time. |
| `Fairness.NextIsLeast` | src/scheduler.cpp:492-494 | The chosen flow's finish time is at most the boost times that of any active flow. |
| `Fairness.PlanFair` | src/scheduler.cpp:739-746 | A plan with batches of one charges its request's flow once, or changes nothing. |
| `Fairness.AccountLag` | src/scheduler.cpp:500-506 | Charging the chosen flow keeps every active flow within the lag. |
| `Fairness.LagBounded` | src/scheduler.cpp:426-506 | In every state of every run with atomic plan-next, batches of one, costs at most C, weights at least w and boost at most B: finish(j) <= virtual time <= B * finish(j) + C / w for every active flow j. |
| `Fairness.FlowsStayTogether` | src/scheduler.cpp:426-506 | Without boost any two active flows differ by at most C / w. |
| `Fairness.ServedInTime` | src/scheduler.cpp:477-506 | While a flow stays active and unserved, at most the sum over the flows i of floor((C/w) * w_i) + 1 dispatches go elsewhere, even when flows empty and return. |
| `Accounting.AdmittedCountsOpenRequests` | src/scheduler.cpp:281-337 | In every run with fresh ids, whatever workers report or however they restart, the admitted counters are the numbers of open requests and stay within their caps. |
| `Accounting.QueueWithinAdmissionCap` | src/scheduler.cpp:349-393 | Under the protocol the queue never exceeds the global admission cap, although retries bypass admission. |
| `Accounting.AdmitsExactly` | src/scheduler.cpp:349-419 | A submission is admitted if and only if the scheduler is not draining, the deadline lies ahead and leaves room for the cost where that is enforced, every limit has room for one more, and some registered worker, if any is registered, has units and offers the model, revision, phase and adapter, an empty list offering everything. |
| `Accounting.RefusalChangesNothing` | src/scheduler.cpp:323-336 | A submission that is not admitted leaves queue, counters, workers and known requests alone. |
| `Admissions.ReasonExact` | src/scheduler.cpp:349-393 | The reason given is the first that applies, in the order draining, deadline passed, deadline infeasible, admission cap, queue cap, token budget, tenant concurrency, tenant depth, no worker; none is given if and only if none applies. |
| `Admissions.DecisionExact` | src/scheduler.cpp:349-393 | Rejected if and only if draining, or the deadline has passed, or strict feasibility is on and the cost exceeds the whole milliseconds left while at least one is left; admitted if and only if no reason applies; deferred otherwise. |
| `Admissions.FreshSchedulerAdmits` | src/scheduler.cpp:212-222 | A scheduler that has just been made admits every submission without a deadline that fits its caps and token budget. |
| `Admissions.RefusedExact` | src/scheduler.cpp:281-347 | An error if and only if a field is malformed, and then nothing changes. A deferred submission stores no record, a rejected one exactly one, terminal and without an attempt, unless its identifier is taken. |
| `Admissions.AdmittedExact` | src/scheduler.cpp:281-323 | An admitted submission stores one queued record with one attempt; the answer names its identifier, attempt and generation, and a worker's success report built from the answer is accepted and completes the request. |
| `Admissions.StepMode` | src/scheduler.cpp:985-1001 | Draining begins with its own step and never ends; the epoch moves only when rolled over; settings and token count never change. |
| `Admissions.DrainIsFinal` | src/scheduler.cpp:985-990 | Once a run drains, every well-formed submission is rejected for that reason, for ever. |
| `Accounting.CountSlips` | src/scheduler.cpp:443-450 | Dequeuing a request that was not queued keeps a tenant's count an underestimate, and exact only if it was already zero. |
| `Accounting.FinishCancelledTenants` | src/scheduler.cpp:660-674 | Cancelling keeps the tenant counts at most the true counts; exactly when it also keeps them exact. |
| `Accounting.TenantQueuedAtMost` | src/scheduler.cpp:443-450 | In every run under the protocol a tenant's queued count is at most the true number, and equal to it while no held request was cancelled. |
| `Reservations.UnitsConserved` | src/scheduler.cpp:608-631 | In every run without restarts, whoever reports: reserved units are the sum of the batches not started, running units of those started, globals the sums over workers, nothing negative. |
| `Reservations.OpenRoom` | src/scheduler.cpp:728-737 | Comparing a batch only with available minus reserved is enough to keep reserved + running within the total. |
| `Reservations.ConfirmRoom` | src/scheduler.cpp:776-787 | A confirmation with an honest availability report keeps it so. |
| `Reservations.NoOversubscription` | src/scheduler.cpp:555-560 | In every run with honest reports and totals that do not shrink, reserved + running <= total after every step. |
| `Reservations.TrustExact` | src/scheduler.cpp:555-731 | Every batch of at most a given size that passes the capacity tests fits on the worker if and only if none passes, or the availability reported leaves room for what is running, or the worker is empty and batches have one member or the worker at most two units. |
| `Reservations.DispatchBooks` | src/scheduler.cpp:717-746 | A dispatch books the units of a batch within the size limit that passed exactly these tests; the worker stays within its capacity if and only if they fit. |
| `Reservations.TrustedDispatchFits` | src/scheduler.cpp:717-746 | So a dispatch to a worker for which the condition holds never exceeds its capacity. |
| `Baseline.PendingCountsMembers` | src/scheduler.cpp:735-746 | In every orderly run batch_pending is the number of requests still in the batch, at least one, all reserved or running, and a batch is on one worker only. |
| `Baseline.BackToBaseline` | src/scheduler.cpp:608-631 | When nothing is reserved or running every worker has zero units and empty batch maps, and the totals are zero. |
| `Baseline.ReportersHold` | src/scheduler.cpp:765-817 | In every orderly run a report that is taken comes from the worker that holds the request's batch, although neither confirm nor complete checks it. |
| `Baseline.ReleasedForGood` | src/scheduler.cpp:608-621 | A batch that is on no worker never comes back: it is released once. |
| `Leaks.ReleaseExact` | src/scheduler.cpp:622-631 | Releasing a request through some worker keeps the batches right if and only if that worker holds the request's batch. |
| `Leaks.ConfirmExact` | src/scheduler.cpp:765-791 | A start report that is taken keeps the batches right if and only if the reporting worker holds the batch. |
| `Leaks.CompleteExact` | src/scheduler.cpp:792-817 | So does a completion of a request in a batch, whatever its status. |
| `Leaks.CancelReservedExact` | src/scheduler.cpp:820-826 | Cancelling a reserved request keeps the batches right if and only if it is in no batch or the worker recorded for its last attempt holds the batch. |
| `Leaks.CancelReservedInRuns` | src/scheduler.cpp:820-826 | In every orderly run no worker is recorded yet, so it does if and only if the request is in no batch. |
| `Leaks.CancelledUnitsStayBooked` | src/scheduler.cpp:622-631 | Otherwise the batch stays on its worker with all its units in every state of every continuation without restarts, whatever else happens. |
| `Restarts.ClearWorkerExact` | src/scheduler.cpp:864-868 | Clearing a lost worker keeps the books right if and only if nothing was running on it. |
| `Restarts.RestartExact` | src/scheduler.cpp:850-869 | Recovering a lost worker's requests and clearing it keeps the books right if and only if every request of every started batch was in flight. |
| `Restarts.RegisterExact` | src/scheduler.cpp:835-849 | Registering a worker under a new boot identity keeps the books right if and only if every request of every started batch was in flight. |
| `Restarts.UnregisterExact` | src/scheduler.cpp:885-892 | Removing a worker keeps the books right if and only if every request of every started batch was in flight. |
| `Restarts.RestartBatchesExact` | src/scheduler.cpp:850-869 | Recovering a lost worker keeps the batches right if and only if every request of every batch on it was in flight. |
| `Restarts.RegisterBatchesExact` | src/scheduler.cpp:835-849 | The same of the whole registration. |
| `Restarts.RestartInRuns` | src/scheduler.cpp:784-869 | In every orderly run a restart keeps the batches right if and only if no request is reserved on the worker and not yet confirmed. |
| `Selector.TopExists` | src/scheduler.cpp:57-63 | A heap that is not empty has a top. |
| `Selector.AllPruned` | src/scheduler.cpp:480-496 | When every flow has been looked at, the heaps are pruned as specified. |
| `Selector.LeastWins` | src/scheduler.cpp:493-498 | The best flow kept by the loop wins the selection. |
| `Schedulers.Scheduler.constructor` | src/scheduler.cpp:212-219 | A new scheduler is the empty state at the given epoch, or 1. |
| `Schedulers.Scheduler.TenantWeightOf` | src/scheduler.cpp:255-258 | The first weight configured for the tenant, or the default. |
| `Schedulers.Scheduler.FlowWeight` | src/scheduler.cpp:259-263 | The product of the four weights, which the flow key determines. |
| `Schedulers.Scheduler.IsCompatible` | src/scheduler.cpp:395-418 | The linear searches decide capability compatibility. |
| `Schedulers.Scheduler.AnyCompatible` | src/scheduler.cpp:388-391 | True exactly when some registered worker is compatible. |
| `Schedulers.Scheduler.MakeAdmission` | src/scheduler.cpp:349-393 | Decision and reason of the admission function on the current state. |
| `Schedulers.Scheduler.PushEntry` | src/scheduler.cpp:427-436 | The fair queue after the push. |
| `Schedulers.Scheduler.InsertIndex` | src/scheduler.cpp:437-440 | The index after the insertion. |
| `Schedulers.Scheduler.EnqueueRequest` | src/scheduler.cpp:426-442 | The whole state after queuing a request. |
| `Schedulers.Scheduler.Dequeue` | src/scheduler.cpp:443-450 | Index and ledger after dequeuing; nothing else changes. |
| `Schedulers.Scheduler.ExpireRequest` | src/scheduler.cpp:451-460 | The whole state after expiring a request; one that is not queued is left alone. |
| `Schedulers.Scheduler.DueNow` | src/scheduler.cpp:462-466 | The queued requests that are overdue, each once. |
| `Schedulers.Scheduler.ExpireScan` | src/scheduler.cpp:461-468 | The state after expiring exactly those, in some order. |
| `Schedulers.Scheduler.PruneFlow` | src/scheduler.cpp:483-490 | One heap after its stale entries were popped: every live entry kept, a live one on top if any. |
| `Schedulers.Scheduler.TopFinish` | src/scheduler.cpp:492-493 | The effective finish time of the flow, whichever entry ties for the top. |
| `Schedulers.Scheduler.VisitFlow` | src/scheduler.cpp:480-496 | One turn of the flow loop keeps its invariant: best so far is least among the flows seen. |
| `Schedulers.Scheduler.PickSeed` | src/scheduler.cpp:477-499 | The selection on a state from which everything due has been expired. |
| `Schedulers.Scheduler.AccountFlow` | src/scheduler.cpp:500-506 | Finish time and virtual time after the charge. |
| `Schedulers.Scheduler.CollectCandidates` | src/scheduler.cpp:518-528 | The candidates of the seed's bucket, each once. |
| `Schedulers.Scheduler.SortCandidates` | src/scheduler.cpp:529-537 | The same candidates in batch order. |
| `Schedulers.Scheduler.CutBatch` | src/scheduler.cpp:538-543 | How many of them join. |
| `Schedulers.Scheduler.FormBatch` | src/scheduler.cpp:507-545 | The batch of a seed. |
| `Schedulers.Scheduler.IsEligible` | src/scheduler.cpp:553-562 | The eligibility tests of the scorer. |
| `Schedulers.Scheduler.SelectWorker` | src/scheduler.cpp:593-607 | An eligible worker of highest score, smallest id among equals; none if none is eligible. |
| `Schedulers.Scheduler.ReleaseBatch` | src/scheduler.cpp:608-621 | The workers and totals after releasing a batch, clamps included. |
| `Schedulers.Scheduler.ReleaseBatchMember` | src/scheduler.cpp:622-631 | The workers after taking a request off one, and the request's record; an unknown worker changes nothing. |
| `Schedulers.Scheduler.FinishRequest` | src/scheduler.cpp:632-659 | The whole state after finishing a request as completed, failed or expired. |
| `Schedulers.Scheduler.FinishCancelledRequest` | src/scheduler.cpp:660-674 | The whole state after cancelling a request; a terminal one is left alone. |
| `Schedulers.Scheduler.MayRetry` | src/scheduler.cpp:675-681 | Whether a request may be retried. |
| `Schedulers.Scheduler.RetryRequest` | src/scheduler.cpp:682-697 | The whole state after a retry. |
| `Schedulers.Scheduler.BatchDemand` | src/scheduler.cpp:719-720 | Cost and units of a batch. |
| `Schedulers.Scheduler.ReserveMember` | src/scheduler.cpp:739-746 | The whole state after reserving one member. |
| `Schedulers.Scheduler.ReserveBatch` | src/scheduler.cpp:734-746 | The whole state after reserving a batch under a fresh id. |
| `Schedulers.Scheduler.PlanDispatch` | src/scheduler.cpp:700-753 | Result and state are an allowed plan for the request, and a dispatch goes to the worker with the highest score among those that can take the batch, the smaller identifier among equals. |
| `Schedulers.Scheduler.PlanNext` | src/scheduler.cpp:754-764 | A selection, then a plan for what was selected, on the best-scored worker. |
| `Schedulers.Scheduler.StartBatchOn` | src/scheduler.cpp:776-780 | Workers and totals after a batch has started. |
| `Schedulers.Scheduler.ConfirmStart` | src/scheduler.cpp:765-791 | Answer and state after a start report, every refusal included. |
| `Schedulers.Scheduler.ScreenReport` | src/scheduler.cpp:795-802 | How a completion is answered before its status is looked at. |
| `Schedulers.Scheduler.CompleteAttempt` | src/scheduler.cpp:792-817 | Answer and state after a completion report, every status included. |
| `Schedulers.Scheduler.CancelRequest` | src/scheduler.cpp:820-834 | Answer and state after a cancellation. |
| `Schedulers.Scheduler.CancelAllQueued` | src/scheduler.cpp:991-996 | The state after cancelling everything queued, in some order. |
| `Schedulers.Scheduler.SubmitRequest` | src/scheduler.cpp:281-337 | Answer and state after a submission: invalid, admitted, deferred or rejected. |
| `Schedulers.Scheduler.AdmitRequest` | src/scheduler.cpp:307-318 | The state after an admission, with a taken id too. |
| `Schedulers.Scheduler.RebuildQueue` | src/scheduler.cpp:1125-1137 | The state after queuing every waiting request again. |
| `Schedulers.Scheduler.ClearBookings` | src/scheduler.cpp:864-868 | The workers after clearing a lost one. |
| `Schedulers.Scheduler.RecoverInFlightOf` | src/scheduler.cpp:850-869 | The state after recovering a lost worker's requests in some order. |
| `Schedulers.Scheduler.RegisterWorker` | src/scheduler.cpp:835-849 | The state after a registration, restarts included. |
| `Schedulers.Scheduler.UnregisterWorker` | src/scheduler.cpp:885-892 | The state after removing a worker, and whether it was known. |
| `Schedulers.Scheduler.UpdateWorker` | src/scheduler.cpp:870-876 | The state after a capability update, and whether the worker was known. |
| `Schedulers.Scheduler.SetState` | src/scheduler.cpp:877-884 | The state after a state report with or without a snapshot. |
| `Service.RunGrows` | src/scheduler.cpp:1155-1206 | A run followed by one more critical section is a run. |
| `Service.Service.constructor` | src/scheduler.cpp:1147-1148 | A new public object starts an empty run. |
| `Service.Service.Submit` | src/scheduler.cpp:1155-1157 | The object's run grows by this submission, and the answer is the specified one. |
| `Service.Service.PlanDispatch` | src/scheduler.cpp:1177-1179 | The run grows by this plan, and a dispatch goes to the best-scored worker. |
| `Service.Service.PlanNextDispatch` | src/scheduler.cpp:1180-1182 | The run grows by the selection and, if something was chosen, by the plan for it. |
| `Service.Service.ConfirmDispatchStart` | src/scheduler.cpp:1183-1185 | The run grows by this report, and the answer is the specified one. |
| `Service.Service.CompleteAttempt` | src/scheduler.cpp:1186-1188 | The run grows by this report, and the answer is the specified one. |
| `Service.Service.Cancel` | src/scheduler.cpp:1161-1163 | The run grows by this cancellation, and the answer is the specified one. |
| `Service.Service.CancelAllQueued` | src/scheduler.cpp:1203-1203 | The run grows by this cancellation of the queue. |
| `Service.Service.RegisterWorker` | src/scheduler.cpp:1165-1167 | The run grows by this registration. |
| `Service.Service.UnregisterWorker` | src/scheduler.cpp:1172-1174 | The run grows by this removal. |
| `Service.Service.UpdateWorkerCapability` | src/scheduler.cpp:1168-1168 | The run grows by this update. |
| `Service.Service.SetWorkerState` | src/scheduler.cpp:1169-1171 | The run grows by this state report. |
| `Service.Service.BeginDrain` | src/scheduler.cpp:1202-1202 | The run grows by the start of the drain. |
| `Service.Service.RollEpoch` | src/scheduler.cpp:1206-1206 | The run grows by the epoch change. |
| `Service.Service.CountersExact` | src/scheduler.cpp:1155-1206 | At every moment in the life of the object, if no id was reused, its admitted counters count its open requests, within the caps, and every record is well formed. |
| `Service.Service.QueueExact` | src/scheduler.cpp:1155-1206 | At every moment, if reports were about attempts handed to their senders: the object's queued set and counter are those of its queued requests, none of whose current attempts was ever handed out. |
| `Service.Service.UnitsExact` | src/scheduler.cpp:1155-1206 | At every moment, if no worker restarted or left: its global units are the sums over its workers, and none is negative. |
| `Service.Service.ReturnsToBaseline` | src/scheduler.cpp:1155-1206 | At every moment of an orderly history with nothing reserved or running it holds no units and no batches. |
| `Drain.PlanDispatches` | src/scheduler.cpp:700-753 | With one idle online worker that can run whatever is queued, a plan for a runnable request always dispatches to it. |
| `Drain.DispatchExact` | src/scheduler.cpp:717-733 | With one worker a plan dispatches if and only if the worker is eligible for the whole batch and has room for its rounded units; otherwise nothing changes. |
| `Drain.BlockedForGood` | src/scheduler.cpp:754-764 | When the next request leads a batch that no worker takes, every further plan-next chooses the same request and is refused, as long as nothing else happens. |
| `Drain.BlockedAtAnyTime` | src/scheduler.cpp:754-764 | Without deadlines the passing of time does not help. |
| `Drain.ConfirmsNext` | src/scheduler.cpp:765-791 | Confirming the members in turn moves them from reserved to running, the units with the first. |
| `Drain.LastReleases` | src/scheduler.cpp:622-631 | Releasing a member counts the batch down; the last one gives the units back and the worker goes online. |
| `Drain.CompletesNext` | src/scheduler.cpp:804-806 | Completing the members in turn is accepted each time. |
| `Drain.BatchEnds` | src/scheduler.cpp:632-647 | After the last completion the worker is idle again, the members are completed and nothing else changed. |
| `Witnesses.CompletesQueuedRequest` | src/scheduler.cpp:799-806 | A run after which a completion of a queued request is accepted and the queue is out of order. |
| `Witnesses.ReusesQueuedId` | src/scheduler.cpp:307-318 | A run after which submitting a queued request's id again puts the queue out of order. |
| `Witnesses.RevivesCancelledRequest` | src/scheduler.cpp:307-318 | A run after which submitting a cancelled request's id queues it again. |
| `Witnesses.CancelsReservedRequest` | src/scheduler.cpp:820-826 | A run after which cancelling a reserved request breaks the batches. |
| `Witnesses.CountFallsShort` | src/scheduler.cpp:443-450 | A run after which cancelling a reserved request makes its tenant's queued count too small. |
| `Witnesses.Oversubscribes` | src/scheduler.cpp:728-787 | An orderly run that ends with more units on a worker than it has, because it reported as free what was in use. |
| `Witnesses.ConfirmsForgottenBatch` | src/scheduler.cpp:765-791 | A protocol run in which a worker restarts between plan and confirm and then confirms, under its new boot identity, a request whose batch nobody holds. |
| `Witnesses.WrongWorkerReports` | src/scheduler.cpp:765-817 | A run after which a second worker's confirmation and completion of the first worker's request are both taken and each breaks the batches. |
| `Witnesses.RestartLosesUnits` | src/scheduler.cpp:850-869 | A run that ends with one of two members of a started batch confirmed; restarting the worker leaves the books wrong. |
| `Witnesses.BatchBlocksQueue` | src/scheduler.cpp:507-545 | A run that ends with two requests that would each fit, blocked for ever because together they do not. |
| `Witnesses.LaterDeadlineFirst` | src/scheduler.cpp:430-436 | A run after which the selection takes the request with the later deadline from a flow. |
| `Witnesses.RecoversWrongTotals` | src/scheduler.cpp:1043-1137 | A run whose saved state recovers with wrong unit totals. |
| `Witnesses.CrashForgetsDispatch` | src/scheduler.cpp:1002-1137 | A run that is saved with a request queued and crashes after dispatching it: whatever recovers accepts the completion of the queued request, and its queue is out of order. |
| `Pairings.RoundingOverfills` | src/scheduler.cpp:553-737 | An orderly run in which two requests of cost 1.5 are dispatched to an empty worker of three units and book four. |
| `Pairings.MixesPhases` | src/scheduler.cpp:507-545 | An orderly run in which, with phase mixing on, a request is dispatched to a worker that does not support its phase. |
| `Pairings.MixesAdapters` | src/scheduler.cpp:507-545 | An orderly run in which a request that needs adapter 0 is dispatched to a worker without it. |
| `Driver.LocalDriver.constructor` | src/local_driver.cpp:8-15 | A new driver reports each worker's registered available units. |
| `Driver.LocalDriver.FindWorker` | src/local_driver.cpp:17-20 | The first registration of a worker, or none. |
| `Driver.LocalDriver.SetAvailableUnits` | src/local_driver.cpp:22-26 | Only the units of the first registration of the worker change. |
| `Driver.LocalDriver.Collect` | src/local_driver.cpp:36-55 | One work item per member, with its current attempt and generation. |
| `Driver.LocalDriver.ConfirmAll` | src/local_driver.cpp:58-70 | Every member of a batch that is under way is confirmed. |
| `Driver.LocalDriver.CompleteAll` | src/local_driver.cpp:71-89 | Every member is completed and every completion counted. |
| `Driver.LocalDriver.RunBatch` | src/local_driver.cpp:33-92 | A planned batch is run to its end. |
| `Driver.LocalDriver.DispatchOne` | src/local_driver.cpp:28-93 | One round shrinks the queue, or finds nothing runnable in it and leaves it empty; the driver can go on. |
| `Driver.LocalDriver.RunUntilIdle` | src/local_driver.cpp:95-102 | With one online worker with room for every possible batch, a succeeding executor, a fixed clock and a budget of at least the queue length: the queue ends empty, every request that was queued is completed or expired, nothing else changed, and no units are held. |
| `Bytes.LeRoundTrip` | src/persistence.cpp:30-48 | Reading a little-endian word gives back the number written. |
| `Bytes.FromLeRoundTrip` | src/persistence.cpp:30-48 | Writing the number read gives back the bytes. |
| `Envelopes.TimesPrimeInjective` | src/persistence.cpp:18-22 | Multiplication by the hash prime is injective on 64-bit words. |
| `Envelopes.StepInjective` | src/persistence.cpp:18-22 | A hash step is injective in the state and in the byte. |
| `Envelopes.HashDetects` | src/persistence.cpp:24-28 | Changing one byte anywhere changes the checksum. |
| `Envelopes.ReadBack` | src/persistence.cpp:142-172 | Reading a written frame returns its payload. |
| `Envelopes.OnlyFramesAccepted` | src/persistence.cpp:142-172 | The reader accepts nothing but written frames. |
| `Envelopes.OneByteDetected` | src/persistence.cpp:142-172 | Changing any one byte of header, payload or trailer is rejected. |
| `Envelopes.FrameLayout` | src/persistence.cpp:52-59 | The bytes of a frame: magic 53 46 53 49, version 01 00 00 00, eight of length, the payload, eight of checksum over everything before. |
| `Envelopes.FaultExact` | src/persistence.cpp:141-173 | A frame is refused for the first of: fewer than 24 bytes, magic, version, length, checksum; and accepted if and only if none is wrong. |
| `Envelopes.ShortChecksums` | src/persistence.cpp:18-28 | The checksums of the empty text and of the single bytes zero and one, as numbers. |
| `Envelopes.ChecksumOf` | src/persistence.cpp:24-28 | The loop computes the checksum. |
| `Envelopes.Put` | src/persistence.cpp:30-35 | A word is appended, least significant byte first. |
| `Envelopes.Get` | src/persistence.cpp:37-48 | A word is read and the offset moved past it, or neither. |
| `Envelopes.WriteFrame` | src/persistence.cpp:52-59 | The frame written for a payload. |
| `Envelopes.ReadFrame` | src/persistence.cpp:142-172 | The verdict on a byte string, every fault included. |
| `Binary.ReadsBack` | src/scheduler.cpp:168-196 | For values of any shape: reading what was written returns the value and stops at its end if and only if every string and list is within its limit; otherwise it is refused. |
| `Binary.FlagExact` | src/scheduler.cpp:195 | Any flag but zero announces a value. |
| `Binary.Extends` | src/scheduler.cpp:181-196 | More input does not change what was read from less. |
| `Binary.PrefixRefused` | src/scheduler.cpp:181-196 | Every strict prefix of what was written is refused. |
| `Binary.BinWriter.PutWord` | src/scheduler.cpp:170-175 | The word's bytes are appended. |
| `Binary.BinWriter.PutText` | src/scheduler.cpp:177-177 | Length and bytes are appended. |
| `Binary.BinWriter.Write` | src/scheduler.cpp:168-180 | A value of any shape is appended. |
| `Binary.BinReader.GetWord` | src/scheduler.cpp:185-192 | A word is read, or the flag goes down and stays down. |
| `Binary.BinReader.GetText` | src/scheduler.cpp:193-193 | A string of at most 16 MiB is read, or the flag goes down. |
| `Binary.BinReader.Get` | src/scheduler.cpp:181-196 | A value of any shape is read, or the flag goes down. |
| `Recovery.DeadlineNotExtended` | src/scheduler.cpp:1058-1097 | Across save and recovery the time left to a deadline never grows and shrinks by less than a millisecond; a deadline that had passed has passed. |
| `Recovery.RequestBack` | src/scheduler.cpp:1051-1101 | Every persisted field of a request is restored. |
| `Recovery.WorkerBack` | src/scheduler.cpp:1066-1118 | Every persisted field of a worker is restored, and it holds nothing. |
| `Recovery.CodesExact` | include/inference_scheduler/enums.hpp:44-81 | The code of a request, attempt or worker state is its place in the enumeration and reads as that state; other codes name nothing. |
| `Limits.SurvivesExact` | src/scheduler.cpp:1002-1115 | A saved state is read back if and only if it has at most ten million requests with at most 4096 attempts each, a hundred thousand tenants, a hundred thousand workers with at most 4096 models, revisions and adapters and 16 phases each, and no text over 16 MiB; beyond that the whole file is refused. |
| `Recovery.LoadsWhatWasSaved` | src/scheduler.cpp:1043-1120 | Whatever the order in which the maps are walked, a payload within the limits is read back and the loaded state is the saved one. |
| `Recovery.TruncatedPayloadRejected` | src/scheduler.cpp:1077-1120 | Every strict prefix of a payload is rejected as corrupt. |
| `Recovery.RecoveredQueue` | src/scheduler.cpp:1121-1137 | After recovery queued set, counter, compatibility index and heaps agree with the requests in state Queued, and the tenants' queued counts are a recount, in whatever order the requests are queued again. |
| `Recovery.RecoveredUnitsExact` | src/scheduler.cpp:1084-1118 | After recovery the books are right if and only if nothing was reserved or running when the state was saved. |
| `Continuation.RecoversWhatWasSaved` | src/scheduler.cpp:1002-1017 | Envelope, codec, loading and rebuilding together: recovering from a saved file always succeeds and gives the revived state with its queue rebuilt. |
| `Continuation.RecoveredExact` | src/scheduler.cpp:1043-1137 | A recovered request has its state, attempts, generation, cancellation flags and specification, is in no batch, and its deadline is the whole milliseconds that were left, counted from now. A recovered worker has its boot identity, capability and state, all its capacity available, and holds nothing. Epoch, tokens, unit totals and admitted counts are the saved ones. |
| `Continuation.RecoveredIsSound` | src/scheduler.cpp:1043-1137 | The recovered scheduler has the records, queue, counters and batches of the saved one in order, tenants' queued counts exact again. It is fit to go on with reports about whatever was handed out if and only if no request saved as queued had its current attempt handed out. Its units are right if and only if none were reserved or running. For any scheduler with the same settings that never issues a saved identifier again. |
| `Continuation.StaysSound` | src/scheduler.cpp:1008-1017 | The invariants hold in every state of every run that goes on from a recovered scheduler. |
| `Continuation.StaysOrderly` | src/scheduler.cpp:608-631 | With units right at the start, workers that stay and no reserved request cancelled, units and batches stay right in it. |
| `Types.IdsDiffer` | include/inference_scheduler/id_types.hpp:78-97 | Two identifiers are the same if and only if salt and counter are: schedulers with different salts never issue the same one. |
| `Crashes.CrashExact` | src/scheduler.cpp:1002-1137 | For a run from the save to the crash: none of what was handed out by the crash is the current attempt of a request saved as queued if and only if no such request was dispatched after the save. |
| `Crashes.SafeAcrossRecovery` | src/scheduler.cpp:1002-1137 | Save, run on, crash, recover, go on with any reports about anything handed out by the crash: if no request saved as queued was dispatched before the crash, then in every later state the current attempt of a queued request was never handed out, none was handed out twice, and queued set, size and admitted counter are right. |
| `Crashes.LostWorkRefused` | src/scheduler.cpp:765-802 | Reports about work the save does not know, a later request or a later attempt, are refused and change nothing, for ever. |
| `Crashes.NewSaltSucceeds` | include/inference_scheduler/id_types.hpp:78-97 | A scheduler with another salt, higher or lower, or with the same salt and a counter not behind, never issues an identifier of a run again, saved or handed out. |
| `Crashes.CrashInRuns` | src/scheduler.cpp:1002-1137 | The same for one run of one scheduler, saved at one state and crashed at a later one: what recovers is sound if and only if no request queued at the save was dispatched in between. |
| `Json.ReadsString` | src/json_util.hpp:55-73 | An escaped string is read back. |
| `Json.ReadsBack` | src/json_util.hpp:50-76 | A printed value followed by a delimiter is read back and the reader stops at the delimiter. |
| `Json.RoundTrip` | src/json_util.hpp:50-82 | For every nested value whose numbers are integers of magnitude at most 2^53 and whose keys need no escaping: parsing the printed text succeeds, uses all of it and returns the value. |
| `JsonGrammar.ParsesText` | src/json_util.hpp:63-82 | Every text by the grammar of RFC 8259, without code-point escapes and with integers up to 2^53 as numbers, with any white space inside, is read as what it stands for, the last of equal keys winning; it is accepted if and only if nothing but white space is around it. |
| `JsonGrammar.PrintsText` | src/json_util.hpp:50-60 | A value with such numbers and plain keys is printed as its text without white space, and that text stands for it. |
| `JsonGrammar.PutExact` | src/json_util.hpp:71 | Assigning to a key keeps keys in order, gives the key that value and no other, and leaves every other key alone. |
| `JsonGrammar.LessExact` | src/json_util.hpp:22 | Keys are ordered by the first character in which they differ, a beginning of a key before it. |
| `Truncation.CutRefused` | src/json_util.hpp:63-82 | Every proper beginning of such a text other than an integer is refused. |
| `Truncation.CutMessageRefused` | src/json_util.hpp:50-82 | So a printed message that was cut short anywhere is refused. |
| `Json.KeyExact` | src/json_util.hpp:57-73 | Whatever follows it, a printed key is read as itself if and only if it contains neither a quote nor a backslash. |
| `Json.ObjectKeyExact` | src/json_util.hpp:50-82 | An object with one member survives printing and parsing if and only if its key contains neither. |
| `Json.QuoteKeyIsLost` | src/json_util.hpp:57-73 | Two keys that are lost: a quote and a backslash. |
| `Json.NumberExact` | src/json_util.hpp:54-75 | For any library conversions a number survives printing and parsing if and only if, white space aside, its text is one number span and scans to it. |
| `Json.NegativeExponentIsLost` | src/json_util.hpp:75-75 | A number printed with a negative exponent never survives: the reader accepts no second sign. |
| `JsonParser.Parser.SkipSpace` | src/json_util.hpp:67-67 | White space is skipped. |
| `JsonParser.Parser.ExpectWord` | src/json_util.hpp:70-70 | A word is matched; what matched is consumed even on failure. |
| `JsonParser.Parser.ReadText` | src/json_util.hpp:73-73 | A string is read, escapes resolved. |
| `JsonParser.Parser.ReadBoolean` | src/json_util.hpp:74-74 | A truth value is read, or nothing is consumed. |
| `JsonParser.Parser.ReadNumeral` | src/json_util.hpp:75-75 | A number is read. |
| `JsonParser.Parser.Value` | src/json_util.hpp:69-69 | Value, position and flag after any input, malformed or not; the descent terminates. |
| `JsonParser.Parser.Items` | src/json_util.hpp:72-72 | The items of an array; a failed item does not stop the loop. |
| `JsonParser.Parser.OneMember` | src/json_util.hpp:71-71 | A key, a colon and a value. |
| `JsonParser.Parser.Members` | src/json_util.hpp:71-71 | The members of an object, the later of two equal keys winning. |
| `JsonParser.ParseText` | src/json_util.hpp:63-82 | The whole parse: success only if all of the text was used. |

## Left out

- Sockets, framing, file handles, temporary files and atomic rename: a file is the byte string it holds.
- The coordinator, worker, client and command-line programs: they are the environment that delivers reports.
- The CPU and CUDA executors: an executor is a function from work items to results.
- Worker score components: a score is any function of worker, request, cost and time; eligibility and the choice of the maximum are modelled.
- Events, explanations, snapshots, statistics, delay fields and time stamps other than the instant of queuing: they decide nothing.
- Tenant running counts, weights as stored per tenant, services consumed and service debt: written and persisted but never read by a decision.
- Mutexes and threads: every critical section is one step. Plan-next is two steps in `ProtocolRun` and one after the other in `FairRun`.
- Several readings of the clock within one critical section: one instant per section. The two sections of plan-next have one each.
- Overflow of counters, tokens, costs and identifiers: unbounded integers, except in the 64-bit checksum, the length test of the envelope and the words of the codec. After 2^32 identifiers, where the code's counter runs into its salt, the model's go on above the 64-bit words.
- Floating-point rounding of weights, finish times and costs: real numbers. In the codec a floating-point number is its bit pattern.
- The recovery mode flag: it is set and cleared within one critical section, so no admission sees it.
- The admission branches for a deadline with negative time left and for one that expires between two readings of the same instant: they cannot be reached.
- The state a scheduler is left in when a payload is found corrupt half way: the containers have already been cleared and partly filled.
- Trailing bytes after a payload: they are ignored by the reader, as in the code.
- Enumeration codes in a payload that name nothing: the casts are unchecked; such a code reads as the first value of its enumeration.
- JsonParser.Parser.ReadNumeral: the value of a numeral other than an integer up to 2^53 is that of an arbitrary library function, as is the text such a number is printed as; which of them survive is stated for any library in `Json.NumberExact`. Characters are Dafny characters rather than bytes.
- Crashes.NewSaltSucceeds: a recovering scheduler that happens to draw the salt of the one that was saved, one chance in 2^31, and has issued fewer identifiers is excluded; it issues the same identifiers again.
- Service.Service.PlanNextDispatch: nothing else happens between its two critical sections; runs in which something does are covered by the run theorems, where the selection and the plan are separate events.
- Schedulers.Scheduler.SortCandidates: the library sort is modelled by an insertion sort with the same contract.
- Binary.BinWriter.Write: the field-by-field calls of the serializer are table-driven here; the tables are in `Recovery`.
