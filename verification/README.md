# Verified core of the Cartel backend

A Dafny 4.11 model of the parts of the backend whose correctness is hardest to
see from one function, with proofs about every run, every input or every reachable
state. `dafny verify dfyconfig.toml` checks all of it.

## What is modelled

**Idempotent mutations over shared lists** (`IdempotencyProtocol`, `ListRevisions`,
`IdempotencyService`, `ShoppingLists`). Transactions are a step machine over a
committed store, tentative writes, the unique key, row locks and clock readings; the
route handlers and the polling loop of `claim` are methods shown to take only its
steps. No clock discipline is assumed: each poll brings its own reading. A SELECT may
miss a row committed after its snapshot, and waits only for a row it finds.

**The scrape-job lifecycle** (`LifecycleGraph`, `LifecycleStore`, `JobCoordinator`,
`JobExecution`). Each save is atomic and the process may be killed at any of them. The
store, the coordinator, the worker and the runtime are methods; histories of saves are
sequences.

**Cart planning and optimization** (`CartPlans`, `CartFulfillment`, `CartEnumeration`,
`CartOptimization`, `OptimizationLaws`, `AutomaticPlanning`, `AutomaticPlanningLaws`,
`PlanningCosts`, `PlatformGroups`). From discovered listings to the recommended plan, end to end.
Discovery and the planning authorities are functions of what they are asked.

**The leased job queue** (`JobQueue`, `JobQueueLaws`). The email outbox is the same
machine with other status names and is not repeated. A claim is one transaction on
locked rows. A report is two steps: it reads the row without a lock, and its commit
writes the columns it changed over whatever is stored by then; any steps of other
workers may come between. No order is assumed of the times the steps read: the clock of
a state is the latest time read so far, and a lease is unexpired with respect to it.

**Costs, observations, assertions** (`EffectiveCost`, `CheckoutObservations`,
`AssertionHistory`), **rate limits** (`RateLimits`) and **artifact files**
(`ArtifactStore`).

`Ordering` holds what several of these share: lexicographic orders, stable sorting by
key, permutations and dictionaries. SHA-256 over canonical JSON is taken to be
injective: a digest is represented by what it was computed from, and JSON texts come
from a function that is required to be injective where that matters. Automatic
induction is off throughout; every inductive proof is written out.

## What turned out false of the code

- An interrupted attempt is never recorded, so its allocation stays unfinalized for
  ever. Once a later attempt has been recorded, every further `execute` in
  RETRY_SCHEDULED takes the recovery path again and dead-letters the job: a job can be
  denied its third attempt (`JobExecution.ThirdAttemptDenied`). The exact condition for
  a retry to start is `JobExecution.RetryStartsIffFinalized`.
- Recovery and failure handling ask for edges the graph lacks (DEQUEUED to
  DEAD_LETTERED, PARSED to RETRY_SCHEDULED); these raise a conflict, which the contracts
  of `RecoverInterrupted` and `HandleFailure` state exactly.
- The docstring at `backend/app/cart_optimization/service.py:204-206` says plans not
  declared feasible are returned unchanged. The code downgrades them too:
  `CartFulfillment.DeclaredStandsIff` says exactly when the docstring is right.
- A report is decided on a row read without a lock, and carries no owner. A stale retry
  puts a finished job back into the queue (`JobQueueLaws.SuccessIsRevived`); the exact
  conditions are `DoneIsForeverIff`, `DoneIsFinalIff` and `CompletionTimesIff`. One that
  even read its row in time can leave two workers on one job
  (`JobQueueLaws.TimelyReadIsNotEnough`); exclusion holds exactly under the condition of
  `ExclusionIff`, which a worker could check on the row it writes.
- Lease expiry ignores `max_attempts`, and so does a retry written over a later claim.
  A job exceeds its attempts exactly as `JobQueueLaws.OverAllowanceIff` says. An outbox
  event whose `max_attempts` is below one is still attempted once; the job table has a
  check against such values, the outbox table has none.
- A retry is written without its new time when the row it read already showed that very
  time; if another time has been stored since, the job keeps that one
  (`JobQueueLaws.RetryIsDelayed` says exactly when).
- An artifact whose process dies between the two replacements can never be stored or
  read again, not even with the same bytes (`ArtifactStore.TornIsForever`).
- A fee marked not applicable is charged when it shows an amount, and a fixed discount
  marked not applicable is taken off. `EffectiveCost.InapplicableFeesAreCharged` and
  `InapplicableDiscountsAreTaken` say exactly when the cost is nevertheless right, and
  their companions when such an entry makes the cost unknown. The entries are legal
  inputs of `evaluate`; the fee and offer services never produce one.
- A cashback of unknown value cannot change the cost, but the optimizer raises for a
  feasible plan that has one: a single such plan leaves planning without an answer about
  any plan (`PlanningCosts.UnknownCashbackStopsPlanning`). `PlanningCosts.ReadyIff` says
  exactly when planning is READY. The offer service itself reads such an offer as one of
  unknown type, which makes the cost unknown.
- After a step back of the wall clock the in-memory limiter can admit what its full
  history of admissions would refuse (`RateLimits.ClockStepBackAdmitsMore`). For each
  decision, after whatever readings, `ClockStepBackIff` says exactly when, and
  `AgreesThroughoutIff` when a whole run is unaffected.

## Model

| member | source | states |
|---|---|---|
| IdempotencyProtocol.ExecutionsAreApart | backend/app/services/idempotency.py:103-178 | In every run, two committed executions under one (user, operation, key) have claim times at least the earlier claim's time to live apart. |
| IdempotencyProtocol.AnswersAreTheWinners | backend/app/services/idempotency.py:111-126 | Every replay given in any run carries the status and body of the latest execution committed before it, under the same payload hash; every conflict has another hash; that execution was live and no other was claimed by the time of the answer. |
| IdempotencyProtocol.LiveWinnerDecides | backend/app/services/idempotency.py:105-131 | While the latest execution of a key is live, a poll that sees its record refuses another payload, replays the stored response, or waits; it never goes on to insert. |
| IdempotencyProtocol.NoClaimInsideTheWindow | backend/app/services/idempotency.py:106-145 | Whoever holds a claim while a winner is stored read its clock at or after the winner's expiry. |
| IdempotencyProtocol.StoredIsLatest | backend/app/services/idempotency.py:105-145 | In every reachable state the stored record of a key is the one its latest committed execution left. |
| IdempotencyProtocol.StepKeepsClaims | backend/app/services/idempotency.py:65-178 | Every step of every transaction keeps the claim invariant: stored record, tentative deletes and inserts, exclusive ownership and faithful answers. |
| IdempotencyProtocol.CommitKeepsApart | backend/app/services/idempotency.py:106-145 | A commit appends an execution claimed after everything earlier under its key had expired. |
| IdempotencyService.Database.Claim | backend/app/services/idempotency.py:65-157 | The polling loop takes only protocol steps whatever other transactions do between its calls; it executes only when no live winner is stored, replays exactly the latest response for its own payload, and raises a conflict only against another payload. |
| IdempotencyService.Database.InsertRecord | backend/app/services/idempotency.py:133-157 | The insert waits for the unique key, then inserts the new record, gives up at the deadline, or goes back to polling. |
| IdempotencyService.Database.Flush | backend/app/services/idempotency.py:142-146 | One insert attempt blocks on an uncommitted key, is refused exactly when a committed record is still there, and otherwise inserts. |
| IdempotencyService.Database.CompleteClaim | backend/app/services/idempotency.py:165-178 | Completion writes status and body into the claim's own record and changes nothing committed. |
| IdempotencyService.Database.PerformLocked | backend/app/api/routes/lists.py:159-168 | Under the row lock the handler leaves in the open transaction what its operation promises of the committed row, item by item, or is refused with each HTTP error exactly under that error's own condition, which ends the transaction. |
| IdempotencyService.Database.CommitClaim | backend/app/api/routes/lists.py:167-168 | A commit makes record, list row, optimization and execution visible together. |
| IdempotencyService.Database.Handle | backend/app/api/routes/lists.py:151-169 | A route answers with the stored response of the latest execution under its key and payload; either its own commit has just changed the committed lists and optimizations as its operation promises and no further, or it changed nothing. Refusals leave no transaction open, whatever other transactions do between any two of its calls. |
| IdempotencyService.Database.Mutate | backend/app/api/routes/lists.py:158-169 | Holding its claim, a route waits for the row lock, works, completes and commits while others take steps in between; its response is then the latest execution's, and the committed tables before and after its commit differ by what the operation promises. |
| IdempotencyService.OthersLeaveAlone | backend/app/services/idempotency.py:103-157 | No sequence of other transactions' steps ends or changes an open transaction. |
| ListRevisions.RevisionCountsMutations | backend/app/api/routes/lists.py:159-168 | In every run a list's revision is one more than the committed, non-replayed mutations on it. |
| ListRevisions.RevisionFixesTheRow | backend/app/api/routes/optimizations.py:201-227 | Any two committed views of one list at one revision are the same row, items included. |
| ListRevisions.OneOptimizationPerRevision | backend/app/api/routes/optimizations.py:209-264 | At most one optimization is stored per list, revision and policy version. |
| ListRevisions.IdentityConflictIsUnreachable | backend/app/api/routes/optimizations.py:233-239 | The digest comparison after the lookup by request identity never fails. |
| ListRevisions.PerformIsCurrent | backend/app/api/routes/lists.py:116-314 | What a handler reads under the row lock is the committed row; what it makes of it is what its operation promises, and it is refused exactly when it may be. |
| ListRevisions.CommitDoes | backend/app/api/routes/lists.py:164-168 | Whoever commits while a transaction is open, its own commit changes only its list, by just what the operation promises of the row then stored, and stores one optimization at most, the one asked for. |
| ShoppingLists.HandlersKeepTheirPromises | backend/app/api/routes/lists.py:116-314 | After a deletion the item is gone, after an update it has the given quantity, after an addition it is there as given, after a change of the list name and archive flag are as given, and everything else is as before; every error is given exactly under its own condition. |
| ListRevisions.CommitKeepsRows | backend/app/api/routes/lists.py:164-168 | A commit leaves every committed row no newer than the stored one and rows of one revision equal. |
| ListRevisions.CommitKeepsCount | backend/app/api/routes/lists.py:164-168 | A commit keeps every revision one more than the mutations logged for its list. |
| ListRevisions.CommitKeepsOptimizations | backend/app/api/routes/optimizations.py:246-264 | Committing keeps stored optimizations grounded in a committed row, each request identity once. |
| LifecycleGraph.OnlyRequeueRaisesRank | backend/app/data_ingestion/lifecycle_store.py:67-99 | RETRY_SCHEDULED to QUEUED is the only edge of the graph that raises the rank, and no edge leaves a terminal state. |
| LifecycleGraph.WaysOut | backend/app/data_ingestion/lifecycle_store.py:67-89 | Which states a retry, a failure, a dead letter, a cancellation, an expiry, a block or an invalidation can be entered from. |
| LifecycleGraph.WaysToCompleted | backend/app/data_ingestion/lifecycle_store.py:67-89 | Each later stage is entered from the one before it only, and completion also right after registration. |
| LifecycleGraph.TerminalIff | backend/app/data_ingestion/lifecycle_store.py:67-99 | The terminal states are exactly those without a way on. |
| LifecycleStore.SavedRecordsAreReadable | backend/app/data_ingestion/lifecycle_store.py:128-186 | After any sequence of append, record-attempt and allocate calls the saved record passes both read-time validations. |
| LifecycleStore.SoundIsReadable | backend/app/data_ingestion/lifecycle_store.py:54-64 | The invariant of saved records implies the sequence, identity and allocation checks made on reading. |
| LifecycleStore.HistoryOnlyGrows | backend/app/data_ingestion/lifecycle_store.py:139-186 | Later records keep all earlier transitions, attempts and allocations in order. |
| LifecycleStore.ReappendChangesNothing | backend/app/data_ingestion/lifecycle_store.py:133-137 | Re-appending any recorded transition, at any later time, succeeds and changes nothing. |
| LifecycleStore.NothingFollowsTerminal | backend/app/data_ingestion/lifecycle_store.py:297-303 | Once a terminal state is recorded no sequence of calls adds a transition. |
| LifecycleStore.SkippedAllocationStaysOpen | backend/app/data_ingestion/lifecycle_store.py:188-194 | An allocation passed over by a later recorded attempt stays unfinalized for ever. |
| LifecycleStore.LogLengthIsPaidByRequeues | backend/app/data_ingestion/lifecycle_store.py:67-89 | A log has at most 15 entries plus 12 per requeue, less the rank of the state it stands in. |
| LifecycleStore.FindTransition | backend/app/data_ingestion/lifecycle_store.py:133-134 | The lookup returns a recorded transition with the identity, or none exactly when no record has it. |
| LifecycleStore.FindAttempt | backend/app/data_ingestion/lifecycle_store.py:156-157 | The lookup returns the recorded attempt of a number, or none exactly when there is none. |
| LifecycleStore.FilesystemStore.ValidateRecord | backend/app/data_ingestion/lifecycle_store.py:257-283 | The validation loop accepts exactly the walks of the state graph from CREATED with sequence numbers 1..n, each step an edge from where the last one ended. |
| LifecycleStore.ReadableIff | backend/app/data_ingestion/lifecycle_store.py:54-64 | A record passes the model's own validation exactly when transitions are numbered 1..n, there are as many attempt identities as attempts, and allocations increase. |
| LifecycleStore.FilesystemStore.Read | backend/app/data_ingestion/lifecycle_store.py:244-283 | A record is returned exactly when it passes both the model's own validation and that of the walk, and is corrupt otherwise. |
| LifecycleStore.FilesystemStore.Save | backend/app/data_ingestion/lifecycle_store.py:315-321 | A save replaces the whole record or, when the process dies, leaves the old one. |
| LifecycleStore.FilesystemStore.AppendTransition | backend/app/data_ingestion/lifecycle_store.py:128-149 | Append writes exactly the appended record, answers a repeat without writing, and leaves the files alone on conflict, corruption or crash. |
| LifecycleStore.FilesystemStore.RecordAttempt | backend/app/data_ingestion/lifecycle_store.py:151-171 | Recording an attempt extends the attempts, answers a repeat without writing, and refuses another job's, a differing or a backdated attempt. |
| LifecycleStore.FilesystemStore.AllocateAttemptNumber | backend/app/data_ingestion/lifecycle_store.py:173-186 | Allocation hands out one more than every allocated or recorded number, at most three. |
| JobCoordinator.EveryHistoryIsBounded | backend/app/workers/job_execution_coordinator.py:47-115 | Over any history of coordinator saves, crashes included: at most three attempts, at most two requeues, and a log of at most 39 entries less the current rank. |
| JobCoordinator.LogIsBounded | backend/app/data_ingestion/lifecycle_store.py:67-89 | The invariant of a coordinated record bounds its requeues by two and its log by 39. |
| JobCoordinator.ReplayIsCoordinated | backend/app/workers/job_execution_coordinator.py:70-115 | Every record a history of saves can leave satisfies the coordinator's invariant. |
| JobCoordinator.RequeueNumberIsNew | backend/app/workers/job_execution_coordinator.py:79-88 | A requeue carries an attempt number no earlier requeue carried. |
| JobCoordinator.AdvanceAppends | backend/app/data_ingestion/lifecycle_store.py:139-149 | A report along an edge from the current state is new, is appended and keeps the invariant. |
| JobCoordinator.OthersChangeNothing | backend/app/data_ingestion/lifecycle_store.py:133-139 | A report that is not along an edge from the current state is refused or already recorded. |
| JobCoordinator.AllocationKeepsCoordinated | backend/app/data_ingestion/lifecycle_store.py:173-186 | Attempt numbers are consecutive: allocation succeeds exactly below three and its number is on no transition yet. |
| JobCoordinator.FinalAttemptKeepsCoordinated | backend/app/data_ingestion/lifecycle_store.py:151-171 | Recording the current attempt keeps the invariant and succeeds when it is not recorded yet. |
| JobExecution.Coordinator.RecordTransition | backend/app/workers/job_execution_coordinator.py:32-45 | A report along an edge is saved with its reason, failure and attempt number unless the process is killed; any other leaves the record unchanged, and one outside the graph is a conflict. |
| JobExecution.Coordinator.AllocateAttempt | backend/app/workers/job_execution_coordinator.py:79-80 | A fresh attempt number is one more than the allocations so far, exactly while fewer than three were given. |
| JobExecution.Coordinator.RecoverInterrupted | backend/app/workers/job_execution_coordinator.py:92-115 | Recovery schedules a retry, dead-letters the job or fails with a conflict, each exactly when graph and attempt number say so. |
| JobExecution.Coordinator.Lease | backend/app/workers/job_execution_coordinator.py:79-90 | Leasing succeeds exactly from QUEUED or RETRY_SCHEDULED with an attempt left. |
| JobExecution.Coordinator.PrepareAttempt | backend/app/workers/job_execution_coordinator.py:70-90 | The worker is reached exactly when the start condition holds of the stored record, with the next attempt number. |
| JobExecution.Coordinator.RunWorker | backend/app/workers/local_ingestion.py:86-160 | The worker calls acquisition at most once, and exactly once when it ends on a job with a query, reports its stages in order, and leaves result and state as the boundaries' outcomes dictate. |
| JobExecution.Coordinator.RunRuntime | backend/app/workers/product_intelligence_runtime.py:85-135 | The runtime reports normalization, registration and publication in order; it answers that normalization failed exactly when it did, completed exactly when every observation is resolved, and completed with failures otherwise. |
| JobExecution.Summarize | backend/app/workers/product_intelligence_runtime.py:122-128 | The statuses seen make the run completed exactly when every one of them is resolved, none at all included. |
| JobExecution.Coordinator.HandleFailure | backend/app/workers/job_execution_coordinator.py:117-139 | A failure is retried below three attempts, dead-lettered at three, or refused when the graph lacks the edge; transition and attempt carry its category and outcome. |
| JobExecution.Coordinator.RunDownstream | backend/app/workers/job_execution_coordinator.py:60-67 | A parsed batch ends its attempt completed, retryable or dead-lettered, with the attempt recorded. |
| JobExecution.Coordinator.Execute | backend/app/workers/job_execution_coordinator.py:47-68 | Short of a crash, an attempt that can start is completed, with the job left COMPLETED, exactly when everything was ingested and normalized, the runtime did not raise and every observation is resolved; completed with failures exactly when one is not; and normalization failed exactly when it raised. Otherwise it is refused as terminal or conflicting. A run that returns has finalized its attempt with the outcome that goes with its state. |
| JobExecution.VerdictAccounts | backend/app/workers/job_execution_coordinator.py:47-68 | Each result of an uninterrupted attempt belongs to exactly one set of outcomes at the boundaries. |
| JobExecution.Coordinator.Drive | backend/app/workers/job_execution_coordinator.py:47-68 | Any sequence of execute calls, each killed at any save, calls acquisition at most three times with increasing attempt numbers and keeps the log within 39 entries. |
| JobExecution.FailureEdges | backend/app/data_ingestion/lifecycle_store.py:70-79 | The graph accepts the outcome of every worker failure except a retry after PARSED. |
| JobExecution.CanStartIff | backend/app/workers/job_execution_coordinator.py:70-115 | An attempt can start exactly while fewer than three were given, from the queue or a scheduled retry when all of them are recorded, and else from the queue or a stage an interrupted attempt can be retried from. |
| JobExecution.RetryStartsIffFinalized | backend/app/workers/job_execution_coordinator.py:77-88 | In RETRY_SCHEDULED the next attempt starts exactly when every allocation has been recorded and one is left. |
| JobExecution.SkippedAttemptForfeitsRetries | backend/app/workers/job_execution_coordinator.py:77-115 | Once an interrupted attempt has been followed by a recorded one, no later execute in RETRY_SCHEDULED reaches the worker. |
| JobExecution.ThirdAttemptDenied | backend/app/workers/job_execution_coordinator.py:77-115 | A concrete history: attempt 1 killed, attempt 2 failed and recorded, and the third attempt is denied. |
| CartPlans.CandidatesMatchItems | backend/app/cart_optimization/types.py:408-431 | Count, membership and no duplicates make candidate and item allocations one multiset of identities, with equal quantities per key. |
| CartFulfillment.ValidatePlanFulfillment | backend/app/cart_optimization/service.py:118-188 | The check raises its errors in order and otherwise accepts exactly the plans whose quantities per key equal the requested ones. |
| CartFulfillment.CheckGroups | backend/app/cart_optimization/service.py:137-150 | An undeclared used group and a declared unused group are each an error. |
| CartFulfillment.CountQuantities | backend/app/cart_optimization/service.py:178-186 | The counter holds the allocated quantity of every key, or the first non-positive quantity is an error. |
| CartFulfillment.CounterEquality | backend/app/cart_optimization/service.py:188-188 | Without unknown keys, counter equality is equality on every requested key. |
| CartFulfillment.ClassifyPlan | backend/app/cart_optimization/service.py:190-219 | The effective feasibility of a plan, or its fulfilment error. |
| CartFulfillment.ItemsMeetTheRequestToo | backend/app/cart_optimization/service.py:158-188 | For a non-empty cart, an accepted plan with candidates has item allocations that are a permutation of theirs and meet the request exactly when they do. |
| CartFulfillment.FulfilledMeansExact | backend/app/cart_optimization/service.py:137-188 | A fulfilled feasible plan allocates exactly the requested keys and uses exactly the declared groups. |
| CartFulfillment.FulfilledIff | backend/app/cart_optimization/service.py:118-188 | For a non-empty cart a plan with allocations is fulfilled exactly when declared and used groups are one set, no allocation is repeated, keys are requested and quantities positive, and the sums are the requested ones. |
| CartFulfillment.FulfillmentErrors | backend/app/cart_optimization/service.py:129-188 | Each error of the check is raised exactly for a plan with that fault and none of those checked before it. |
| CartFulfillment.EffectiveIff | backend/app/cart_optimization/service.py:190-219 | A plan ends infeasible, unresolved or invalid exactly as its fulfilment, the quantity statuses of its candidates and its declaration say. |
| CartFulfillment.FeasibleIff | backend/app/cart_optimization/service.py:208-219 | A plan is effectively feasible exactly when it was declared feasible, fulfils the cart and has only resolved quantities. |
| CartFulfillment.DeclaredStandsIff | backend/app/cart_optimization/service.py:204-219 | Exactly when a plan not declared feasible is returned unchanged, which the docstring promises always. |
| CartFulfillment.InfeasibleCanBecomeUnresolved | backend/app/cart_optimization/service.py:208-219 | A concrete plan declared infeasible whose effective feasibility is unresolved. |
| CartFulfillment.FulfillmentReordered | backend/app/cart_optimization/service.py:129-188 | Fulfilment does not depend on the order of a plan's allocations and groups. |
| CartOptimization.ValidateRequest | backend/app/cart_optimization/service.py:98-116 | The request checks pass exactly for a present id, a supported policy, distinct item keys, present and distinct plan ids and no invalid plan, and fail with the first of these that does not hold. |
| CartOptimization.ValidateCurrencies | backend/app/cart_optimization/service.py:229-242 | The currency check passes exactly when all linked known costs share one currency. |
| CartOptimization.ResolveLinked | backend/app/cart_optimization/service.py:244-264 | Resolution succeeds exactly when every plan is fulfilled or cleanly unfulfilled, linked, and priced without unknowns if feasible; it links each plan id to its evaluation. |
| CartOptimization.ExtractCosts | backend/app/cart_optimization/service.py:273-280 | Every linked known cost is in the table under its plan id. |
| CartOptimization.FeasibleCostsKnown | backend/app/cart_optimization/service.py:266-293 | No feasible plan's cost lookup fails, and the table ranks like the linked evaluations. |
| CartOptimization.PartitionPlans | backend/app/cart_optimization/service.py:44-58 | Each comprehension selects exactly the plans of its effective feasibility, in order. |
| CartOptimization.Optimize | backend/app/cart_optimization/service.py:39-85 | The optimizer answers exactly the acceptable requests, with the result they define, and otherwise raises the error of the first failing check. |
| OptimizationLaws.IdsPartition | backend/app/cart_optimization/service.py:44-85 | Ranked, unresolved and rejected ids list every candidate plan exactly once between them. |
| OptimizationLaws.RejectedInOrder | backend/app/cart_optimization/service.py:53-84 | The rejected ids are exactly those of the effectively infeasible plans, in order. |
| OptimizationLaws.RankedAreSound | backend/app/cart_optimization/service.py:256-293 | A ranked plan was declared feasible, delivers the cart exactly, has no doubtful quantity and a known cost. |
| OptimizationLaws.RankingMeans | backend/app/cart_optimization/service.py:282-293 | The ranking key compares cost, then checkout groups, inconvenience, priority and id. |
| OptimizationLaws.ChosenIsBest | backend/app/cart_optimization/service.py:266-326 | The chosen plan is effectively feasible and at least as good as every effectively feasible plan. |
| OptimizationLaws.SelectedIff | backend/app/cart_optimization/service.py:295-326 | A plan is selected exactly when coverage is complete, nothing is unresolved and something is feasible. |
| OptimizationLaws.NoFeasiblePlanIff | backend/app/cart_optimization/service.py:295-311 | There is no feasible plan exactly when coverage is complete, nothing is unresolved or feasible, and something is infeasible unless nothing was proposed; what is neither selected nor that is undecided. |
| OptimizationLaws.AlternativesAreTheRest | backend/app/cart_optimization/service.py:80-82 | The chosen plan followed by the alternatives is the ranking. |
| OptimizationLaws.OrderIsIrrelevant | backend/app/cart_optimization/service.py:39-85 | Permuting plans, cart items, evaluations or constraints changes neither success nor outcome, choice, ranking, alternatives, rejections or id. |
| OptimizationLaws.PlanIdentityIff | backend/app/cart_optimization/identity.py:13-64 | Two plans have one identity payload exactly when they agree up to the order of allocations, groups and constraint references. |
| OptimizationLaws.SamePlanIff | backend/app/cart_optimization/identity.py:13-64 | With injective JSON this includes the provenance-carrying allocations. |
| OptimizationLaws.OptimizationIdIff | backend/app/cart_optimization/service.py:328-353 | Two requests share an optimization id exactly when cart, policy, constraints and plan identities agree up to order. |
| OptimizationLaws.IdentityIgnoresInnerOrder | backend/app/cart_optimization/service.py:347-350 | Permuting allocations, groups and constraints inside plans leaves the optimization id alone. |
| CartEnumeration.ProductSize | backend/app/cart_optimization/construction.py:128-144 | There are as many combinations as the product of the candidate counts. |
| CartEnumeration.ProductAt | backend/app/cart_optimization/construction.py:141-143 | Each positional choice is listed at its mixed-radix position. |
| CartEnumeration.EachChoiceOnce | backend/app/cart_optimization/construction.py:141-143 | Each place in the enumeration belongs to exactly one positional choice and holds what it picks. |
| CartEnumeration.EnumerationSize | backend/app/cart_optimization/construction.py:128-144 | The sorted enumeration is as long as the given candidate counts multiply to. |
| CartEnumeration.EnumerationIgnoresOrder | backend/app/cart_optimization/construction.py:136-143 | With one set per item and injective JSON, neither the order of the sets nor that of the candidates in them changes the enumeration. |
| CartEnumeration.ExceedsLimit | backend/app/cart_optimization/planning.py:128-132 | The early-exit running product rejects exactly when the number of combinations passes the limit. |
| AutomaticPlanning.BuildSets | backend/app/cart_optimization/automatic_planning.py:172-196 | Every discovered candidate of every item is enriched with its item's key and quantity and the retailer its provider names, or planning stops at the first that cannot be. |
| AutomaticPlanning.GroupAllocations | backend/app/cart_optimization/automatic_planning.py:207-214 | Each allocation gets its checkout group, and the retailer allocations are the distinct pairs in order of first use. |
| AutomaticPlanning.BuildPlan | backend/app/cart_optimization/automatic_planning.py:203-253 | A combination becomes a plan exactly when every provider and validator accepts it. The plan has the inconvenience, priority and feasibility of the policy for its id and the evaluation of its own observation, on itself and on each of its groups; a combination that is refused fails for the reason the providers' answers call for. |
| AutomaticPlanning.BuiltPlanCarries | backend/app/cart_optimization/automatic_planning.py:203-253 | Every plan of a combination carries its picks, each in the group its provider names, one group per checkout, and the policy and evaluation of its own id. |
| AutomaticPlanning.BuildPlans | backend/app/cart_optimization/automatic_planning.py:201-253 | The loop builds the plan of every combination, or stops. |
| AutomaticPlanning.AttachEvaluations | backend/app/cart_optimization/construction.py:182-199 | The attached evaluations are the supplied ones, one per id in id order, unless two with one id differ. |
| AutomaticPlanning.GatherPlans | backend/app/cart_optimization/automatic_planning.py:143-253 | Plans are gathered exactly when every item has a ready candidate, everything enriches and every combination builds. |
| AutomaticPlanning.AttachToRequest | backend/app/cart_optimization/automatic_planning.py:254-273 | The optimization request is formed exactly when item keys and plan ids are distinct and evaluations agree. |
| AutomaticPlanning.PlanCart | backend/app/cart_optimization/automatic_planning.py:141-299 | Planning answers with the optimizer's result exactly when the built plans fit into an acceptable request, and is READY exactly when that result selects a plan; an invalid observation, a missing capture adapter or a missing plan-id authority ends it as the program does, by the first item or combination that fails. |
| AutomaticPlanning.RequestUnique | backend/app/cart_optimization/automatic_planning.py:254-273 | There is one optimization request that automatic planning can form from its inputs. |
| AutomaticPlanningLaws.ReadyHappens | backend/app/cart_optimization/automatic_planning.py:274-280 | For one item with one listing a plan is selected, so the guarantees about READY are not vacuous. |
| AutomaticPlanningLaws.EveryBuiltPlanFulfils | backend/app/cart_optimization/automatic_planning.py:203-253 | Every plan built from a cart with distinct keys and positive quantities passes fulfilment without error, and its effective feasibility is the declared one. |
| AutomaticPlanningLaws.ReadyIsBestOverEveryChoice | backend/app/cart_optimization/automatic_planning.py:198-280 | When READY, for every way of picking one candidate per item the plan built from the picks is a candidate plan and, if effectively feasible, no better than the recommendation. |
| AutomaticPlanningLaws.AnswerIsBestOverEveryChoice | backend/app/cart_optimization/automatic_planning.py:198-280 | The plan in a READY answer is built from one choice of candidates, declared feasible, and at least as good as the effectively feasible plan of every other choice. |
| AutomaticPlanningLaws.RecommendationIsAChoice | backend/app/cart_optimization/automatic_planning.py:198-280 | The recommendation is the plan of one positional choice and was declared feasible. |
| AutomaticPlanningLaws.EveryPickIsAChoice | backend/app/cart_optimization/construction.py:136-143 | Any pick of one enriched candidate per item is one of the positional choices. |
| AutomaticPlanningLaws.PlanGroups | backend/app/cart_optimization/automatic_planning.py:207-218 | The checkout groups a built plan declares are exactly those its allocations use. |
| PlatformGroups.PlatformCarts | backend/app/cart_optimization/types.py:468-509 | One cart per checkout group in use, each with its identifiers present, in the order of distinct group ids, holding between them every allocation exactly as often as the plan does; it fails exactly when the cart of a group in use has a blank identifier. |
| PlatformGroups.CartForHolds | backend/app/cart_optimization/types.py:484-509 | The cart of a group holds exactly the plan's allocations of it in item order, on the platform of the first; it has retailer and evaluation of a group declared under the id, or the first allocation's retailer and the plan's evaluation. |
| PlatformGroups.GroupAllocations | backend/app/cart_optimization/types.py:484-486 | The grouping loop files every allocation under its own group, in order. |
| JobQueue.EveryJobIsSound | backend/app/workers/background_jobs.py:85-131 | In every run, with any reports pending between their read and their write, a lease is present exactly while running, a finished job has a completion time, and attempts stay within the allowance plus the lease expiries. |
| JobQueue.StepKeepsJobs | backend/app/workers/background_jobs.py:85-131 | No step deletes a job, lowers its counters, raises them by more than one, or changes what it is allowed. |
| JobQueue.OthersKeepHolder | backend/app/workers/background_jobs.py:107-131 | Whatever other workers do, a report between its read and its commit keeps the row it read and the values it will write. |
| JobQueueLaws.DoneIsForeverIff | backend/app/workers/background_jobs.py:107-131 | From any reachable state a finished job stays finished throughout a run exactly if no retry that was decided on an earlier read is written over it. |
| JobQueueLaws.DoneIsFinalIff | backend/app/workers/background_jobs.py:107-131 | Its row stays unchanged throughout a run exactly if no write lands on it with another end or another completion time. |
| JobQueueLaws.CompletionTimesIff | backend/app/workers/background_jobs.py:107-131 | Completion times are set on exactly the finished jobs throughout a run exactly if no retry is written over a finished job. |
| JobQueueLaws.SuccessIsRevived | backend/app/workers/background_jobs.py:107-131 | A run in which a stale retry puts a succeeded job back into the queue, with its completion time kept. |
| JobQueueLaws.FreshKeepsDone | backend/app/workers/background_jobs.py:107-131 | If no row changes between a report's read and its write, a finished job never changes again. |
| JobQueueLaws.ExclusiveStep | backend/app/workers/background_jobs.py:85-131 | From any reachable state in which live leases exclude each other, a step breaks exclusion exactly if it is a write to a job that another unexpired holder has. |
| JobQueueLaws.IntrudesIff | backend/app/workers/background_jobs.py:107-131 | Whether a write does so can be read off the row: it does exactly if the row is running under an unexpired lease other than the writer's own. |
| JobQueueLaws.ExclusionIff | backend/app/workers/background_jobs.py:85-131 | Exclusion holds throughout a run exactly if no write lands on a row running under another, unexpired lease. |
| JobQueueLaws.AtMostOneLiveHolder | backend/app/workers/background_jobs.py:85-131 | If every report is written before the lease it was claimed under has expired, no job ever has two live holders. |
| JobQueueLaws.TimelyReadIsNotEnough | backend/app/workers/background_jobs.py:85-131 | A run with one report that read in time and is written after the next claim: two workers hold the job under unexpired leases and it has more attempts than allowed. |
| JobQueueLaws.OverAllowanceIff | backend/app/workers/background_jobs.py:85-131 | In every run a job has more attempts than allowed exactly if it was returned to the queue with its attempts used up, by lease expiry or by a retry written over later claims, and claimed at or after that step. |
| JobQueueLaws.FreshOverAllowanceIff | backend/app/workers/background_jobs.py:85-131 | If no row changes between a report's read and its write, attempts exceed the allowance exactly if a lease expired with the attempts used up and the job was claimed at or after that. |
| JobQueueLaws.ExpiryIsUnbounded | backend/app/workers/background_jobs.py:88-101 | For every n there is a run in which a job allowed one attempt has been attempted n + 1 times. |
| JobQueueLaws.RetryIsDelayed | backend/app/workers/background_jobs.py:117-131 | A retry read at some time and written, whatever others did in between, queues the job for that time plus its delay, exactly unless the row read already showed that time and another is stored by then. |
| JobQueueLaws.BackoffIsKept | backend/app/workers/background_jobs.py:92-94 | A job queued for a time is eligible at exactly the readings from it on, and as long as nothing is written to it no claim takes it at an earlier one, whatever run comes between. |
| JobQueueLaws.LeaseIsKept | backend/app/workers/background_jobs.py:85-105 | A claim counts an attempt and leases the job for the configured time; as long as nothing is written to the job no other claim takes it up to the end of that lease. |
| JobQueueLaws.LapsedIsReturned | backend/app/workers/background_jobs.py:88-91 | A claim returns every job whose lease has lapsed to the queue from its own time on, and leaves all others but the one it takes. |
| JobQueueLaws.OldestFirst | backend/app/workers/background_jobs.py:92-97 | While a job waits that can be locked, a claim takes one, and none created after it. |
| JobQueueLaws.EndIsRecorded | backend/app/workers/background_jobs.py:107-131 | A report on an unchanged row records how the attempt ended and when, and clears the lease. |
| JobQueueLaws.CreatedWaits | backend/app/workers/background_jobs.py:44-62 | A new job waits from the time of its creation, untried. |
| JobQueue.DurableJobStore.ExpireLeases | backend/app/workers/background_jobs.py:88-91 | Exactly the running jobs with an expired lease return to the queue. |
| JobQueue.DurableJobStore.SelectOldest | backend/app/workers/background_jobs.py:92-94 | The claim query returns the oldest eligible unlocked job, or none exactly when there is none. |
| JobQueue.DurableJobStore.ClaimJob | backend/app/workers/background_jobs.py:85-105 | A claim takes the machine's claim step: jobs, lease and the worker's holding. |
| JobQueue.DurableJobStore.Commit | backend/app/workers/background_jobs.py:112-129 | A commit writes the columns that were assigned other values over whatever row is stored by then. |
| JobQueue.DurableJobStore.ReportSuccess | backend/app/workers/background_jobs.py:107-115 | Success reads the row and, if it is running, commits after any steps of other workers; a row that is not running is left alone. |
| JobQueue.DurableJobStore.ReportFailure | backend/app/workers/background_jobs.py:117-131 | Failure decides on the row it read whether to retry or to fail, and commits that after any steps of other workers; a row that is not running is left alone. |
| RateLimits.PruneTwice | backend/app/main.py:77-77 | Pruning at an earlier time first makes no difference to pruning now. |
| RateLimits.InMemoryRateLimiter.Allow | backend/app/main.py:73-82 | At any clock reading the answer is the one the caller's readings call for; where they have not stepped back it is yes exactly while fewer than the limit of its admissions are less than the window ago. |
| RateLimits.InMemoryRateLimiter.Serve | backend/app/main.py:73-82 | Over any requests at any readings each caller's list is what its own readings leave, and a caller whose readings have not stepped back gets at most the limit into any window. |
| RateLimits.SlidingWindowBound | backend/app/main.py:77-80 | A history in which each admission was allowed given the earlier ones has at most the limit in any window. |
| RateLimits.SlidingWindowBoundIsMet | backend/app/main.py:77-80 | The bound is reached for every limit. |
| RateLimits.AdmitsIff | backend/app/main.py:77-80 | A request is admitted exactly while fewer than the limit of the admissions are less than the window ago. |
| RateLimits.PruneIsRaise | backend/app/main.py:77-77 | Pruning the kept list is noting the reading on every admission: the list is exactly the admissions no later reading has put out of the window, and the full history counts those plus the forgotten ones. |
| RateLimits.ClockStepBackIff | backend/app/main.py:77-82 | At any reading after any others the list admits what the full history of admissions refuses exactly when the admissions pruned by a later reading that count again are at least as many as the free places, and it never refuses what the history admits. |
| RateLimits.AgreesThroughoutIff | backend/app/main.py:73-82 | Over every sequence of readings the admissions are those of a limiter that never forgets, all along, exactly if that happens at no reading. |
| RateLimits.InOrderAdmitted | backend/app/main.py:73-82 | With readings in order every admission was admissible given all earlier ones. |
| RateLimits.ClockStepBackAdmitsMore | backend/app/main.py:77-82 | Readings 0, 20 and 5 at which the limiter admits what its full history would refuse. |
| RateLimits.FixedWindowBound | backend/app/core/rate_limit.py:17-23 | At most twice the limit, less one, is admitted in any window of the configured length. |
| RateLimits.RedisRateLimiter.Allow | backend/app/core/rate_limit.py:56-77 | A request is admitted exactly when the incremented counter is within the limit, with the remaining quota. |
| RateLimits.RedisRateLimiter.Serve | backend/app/core/rate_limit.py:56-77 | Over any sequence of requests with a non-decreasing clock a key stays within that bound. |
| RateLimits.MeetFixedWindowBound | backend/app/core/rate_limit.py:56-77 | A sequence of calls that reaches the bound, for every limit and window. |
| EffectiveCost.ExtractSubtotal | backend/app/cost_intelligence/effective_cost/subtotal.py:10-42 | A subtotal is extracted exactly when all totals of the best label class show one amount. |
| EffectiveCost.OneMoreTotal | backend/app/cost_intelligence/effective_cost/subtotal.py:32-42 | One more total of a worse class leaves the subtotal, one of a better class becomes it, and one of the same class leaves it exactly when it shows the same amount. |
| EffectiveCost.CollectDiscounts | backend/app/cost_intelligence/effective_cost/aggregation.py:18-32 | The discounts are every fixed discount and every eligible benefit, in order. |
| EffectiveCost.CollectFees | backend/app/cost_intelligence/effective_cost/aggregation.py:34-44 | The fees are every fee amount of a known type with a known applicability. |
| EffectiveCost.CollectDeferred | backend/app/cost_intelligence/effective_cost/aggregation.py:46-54 | Deferred value is the sum of every cashback and wallet credit of known value, exactly when there is one and all are in one currency. |
| EffectiveCost.CostIs | backend/app/cost_intelligence/effective_cost/aggregation.py:56-91 | The collected amounts are compatible exactly when all that count share the subtotal's currency, and add up to what is payable. |
| EffectiveCost.PropagateUnknowns | backend/app/cost_intelligence/effective_cost/unknowns.py:10-76 | The flag is set exactly when the subtotal is missing or something blocks; nothing is listed exactly when in addition no deferred value is unknown. |
| EffectiveCost.EvaluateCost | backend/app/cost_intelligence/effective_cost/service.py:27-74 | The cost is known exactly when a subtotal is extracted, nothing blocks and all amounts share its currency, and is subtotal minus fixed discounts and benefits plus fees, each once. |
| EffectiveCost.OneMoreFee | backend/app/cost_intelligence/effective_cost/aggregation.py:34-91 | One more fee raises a known cost by its amount when type, applicability and amount are known and the currency is the same, and makes it unknown otherwise. |
| EffectiveCost.OneMoreMembership | backend/app/cost_intelligence/effective_cost/aggregation.py:18-91 | One more membership lowers a known cost by its benefit when eligible, leaves it when not, and makes it unknown when either is unknown or the currency is another. |
| EffectiveCost.OneMoreOffer | backend/app/cost_intelligence/effective_cost/aggregation.py:18-91 | One more offer lowers a known cost by its amount for a fixed discount, leaves it for a percentage of known applicability, cashback and wallet credit, and makes it unknown otherwise. |
| EffectiveCost.CostIgnoresOrder | backend/app/cost_intelligence/effective_cost/service.py:27-74 | The order of totals, offers, fees and memberships changes neither whether the cost is known nor the cost. |
| EffectiveCost.CostIgnoresDeferred | backend/app/cost_intelligence/effective_cost/aggregation.py:46-74 | Deferred values, known or unknown, never enter the cost. |
| EffectiveCost.CostIsUnique | backend/app/cost_intelligence/effective_cost/service.py:27-74 | A checkout has at most one cost. |
| EffectiveCost.InapplicableFeesAreCharged | backend/app/cost_intelligence/effective_cost/aggregation.py:34-44 | A known cost is the cost without the fees marked not applicable, plus their amounts; so the two are equal exactly when these amounts sum to zero. |
| EffectiveCost.InapplicableFeesCanHideTheCost | backend/app/cost_intelligence/effective_cost/aggregation.py:56-91 | Where the cost is known without the fees marked not applicable, it is known with them exactly when each shows an amount in the same currency. |
| EffectiveCost.InapplicableDiscountsAreTaken | backend/app/cost_intelligence/effective_cost/aggregation.py:18-32 | A known cost is the cost without the fixed discounts marked not applicable, less their amounts; equal exactly when these sum to zero. |
| EffectiveCost.InapplicableDiscountsCanHideTheCost | backend/app/cost_intelligence/effective_cost/aggregation.py:56-91 | Where the cost is known without the fixed discounts marked not applicable, it is known with them exactly when each shows an amount in the same currency. |
| EffectiveCost.InapplicableFeeIsCharged | backend/app/cost_intelligence/effective_cost/aggregation.py:40-43 | A checkout that costs 150 with a fee marked not applicable and 100 without it. |
| EffectiveCost.UnknownCashbackUnsettles | backend/app/cost_intelligence/effective_cost/unknowns.py:10-76 | A checkout of known cost whose evaluation has an unknown, because of a cashback of unknown value. |
| EffectiveCost.EvaluateForPlan | backend/app/cost_intelligence/pipeline/service.py:98-108 | An evaluation has the checkout's cost where that is known, and can back a feasible plan exactly when the cost, every cashback and every wallet credit is known. |
| PlanningCosts.AcceptedIffSettled | backend/app/cart_optimization/service.py:244-265 | A plan automatic planning has built stops the optimization exactly if it is declared feasible and its checkout's cost, or a cashback or wallet credit on it, is unknown. |
| PlanningCosts.OneUnsettledStopsAll | backend/app/cart_optimization/automatic_planning.py:178-300 | One such plan is enough for planning to give no answer about any plan. |
| PlanningCosts.UnknownCashbackStopsPlanning | backend/app/cart_optimization/automatic_planning.py:178-300 | A cart whose only plan has a checkout of known cost with a cashback of unknown value, for which planning gives no answer. |
| PlanningCosts.ExampleIsReady | backend/app/cart_optimization/automatic_planning.py:178-300 | The same cart without the cashback, for which planning is READY. |
| PlanningCosts.ReadyIff | backend/app/cart_optimization/automatic_planning.py:141-299 | Planning is READY exactly if the plans build and fit together, every plan declared feasible has a checkout with cost and deferred values known, known costs share a currency, no plan is unresolved and one is feasible. |
| PlanningCosts.RecommendationIsCheapest | backend/app/cart_optimization/automatic_planning.py:141-299 | The recommended plan costs what is payable at its checkout, and no feasible plan from any choice of candidates costs less at its own. |
| PlanningCosts.RecommendationHasBestMerit | backend/app/cart_optimization/automatic_planning.py:141-299 | In the providers' own terms: no choice of candidates that its policy declares feasible does better than the recommended one on the cost of its checkout, then the number of distinct checkouts of its picks, then the inconvenience and the priority its policy gives for its id, then the id. |
| CheckoutObservations.CanonicalUnique | backend/app/cost_intelligence/observation/service.py:102-156 | An observation has at most one canonical form. |
| CheckoutObservations.OrderIsIrrelevant | backend/app/cost_intelligence/observation/service.py:102-156 | Reordering children or evidence references gives the same canonical form. |
| CheckoutObservations.CanonicalTwice | backend/app/cost_intelligence/observation/service.py:102-156 | A canonical observation is its own canonical form. |
| CheckoutObservations.SurvivorsUnique | backend/app/cost_intelligence/observation/service.py:253-289 | The keep-least loop has one possible outcome whichever order the references come in. |
| CheckoutObservations.CanonicalizeChildren | backend/app/cost_intelligence/observation/service.py:196-213 | The result has every child once, in the order of their JSON, its amount and reference price kept and its texts stripped, or is an error exactly when some label is blank. |
| CheckoutObservations.CanonicalizeEvidence | backend/app/cost_intelligence/observation/service.py:253-289 | The result has one reference per key, the one with the least payload, in key order. |
| CheckoutObservations.Canonicalize | backend/app/cost_intelligence/observation/service.py:102-171 | The canonical form is produced exactly when every part has a normal form and, if validating, evidence and children are there. |
| CheckoutObservations.CanonicalLabelsAreValid | backend/app/cost_intelligence/observation/service.py:173-194 | After a deep canonicalization the label and text checks cannot fail. |
| CheckoutObservations.AcceptanceIgnoresOrder | backend/app/cost_intelligence/observation/service.py:158-172 | Whether an observation is accepted does not depend on the order of its parts. |
| CheckoutObservations.CheckoutObservationRegistry.Register | backend/app/cost_intelligence/observation/service.py:55-88 | An observation is registered exactly when its texts, labels and sources are there and its times have a zone, with evidence and a child; what is filed under the canonical form's digest has each field as observed, up to blanks, case, time zone, order and duplicates, and nothing changes when it is there. |
| CheckoutObservations.CheckoutObservationRegistry.RegisterBoth | backend/app/cost_intelligence/observation/service.py:55-88 | Two accepted observations are registered under one id exactly when they agree field by field up to blanks, the platform's case, time zone, order of children and kept evidence. |
| CheckoutObservations.SameFormIff | backend/app/cost_intelligence/observation/service.py:102-156 | Two observations have one canonical form exactly when they agree so. |
| CheckoutObservations.CanonicalHasFields | backend/app/cost_intelligence/observation/service.py:102-156 | The canonical form has in each field what was observed: children keep amount and reference price, evidence is the least reference of each source, texts are stripped. |
| CheckoutObservations.AdmissibleIff | backend/app/cost_intelligence/observation/service.py:158-171 | An observation passes canonicalization and the checks after it exactly when texts, labels and sources are not blank, times have a zone, and there are evidence and a child. |
| CheckoutObservations.CheckoutObservationRegistry.RegisterTwice | backend/app/cost_intelligence/observation/service.py:55-88 | Two registrations of one observation in any order of its parts give one id and one record. |
| AssertionHistory.LaterPassesRaiseNothing | backend/app/product_intelligence/assertions/service.py:72-235 | The validation, the further canonical passes and both plans, run on an already normalised request, raise nothing but the reasons it is refused for, and plan exactly the revisions asked for. |
| AssertionHistory.DecisionsStayPresent | backend/app/product_intelligence/assertions/service.py:384-396 | Canonical decisions have no blank among them, so canonicalising them again does not fail. |
| AssertionHistory.HistoryOnlyGrows | backend/app/product_intelligence/assertions/service.py:237-249 | Whatever requests are applied, every earlier revision of every entity is kept, in order. |
| AssertionHistory.ReapplyChangesNothing | backend/app/product_intelligence/assertions/service.py:143-261 | Applying a request again, or with the returned product and variant substituted, leaves current and history unchanged. |
| AssertionHistory.MergeTwice | backend/app/product_intelligence/assertions/service.py:375-382 | Merged evidence merged again behind its first group stays as it is. |
| AssertionHistory.FirstsUnique | backend/app/product_intelligence/assertions/service.py:357-373 | There is one list holding the first reference of each key in key order. |
| AssertionHistory.AttributesTwice | backend/app/product_intelligence/assertions/service.py:315-333 | Canonical attributes are their own canonical form. |
| AssertionHistory.PlannedProductHolds | backend/app/product_intelligence/assertions/service.py:279-333 | The revision has every attribute of the product asserted, one by one and ordered by role, name, value, qualifier and status, all evidence of request and product by the first reference of each source, and nothing else of the product changed. |
| AssertionHistory.PlannedVariantHolds | backend/app/product_intelligence/assertions/service.py:296-355 | So has the variant's, with its components as they were, ordered by label, quantity text and measurement. |
| AssertionHistory.CanonicalizeEvidence | backend/app/product_intelligence/assertions/service.py:357-373 | The loop keeps the first stripped reference of each key, in key order, or fails exactly on a blank key part. |
| AssertionHistory.CanonicalizeDecisions | backend/app/product_intelligence/assertions/service.py:384-396 | The loop strips, deduplicates and sorts decisions, or fails exactly on a blank one. |
| AssertionHistory.AssertionManager.ValidateRequest | backend/app/product_intelligence/assertions/service.py:127-141 | No error exactly when an entity is given and there are evidence and decisions, none of them blank. |
| AssertionHistory.AssertionManager.Attempt | backend/app/product_intelligence/assertions/service.py:72-125 | Whichever pass raises, the store is as it was; only when both revisions are planned are both committed. |
| AssertionHistory.AssertionManager.Apply | backend/app/product_intelligence/assertions/service.py:72-125 | All or nothing: it fails exactly for a blank part, a missing entity, evidence or decision or a mismatch, leaving the store as it was; otherwise both entities carry the request field by field, no other has changed, what was replaced is the latest entry of its history, and the response shows both and their reference. |
| ArtifactStore.EveryRunIsSound | backend/app/data_ingestion/artifact_store/filesystem.py:33-59 | Over every run with a crash between any two file operations, metadata present means the matching payload present, and published files never change. |
| ArtifactStore.StoredIsRetrievable | backend/app/data_ingestion/artifact_store/filesystem.py:33-78 | The reference a store hands out is one it accepts as its own, and retrieves the stored bytes after any further run. |
| ArtifactStore.AcceptedIff | backend/app/data_ingestion/artifact_store/filesystem.py:33-59 | A publication is accepted exactly when its id is a plain path segment of two characters or more, its digest is the payload's, and nothing is published under the id and the process lives or just this is published already. |
| ArtifactStore.ValidIdIff | backend/app/data_ingestion/artifact_store/filesystem.py:183-187 | The character checks accept exactly the ids of two characters or more that are not all blank and have no separator, no colon and no two dots in a row. |
| ArtifactStore.StoringAgainIsIdempotent | backend/app/data_ingestion/artifact_store/filesystem.py:135-153 | Storing the same publication again answers with the same reference and changes nothing. |
| ArtifactStore.TornIff | backend/app/data_ingestion/artifact_store/filesystem.py:51-54 | A first publication is left without metadata exactly when the process dies between the two replacements. |
| ArtifactStore.TornIsForever | backend/app/data_ingestion/artifact_store/filesystem.py:44-45 | No later call repairs such an artifact; every attempt to store or retrieve it reports corruption. |
| ArtifactStore.LocalFilesystemArtifactStore.StoreArtifact | backend/app/data_ingestion/artifact_store/filesystem.py:33-59 | Store answers and leaves the files exactly as specified for every crash point. |
| ArtifactStore.LocalFilesystemArtifactStore.ResolveDuplicate | backend/app/data_ingestion/artifact_store/filesystem.py:135-153 | A duplicate is answered with the expected reference exactly when it is the stored one and the payload has its digest, with a conflict exactly when the same id is stored with another digest, and as corrupt otherwise. |
| ArtifactStore.LocalFilesystemArtifactStore.Retrieve | backend/app/data_ingestion/artifact_store/filesystem.py:61-78 | Retrieve returns only bytes whose digest the reference carries, exactly when that reference is the stored one. |
| Texts.StripIdempotent | backend/app/cost_intelligence/observation/service.py:291-307 | Stripping twice is stripping once. |
| Texts.StripIs | backend/app/cost_intelligence/observation/service.py:297-307 | Stripping leaves just the trimmed text between blanks. |
| Texts.StripSplits | backend/app/cost_intelligence/observation/service.py:297-307 | Every text is its stripped form between blanks. |
| Texts.LowerTells | backend/app/cost_intelligence/observation/service.py:291-295 | Two texts are one in lower case exactly when they agree letter by letter up to case. |

## Left out

- Claims without a key: `claim` then executes unprotected, so nothing relates such executions; the routes refuse a missing key before claiming.
- IdempotencyProtocol: a reply ends its transaction at once, while a session keeps its row lock until it closes; locks are released earlier than in the program, which only adds interleavings.
- IdempotencyService.Database.Handle: the stored response body is any text; that it is the JSON of the list returned is not modelled. Audit rows, item units and display names are left out, and a new item's id is assumed fresh.
- ShoppingLists: product evidence checks in `add_item` and the planner run in `create_optimization` are outcomes given to the operation.
- FilesystemStore: the lock inside one store and races between two loads; access is sequential.
- JobExecution: cancellation, expiry and blocking of jobs, which the coordinator never requests; failure categories that are not retryable never reach it either.
- CartOptimization.Optimize: rationale, unknowns and merged provenance follow request order and are not part of the result.
- CartPlanningService.plan beyond its combination limit: supplied plans, contexts and the evaluation memo.
- Blank: only spaces, tabs and line breaks are stripped, and only ASCII letters are lowered.
- AutomaticPlanning.PlanCart: provider answers are functions, so a provider that changes its mind during one call is not covered; the reasons reported with an unresolved result are left out.
- JobQueue: the columns `result`, `last_error`, `started_at` and `updated_at`, which decide nothing, and the deletion of a user's jobs. The two statements of a claim see one state.
- RetryDelay: the length of the backoff, any non-negative delay is allowed; `create` and its own idempotency key.
- RateLimits.RedisRateLimiter.Allow: one limit and one window per limiter; a counter is gone the moment its time to live has elapsed.
- EffectiveCost: label and rupee parsing; totals come with their label class, offers, fees and memberships with their evaluated fields. Evaluation ids, which depend on list order, are given.
- CheckoutObservations.CheckoutObservationRegistry.Register: the observation id keeps 24 hex digits of the digest in the program; the collision it could raise is outside the model.
- AssertionHistory: measurement values are integers rather than decimals, and comparing equal instants written in two time zones counts as different.
- ArtifactStore: partially written temporary files, which are never read, and file-system errors other than a crash.
- Frontend, scraping, authentication, sessions, configuration, logging and metrics.
