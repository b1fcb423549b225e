/**
 * `JobExecutionCoordinator.execute` with the worker and the runtime it drives. Each
 * report goes through the store, which may be the save the process is killed at.
 */
module JobExecution {
  import opened Outcomes
  import opened LifecycleGraph
  import opened LifecycleStore
  import opened JobCoordinator

  /** Every stage up to the parsed batch goes through. */
  predicate Ingests(script: Script) { script.queried && script.acquires && script.stores && script.parses && script.observes }

  predicate AllResolved(script: Script) {
    forall i :: 0 <= i < |script.observations| ==> script.observations[i] == Resolved
  }

  /** Where the worker leaves the job, and with which result, when no save crashes. */
  function WorkerOutcome(script: Script): (WorkerResult, JobState)
  {
    if !script.queried || !script.acquires then (FailedAt(NETWORK_ERROR), ACQUIRING)
    else if !script.stores then (FailedAt(STORAGE_FAILURE), ACQUIRING)
    else if !script.parses then (FailedAt(PARSER_RUNTIME_FAILURE), PARSING)
    else if !script.observes then (FailedAt(PARSER_RUNTIME_FAILURE), PARSED)
    else (Parsed, PARSED)
  }

  /** The worker's result and the state it stops in, by the first stage that fails. */
  ghost predicate WorkerEnds(script: Script, result: WorkerResult, state: JobState) {
    && (result == Parsed <==> Ingests(script))
    && (result == FailedAt(NETWORK_ERROR) <==> !(script.queried && script.acquires))
    && (result == FailedAt(STORAGE_FAILURE) <==> script.queried && script.acquires && !script.stores)
    && (result == FailedAt(PARSER_RUNTIME_FAILURE) <==>
          script.queried && script.acquires && script.stores && !(script.parses && script.observes))
    && (state == ACQUIRING <==> !(script.queried && script.acquires && script.stores))
    && (state == PARSING <==> script.queried && script.acquires && script.stores && !script.parses)
    && (state == PARSED <==> script.queried && script.acquires && script.stores && script.parses)
  }

  lemma {:induction false} WorkerOutcomeEnds(script: Script)
    ensures WorkerEnds(script, WorkerOutcome(script).0, WorkerOutcome(script).1)
  {
  }

  /** The state an interrupted job is recovered from. */
  function Leased(current: JobState): JobState { if current.QUEUED? then DEQUEUED else current }

  predicate RecoveryRetries(current: JobState, n: nat) {
    n < MAX_ATTEMPTS && Allowed(Leased(current), RETRY_SCHEDULED)
  }

  /** The next `execute` reaches the worker. */
  predicate CanStart(r: Option<Lifecycle>)
    requires r.Some? ==> r.value.transitions != []
  {
    r.None? ||
    (var current := Last(r.value);
     if Terminal(current) then false
     else if Unfinalized(r.value) then RecoveryRetries(current, Attempt(r.value))
     else current in {QUEUED, RETRY_SCHEDULED} && Attempt(r.value) < MAX_ATTEMPTS)
  }

  ghost predicate AllRecorded(r: Lifecycle) {
    forall n :: n in r.allocations ==> exists i :: 0 <= i < |r.attempts| && r.attempts[i].number == n
  }

  /**
   * While fewer than three attempts were given, the next one starts from the queue or a
   * scheduled retry when all of them are recorded, and else from the queue or any stage
   * an interrupted attempt can be retried from.
   */
  lemma {:induction false} CanStartIff(r: Lifecycle)
    requires r.transitions != []
    ensures CanStart(Some(r)) <==>
      && |r.allocations| < 3
      && if AllRecorded(r) then Last(r) in {QUEUED, RETRY_SCHEDULED}
         else Last(r) in {QUEUED, DEQUEUED, ACQUIRING, PARSING, NORMALIZING, REGISTERING_OBSERVATION, PUBLISHING_PIPELINE_EVENT}
  {
    hide AllRecorded;
    RecordedIff(r);
  }

  lemma {:induction false} RecordedIff(r: Lifecycle)
    ensures AllRecorded(r) <==> !Unfinalized(r)
  {
    forall n ensures n in Numbers(r.attempts) <==> exists i :: 0 <= i < |r.attempts| && r.attempts[i].number == n {
      if i :| 0 <= i < |r.attempts| && r.attempts[i].number == n {
        assert Numbers(r.attempts)[i] == n;
      }
    }
  }

  /** Why an attempt that cannot start is refused. */
  function StartRefusal(r: Option<Lifecycle>): StoreError
    requires r.Some? ==> r.value.transitions != []
  {
    if r.Some? && Terminal(Last(r.value)) then TerminalJob else Conflict
  }

  /** What an uninterrupted attempt number `n` comes to. */
  function Verdict(script: Script, n: nat): Result<RunStatus, StoreError>
  {
    var (result, state) := WorkerOutcome(script);
    if result.FailedAt? then
      if state == PARSED && n < MAX_ATTEMPTS then Err(Conflict) else Ok(IngestionFailed)
    else if !script.normalizes then Ok(NormalizationFailed)
    else if script.runtimeRaises then Err(RuntimeRaised)
    else if AllResolved(script) then Ok(Completed)
    else Ok(CompletedWithFailures)
  }

  /** What an attempt's result says of its boundaries: which of them failed, and whether every observation was resolved. */
  ghost predicate Accounts(script: Script, n: nat, r: Result<RunStatus, StoreError>) {
    && (r == Ok(Completed) <==> Ingests(script) && script.normalizes && !script.runtimeRaises && AllResolved(script))
    && (r == Ok(CompletedWithFailures) <==> Ingests(script) && script.normalizes && !script.runtimeRaises && !AllResolved(script))
    && (r == Ok(NormalizationFailed) <==> Ingests(script) && !script.normalizes)
    && (r == Err(RuntimeRaised) <==> Ingests(script) && script.normalizes && script.runtimeRaises)
    && (r == Err(Conflict) <==> LosesItsRetry(script, n))
    && (r == Ok(IngestionFailed) <==> !Ingests(script) && !LosesItsRetry(script, n))
  }

  /** Only the registration of parsed observations failed, for which the graph has no retry. */
  predicate LosesItsRetry(script: Script, n: nat) {
    script.queried && script.acquires && script.stores && script.parses && !script.observes && n < MAX_ATTEMPTS
  }

  /** What the runtime's status says of a parsed batch. */
  ghost predicate Ran(script: Script, status: RunStatus) {
    && (status == NormalizationFailed <==> !script.normalizes)
    && (status == Completed <==> script.normalizes && AllResolved(script))
    && (status == CompletedWithFailures <==> script.normalizes && !AllResolved(script))
  }

  lemma {:induction false} RanIsVerdict(script: Script, n: nat, status: RunStatus)
    requires Ran(script, status) && (script.normalizes ==> !script.runtimeRaises) && WorkerOutcome(script).0 == Parsed
    ensures Verdict(script, n) == Ok(status)
  {
    hide AllResolved;
  }

  lemma {:induction false} VerdictAccounts(script: Script, n: nat)
    ensures Accounts(script, n, Verdict(script, n))
  {
  }

  /** The set of statuses and what it says of the run. */
  method Summarize(observations: seq<ObservationStatus>) returns (status: RunStatus)
    ensures status == Completed <==> forall i :: 0 <= i < |observations| ==> observations[i] == Resolved
    ensures status == CompletedWithFailures <==> exists i :: 0 <= i < |observations| && observations[i] != Resolved
  {
    var statuses: set<ObservationStatus> := {};
    for i := 0 to |observations|
      invariant forall k :: 0 <= k < i ==> observations[k] in statuses
      invariant forall s :: s in statuses ==> exists k :: 0 <= k < i && observations[k] == s
    {
      statuses := statuses + {observations[i]};
    }
    if statuses == {} {
      return Completed;
    }
    return if statuses == {Resolved} then Completed else CompletedWithFailures;
  }

  /** Every failure the worker and the coordinator report is a retryable one. */
  function AfterFailure(n: nat): JobState { if n < MAX_ATTEMPTS then RETRY_SCHEDULED else DEAD_LETTERED }

  /** The graph accepts the outcome of every worker failure but one. */
  lemma {:induction false} FailureEdges(n: nat, script: Script)
    requires WorkerOutcome(script).0.FailedAt?
    ensures var state := WorkerOutcome(script).1;
      Allowed(state, AfterFailure(n)) <==> !(state == PARSED && n < MAX_ATTEMPTS)
  {
  }

  /** The first report of a job is accepted, and starts its record. */
  lemma {:induction false} FirstReport(jobId: string, now: int)
    ensures Intact(Empty(jobId)) && Appended(Empty(jobId), Created(jobId, now)) == Ok(JobCoordinator.Started(jobId, now))
  {
    var p := PersistedTransition(1, Identity(Created(jobId, now)), Created(jobId, now));
    assert Empty(jobId).transitions + [p] == [p];
  }

  lemma {:induction false} WalkEdges(n: nat)
    ensures Allowed(PARSED, NORMALIZING) && Allowed(PUBLISHING_PIPELINE_EVENT, COMPLETED)
    ensures Allowed(NORMALIZING, AfterFailure(n)) && Allowed(PUBLISHING_PIPELINE_EVENT, AfterFailure(n))
  {
  }

  lemma {:induction false} IngestionEdges()
    ensures Allowed(DEQUEUED, ACQUIRING) && Allowed(ACQUIRING, ARTIFACT_CAPTURED)
    ensures Allowed(ARTIFACT_CAPTURED, PARSING) && Allowed(PARSING, PARSED)
  {
  }

  /** The failure the latest transition carries, if any. */
  function LastFailure(r: Lifecycle): Option<Failure>
    requires r.transitions != []
  {
    r.transitions[|r.transitions| - 1].transition.payload.failure
  }

  class Coordinator {
    const jobId: string
    const store: FilesystemStore
      /** Attempt numbers for which the acquisition boundary was called. */
    var acquired: seq<nat>
      /** The saves made so far, over all `execute` calls. */
    ghost var history: seq<Step>

    constructor (jobId: string, store: FilesystemStore)
      requires store.Valid() && jobId !in store.files
      ensures this.jobId == jobId && this.store == store && acquired == [] && Valid()
    {
      this.jobId, this.store, acquired, history := jobId, store, [], [];
    }

    predicate Started() reads store { jobId in store.files }

    function Stored(): Lifecycle
      requires Started()
      reads store
    {
      store.files[jobId]
    }

    function Saved(): Option<Lifecycle> reads store {
      if Started() then Some(Stored()) else None
    }

    ghost predicate Valid() reads this, store {
      && store.Valid()
      && Saved() == Replay(jobId, history)
      && (Started() ==> Stored().transitions != [])
      && (forall i :: 0 <= i < |acquired| ==> 1 <= acquired[i] <= if Started() then Attempt(Stored()) else 0)
      && (forall i, j :: 0 <= i < j < |acquired| ==> acquired[i] < acquired[j])
    }

    /** The job stands at `state` within attempt `n`. */
    ghost predicate At(state: JobState, n: nat) reads this, store {
      Valid() && Started() && Last(Stored()) == state && Attempt(Stored()) == n
    }

    /** Attempt `n` is recorded, with the outcome that goes with it, and the job has been left at `state`. */
    ghost predicate Finalized(state: JobState, n: nat) reads this, store {
      && At(state, n)
      && Stored().attempts != []
      && var last := Stored().attempts[|Stored().attempts| - 1];
         && last.number == n
         && (last.outcome == SUCCEEDED <==> state == COMPLETED)
         && (last.outcome == RETRY <==> state == RETRY_SCHEDULED)
         && (last.outcome == EXHAUSTED <==> state == DEAD_LETTERED)
    }

    /** The job's first transition. */
    method AcceptJob(now: int) returns (r: Result<(), StoreError>)
      requires Valid() && !Started()
      modifies this`history, store
      ensures Valid()
      ensures r.Ok? ==> At(CREATED, 0) && |Stored().transitions| == 1 && Stored().attempts == []
      ensures r.Err? ==> r == Err(Crashed) && !Started()
    {
      hide Appended, Intact;
      FirstReport(jobId, now);
      ReplayStep(jobId, history, Accept(now));
      var t := Created(jobId, now);
      var appended := store.AppendTransition(t);
      if appended.Err? {
        return Err(appended.error);
      }
      assert Stored() == JobCoordinator.Started(jobId, now);
      history := history + [Accept(now)];
      return Ok(());
    }

    /** `record_transition`, for every later transition. */
    method RecordTransition(
      previous: JobState, current: JobState, reason: string, failure: Option<Failure>, now: int
    ) returns (r: Result<(), StoreError>)
      requires Valid() && Started()
      requires Disciplined(Stored(), Report(previous, current, reason, failure, now))
      modifies this`history, store
      ensures Valid() && Started()
      ensures Stored().allocations == old(Stored()).allocations && Stored().attempts == old(Stored()).attempts
      ensures previous == old(Last(Stored())) && Allowed(previous, current) && r.Ok? ==>
        && |Stored().transitions| == |old(Stored()).transitions| + 1
        && Stored().transitions[|old(Stored()).transitions|].transition ==
          Transition(Payload(jobId, Some(previous), current, reason, Tag(old(Stored())), failure), now)
      ensures previous == old(Last(Stored())) && Allowed(previous, current) ==>
        && (r.Err? ==> r == Err(Crashed))
        && (r.Ok? ==> Last(Stored()) == current && |Stored().transitions| == |old(Stored()).transitions| + 1)
      ensures previous != old(Last(Stored())) || !Allowed(previous, current) || r.Err? ==> Stored() == old(Stored())
      ensures !Allowed(previous, current) ==> r == Err(Conflict)
      ensures previous != old(Last(Stored())) && Attempt(Stored()) > 0 && NoneFrom(Stored(), Attempt(Stored())) ==> r == Err(Conflict)
    {
      hide Replay, Intact, Appended, NextStates, Disciplined;
      ghost var step := Report(previous, current, reason, failure, now);
      ReportOutcome(jobId, history, step);
      ReplayStep(jobId, history, step);
      var t := Transition(Payload(jobId, Some(previous), current, reason, Tag(Stored()), failure), now);
      var appended := store.AppendTransition(t);
      if appended.Err? {
        return Err(appended.error);
      }
      history := history + [step];
      return Ok(());
    }

    /** `record_transition` along an edge of the walk: it goes through unless the process is killed. */
    method Advance(n: nat, previous: JobState, current: JobState, reason: string, now: int) returns (r: Result<(), StoreError>)
      requires At(previous, n) && n >= 1 && Allowed(previous, current) && !Requeues(previous, current)
      modifies this`history, store
      ensures Valid() && Started() && Attempt(Stored()) == n && Stored().attempts == old(Stored()).attempts
      ensures r.Err? ==> r == Err(Crashed)
      ensures r.Ok? ==> At(current, n)
    {
      hide Replay;
      r := RecordTransition(previous, current, reason, None, now);
    }

    method AllocateAttempt() returns (r: Result<nat, StoreError>)
      requires Valid() && Started()
      modifies this`history, store
      ensures Valid() && Started()
      ensures Stored().transitions == old(Stored()).transitions && Stored().attempts == old(Stored()).attempts
      ensures var n := old(Attempt(Stored())) + 1;
        && (r == Err(Crashed) || if n <= MAX_ATTEMPTS then r.Ok? else r == Err(Conflict))
        && (r.Ok? ==> r.value == n == Attempt(Stored()) && n !in Numbers(Stored().attempts) && NoneFrom(Stored(), n))
        && (r.Ok? && Last(Stored()).RETRY_SCHEDULED? ==> n >= 2)
    {
      hide Replay, Intact, NextAttemptNumber;
      AllocateOutcome(jobId, history);
      ReplayStep(jobId, history, Step.Allocate);
      r := store.AllocateAttemptNumber(jobId);
      if r.Ok? {
        history := history + [Step.Allocate];
      }
    }

    /** `_recover_interrupted`. */
    method RecoverInterrupted(now: int) returns (r: Result<(), StoreError>)
      requires Valid() && Started() && Unfinalized(Stored()) && !Terminal(Last(Stored()))
      modifies this`history, store
      ensures Valid() && Started()
      ensures Stored().allocations == old(Stored()).allocations && Stored().attempts == old(Stored()).attempts
      ensures var current, n := old(Last(Stored())), Attempt(Stored());
        r == Err(Crashed) ||
        if RecoveryRetries(current, n) then r.Ok? && Last(Stored()) == RETRY_SCHEDULED
        else if Allowed(Leased(current), DEAD_LETTERED) then r.Ok? && Last(Stored()) == DEAD_LETTERED
        else r == Err(Conflict) && Last(Stored()) == Leased(current)
      ensures r.Ok? ==> LastFailure(Stored()) == Some(Failure(WORKER_CRASH, true, Attempt(Stored())))
    {
      hide Replay;
      var n := Attempt(Stored());
      var current := Last(Stored());
      if current.QUEUED? {
        var _ :- RecordTransition(QUEUED, DEQUEUED, "recovered interrupted lease", None, now);
        current := DEQUEUED;
      }
      var canRetry := n < MAX_ATTEMPTS && Allowed(current, RETRY_SCHEDULED);
      var next := if canRetry then RETRY_SCHEDULED else DEAD_LETTERED;
      var reason := if canRetry then "interrupted attempt recovered" else "interrupted attempt dead-lettered";
      r := RecordTransition(current, next, reason, Some(Failure(WORKER_CRASH, true, n)), now);
    }

    /** Allocate a number and lease the job, which goes through from QUEUED and RETRY_SCHEDULED only. */
    method Lease(now: int) returns (r: Result<nat, StoreError>)
      requires Valid() && Started()
      modifies this`history, store
      ensures Valid() && Started()
      ensures r == Err(Crashed) ||
        if old(Last(Stored())) in {QUEUED, RETRY_SCHEDULED} && old(Attempt(Stored())) < MAX_ATTEMPTS then r.Ok?
        else r == Err(Conflict)
      ensures r.Ok? ==>
        && At(DEQUEUED, r.value) && r.value == old(Attempt(Stored())) + 1
        && r.value !in Numbers(Stored().attempts)
    {
      hide Replay, Intact, Numbers, NoneFrom;
      var n :- AllocateAttempt();
      if Last(Stored()).RETRY_SCHEDULED? {
        var _ :- RecordTransition(RETRY_SCHEDULED, QUEUED, "retry became eligible", None, now);
      }
      var _ :- RecordTransition(QUEUED, DEQUEUED, "worker leased job", None, now);
      return Ok(n);
    }

    /** `_prepare_attempt`: the worker is reached exactly when `CanStart` says so. */
    method PrepareAttempt(now: int) returns (r: Result<nat, StoreError>)
      requires Valid()
      modifies this`history, store
      ensures Valid()
      ensures old(Started()) ==> Started()
      ensures r == Err(Crashed) || if old(CanStart(Saved())) then r.Ok? else r == Err(old(StartRefusal(Saved())))
      ensures r == Err(TerminalJob) <==> old(Started() && Terminal(Last(Stored())))
      ensures r.Ok? ==>
        && At(DEQUEUED, r.value)
        && r.value == 1 + (if old(Started()) then old(Attempt(Stored())) else 0)
        && r.value !in Numbers(Stored().attempts)
        && (forall i :: 0 <= i < |acquired| ==> acquired[i] < r.value)
    {
      hide Replay, Intact, Numbers, Unfinalized, NextStates;
      if !Started() {
        var _ :- AcceptJob(now);
        var _ :- Enqueue(now);
      } else if Terminal(Last(Stored())) {
        return Err(TerminalJob);
      } else if Unfinalized(Stored()) {
        var _ :- RecoverInterrupted(now);
      }
      r := Lease(now);
    }

    method Enqueue(now: int) returns (r: Result<(), StoreError>)
      requires At(CREATED, 0) && |Stored().transitions| == 1
      modifies this`history, store
      ensures Valid() && Started()
      ensures r.Ok? ==> At(QUEUED, 0)
      ensures r.Err? ==> r == Err(Crashed)
    {
      hide Replay, Intact;
      r := RecordTransition(CREATED, QUEUED, "job queued", None, now);
    }

    /** An exception inside the worker's `try` becomes a failed result; a kill does not. */
    function Caught(error: StoreError, category: FailureCategory): Result<WorkerResult, StoreError> {
      if error.Crashed? then Err(Crashed) else Ok(FailedAt(category))
    }

    /** `LocalIngestionWorker.execute`. */
    method RunWorker(n: nat, script: Script) returns (r: Result<WorkerResult, StoreError>)
      requires At(DEQUEUED, n) && n >= 1
      requires forall i :: 0 <= i < |acquired| ==> acquired[i] < n
      modifies this, store
      ensures Valid() && Started() && Attempt(Stored()) == n && Stored().attempts == old(Stored()).attempts
      ensures r.Err? ==> r == Err(Crashed)
      ensures r.Ok? ==> (r.value, Last(Stored())) == WorkerOutcome(script) && WorkerEnds(script, r.value, Last(Stored()))
      ensures acquired == old(acquired) || acquired == old(acquired) + [n]
      ensures r.Ok? ==> acquired == old(acquired) + if script.queried then [n] else []
    {
      hide Replay, Intact, WorkerEnds, Numbers, NextStates;
      WorkerOutcomeEnds(script);
      IngestionEdges();
      var now := script.now;
      var reported := Advance(n, DEQUEUED, ACQUIRING, "acquisition started", now);
      if reported.Err? {
        return Caught(reported.error, NETWORK_ERROR);
      }
      if !script.queried {
        return Ok(FailedAt(NETWORK_ERROR));
      }
      acquired := acquired + [n];
      if !script.acquires {
        return Ok(FailedAt(NETWORK_ERROR));
      }
      if !script.stores {
        return Ok(FailedAt(STORAGE_FAILURE));
      }
      reported := Advance(n, ACQUIRING, ARTIFACT_CAPTURED, "artifact captured", now);
      if reported.Err? {
        return Caught(reported.error, STORAGE_FAILURE);
      }
      reported := Advance(n, ARTIFACT_CAPTURED, PARSING, "parsing started", now);
      if reported.Err? {
        return Caught(reported.error, PARSER_RUNTIME_FAILURE);
      }
      if !script.parses {
        return Ok(FailedAt(PARSER_RUNTIME_FAILURE));
      }
      reported := Advance(n, PARSING, PARSED, "parsing completed", now);
      if reported.Err? {
        return Caught(reported.error, PARSER_RUNTIME_FAILURE);
      }
      if !script.observes {
        return Ok(FailedAt(PARSER_RUNTIME_FAILURE));
      }
      return Ok(Parsed);
    }

    /** Report the normalized batch and the start of registration. */
    method Normalize(n: nat, now: int) returns (r: Result<(), StoreError>)
      requires At(NORMALIZING, n) && n >= 1
      modifies this`history, store
      ensures Valid() && Started() && Attempt(Stored()) == n && Stored().attempts == old(Stored()).attempts
      ensures r.Err? ==> r == Err(Crashed)
      ensures r.Ok? ==> At(REGISTERING_OBSERVATION, n)
    {
      hide Replay, Intact, Numbers, Valid;
      var _ :- Advance(n, NORMALIZING, NORMALIZED, "normalization completed", now);
      var _ :- Advance(n, NORMALIZED, REGISTERING_OBSERVATION, "observation registration started", now);
      return Ok(());
    }

    /** `execute_worker_result`, up to its status. */
    method RunRuntime(n: nat, script: Script) returns (r: Result<RunStatus, StoreError>)
      requires At(NORMALIZING, n) && n >= 1
      modifies this`history, store
      ensures Valid() && Started() && Attempt(Stored()) == n && Stored().attempts == old(Stored()).attempts
      ensures r.Err? ==> r == Err(Crashed) || (script.normalizes && script.runtimeRaises && r == Err(RuntimeRaised))
      ensures r.Ok? ==> Ran(script, r.value)
      ensures r.Ok? && !script.normalizes ==> At(NORMALIZING, n)
      ensures r.Ok? && script.normalizes ==> !script.runtimeRaises && At(PUBLISHING_PIPELINE_EVENT, n)
    {
      hide Replay, Intact, Numbers, Valid;
      if !script.normalizes {
        return Ok(NormalizationFailed);
      }
      var _ :- Normalize(n, script.now);
      if script.runtimeRaises {
        return Err(RuntimeRaised);
      }
      var _ :- Publish(n, script.now);
      var status := Summarize(script.observations);
      return Ok(status);
    }

    /** Report the registered observations and start publication. */
    method Publish(n: nat, now: int) returns (r: Result<(), StoreError>)
      requires At(REGISTERING_OBSERVATION, n) && n >= 1
      modifies this`history, store
      ensures Valid() && Started() && Attempt(Stored()) == n && Stored().attempts == old(Stored()).attempts
      ensures r.Err? ==> r == Err(Crashed)
      ensures r.Ok? ==> At(PUBLISHING_PIPELINE_EVENT, n)
    {
      hide Replay, Intact, Numbers, Valid;
      var _ :- Advance(n, REGISTERING_OBSERVATION, REGISTERED, "observations registered", now);
      var _ :- Advance(n, REGISTERED, PUBLISHING_PIPELINE_EVENT, "pipeline publication started", now);
      return Ok(());
    }

    /** `_handle_failure`: retry below the limit, dead-letter at it; the graph has the last word. */
    method HandleFailure(n: nat, category: FailureCategory, now: int) returns (r: Result<ScrapeAttempt, StoreError>)
      requires Valid() && Started() && Attempt(Stored()) == n >= 1
      modifies this`history, store
      ensures Valid() && Started() && Attempt(Stored()) == n && Stored().attempts == old(Stored()).attempts
      ensures var next := if !Retryable(category) then FAILED else if n < MAX_ATTEMPTS then RETRY_SCHEDULED else DEAD_LETTERED;
        if Allowed(old(Last(Stored())), next) then
          r == Err(Crashed) || (r.Ok? && Last(Stored()) == next && r.value.jobId == jobId && r.value.number == n
            && (r.value.outcome == RETRY <==> next == RETRY_SCHEDULED) && (r.value.outcome == EXHAUSTED <==> next == DEAD_LETTERED)
            && r.value.outcome != SUCCEEDED)
        else r == Err(Conflict)
      ensures r.Ok? ==> LastFailure(Stored()) == Some(Failure(category, Retryable(category), n))
    {
      hide Replay;
      var current := Last(Stored());
      var retryable := Retryable(category) && n < MAX_ATTEMPTS;
      var next := if retryable then RETRY_SCHEDULED else if Retryable(category) then DEAD_LETTERED else FAILED;
      var _ :- RecordTransition(
        current, next, if retryable then "retry scheduled" else "execution failed",
        Some(Failure(category, Retryable(category), n)), now);
      var outcome := if retryable then RETRY else if Retryable(category) then EXHAUSTED else TERMINAL_FAILURE;
      return Ok(ScrapeAttempt(jobId, n, outcome, now));
    }

    method FinalizeAttempt(attempt: ScrapeAttempt) returns (r: Result<ScrapeAttempt, StoreError>)
      requires Valid() && Started() && attempt.jobId == jobId && attempt.number == Attempt(Stored()) >= 1
      requires attempt.number !in Numbers(Stored().attempts)
      modifies this`history, store
      ensures Valid() && Started() && Stored().transitions == old(Stored()).transitions
      ensures Attempt(Stored()) == attempt.number
      ensures r == Err(Crashed) || (r.Ok? && Stored().attempts == old(Stored()).attempts + [attempt])
    {
      hide Replay, Intact;
      ghost var step := Finalize(attempt.outcome, attempt.finishedAt);
      FinalizeOutcome(jobId, history, attempt);
      ReplayStep(jobId, history, step);
      r := store.RecordAttempt(attempt);
      if r.Ok? {
        history := history + [step];
      }
    }

    /** `_handle_failure` and the final `record_attempt`. */
    method FailAttempt(n: nat, category: FailureCategory, now: int) returns (r: Result<(), StoreError>)
      requires Valid() && Started() && Attempt(Stored()) == n >= 1 && n !in Numbers(Stored().attempts)
      requires Retryable(category)
      modifies this`history, store
      ensures Valid() && Started() && Attempt(Stored()) == n
      ensures Allowed(old(Last(Stored())), AfterFailure(n)) ==> r == Err(Crashed) || r.Ok?
      ensures !Allowed(old(Last(Stored())), AfterFailure(n)) ==> r == Err(Conflict)
      ensures r.Ok? ==> Finalized(AfterFailure(n), n)
    {
      hide Replay, Intact, NextStates;
      var failed :- HandleFailure(n, category, now);
      var _ :- FinalizeAttempt(failed);
      return Ok(());
    }

    /** From the runtime's status to the end of the attempt. */
    method Conclude(n: nat, status: RunStatus, now: int) returns (r: Result<(), StoreError>)
      requires At(if status == NormalizationFailed then NORMALIZING else PUBLISHING_PIPELINE_EVENT, n)
      requires n >= 1 && n !in Numbers(Stored().attempts)
      modifies this`history, store
      ensures Valid() && Started() && Attempt(Stored()) == n
      ensures r.Err? ==> r == Err(Crashed)
      ensures r.Ok? ==> Finalized(if status == Completed then COMPLETED else AfterFailure(n), n)
    {
      hide Replay, Intact, Numbers, Valid, NextStates, NoneFrom, FindTransition;
      WalkEdges(n);
      if status == Completed {
        var _ :- Advance(n, PUBLISHING_PIPELINE_EVENT, COMPLETED, "pipeline completed", now);
        var _ :- FinalizeAttempt(ScrapeAttempt(jobId, n, SUCCEEDED, now));
      } else {
        var _ :- FailAttempt(n, PIPELINE_PUBLICATION_FAILURE, now);
      }
      return Ok(());
    }

    /** From the parsed batch to the end of the attempt. */
    method RunDownstream(n: nat, script: Script) returns (r: Result<RunStatus, StoreError>)
      requires At(PARSED, n) && n >= 1 && n !in Numbers(Stored().attempts)
      modifies this`history, store
      ensures Valid() && Started() && Attempt(Stored()) == n
      ensures r.Err? ==> r == Err(Crashed) || (script.normalizes && script.runtimeRaises && r == Err(RuntimeRaised))
      ensures r.Ok? ==> (script.normalizes ==> !script.runtimeRaises) && Ran(script, r.value)
      ensures r.Ok? ==>
        Finalized(if r.value == Completed then COMPLETED else AfterFailure(n), n)
    {
      hide Replay, Intact, Numbers, Valid, NextStates, NoneFrom, FindTransition, AllResolved;
      WalkEdges(n);
      var _ :- Advance(n, PARSED, NORMALIZING, "normalization started", script.now);
      var status :- RunRuntime(n, script);
      var _ :- Conclude(n, status, script.now);
      return Ok(status);
    }

    /** `execute` from the leased job on. */
    method RunAttempt(n: nat, script: Script) returns (r: Result<RunStatus, StoreError>)
      requires At(DEQUEUED, n) && n >= 1 && n !in Numbers(Stored().attempts)
      requires forall i :: 0 <= i < |acquired| ==> acquired[i] < n
      modifies this, store
      ensures Valid() && Started() && Attempt(Stored()) == n
      ensures r == Err(Crashed) || r == Verdict(script, n)
      ensures r.Ok? ==> Finalized(if r.value == Completed then COMPLETED else AfterFailure(n), n)
      ensures acquired == old(acquired) || acquired == old(acquired) + [n]
      ensures r.Ok? ==> acquired == old(acquired) + if script.queried then [n] else []
    {
      hide Replay, Intact, CanStart, Unfinalized, Numbers, NextStates, AllResolved, Ran, WorkerEnds;
      var worker :- RunWorker(n, script);
      if worker.FailedAt? {
        FailureEdges(n, script);
        var _ :- FailAttempt(n, worker.category, script.now);
        return Ok(IngestionFailed);
      }
      r := RunDownstream(n, script);
      if r.Ok? {
        RanIsVerdict(script, n, r.value);
      }
    }

    /**
     * `execute`. Short of a crash its result is the verdict on a fresh attempt, or
     * an error when no attempt can start. A run that returns has finalized its
     * attempt and left the job completed, retryable or dead-lettered: completed exactly
     * when everything was ingested, normalized and processed without an error and every
     * observation was resolved.
     */
    method Execute(script: Script) returns (r: Result<RunStatus, StoreError>)
      requires Valid()
      modifies this, store
      ensures Valid()
      ensures old(Started()) ==> Started()
      ensures r == Err(Crashed) ||
        if old(CanStart(Saved())) then Started() && r == Verdict(script, Attempt(Stored()))
        else r == Err(old(StartRefusal(Saved())))
      ensures old(CanStart(Saved())) && r != Err(Crashed) ==> Accounts(script, Attempt(Stored()), r)
      ensures r == Err(TerminalJob) <==> old(Started() && Terminal(Last(Stored())))
      ensures r.Ok? ==> (r.value == Completed <==> Last(Stored()) == COMPLETED)
      ensures r.Ok? ==>
        Finalized(if r.value == Completed then COMPLETED else AfterFailure(Attempt(Stored())),
                  1 + if old(Started()) then old(Attempt(Stored())) else 0)
      ensures old(acquired) <= acquired && |acquired| <= |old(acquired)| + 1
      ensures r.Ok? ==> |acquired| == |old(acquired)| + if script.queried then 1 else 0
    {
      hide Replay, Intact, CanStart, Unfinalized, Numbers, NextStates, Accounts, Verdict;
      var n :- PrepareAttempt(script.now);
      VerdictAccounts(script, n);
      r := RunAttempt(n, script);
    }

    /**
     * Any sequence of `execute` calls on the job, each killed at the save its
     * budget runs out on: acquisition is called at most three times, with distinct
     * attempt numbers, and the transition log never exceeds 39 entries.
     */
    method Drive(scripts: seq<Script>, budgets: seq<nat>)
      requires Valid() && |scripts| == |budgets|
      modifies this, store
      ensures Valid()
      ensures |acquired| <= MAX_ATTEMPTS
      ensures forall i, j :: 0 <= i < j < |acquired| ==> acquired[i] < acquired[j]
      ensures Started() ==> |Stored().transitions| <= 39 && RequeueCount(Stored().transitions) <= MAX_ATTEMPTS - 1
    {
      for i := 0 to |scripts|
        invariant Valid()
      {
        store.saves := budgets[i];
        var _ := Execute(scripts[i]);
      }
      if Started() {
        EveryHistoryIsBounded(jobId, history);
      }
      IncreasingWithin(acquired, MAX_ATTEMPTS);
    }
  }

  lemma {:induction false} IncreasingWithin(numbers: seq<nat>, bound: nat)
    requires forall i :: 0 <= i < |numbers| ==> 1 <= numbers[i] <= bound
    requires forall i, j :: 0 <= i < j < |numbers| ==> numbers[i] < numbers[j]
    ensures |numbers| <= bound
  {
    if numbers != [] {
      var last := numbers[|numbers| - 1];
      IncreasingWithin(numbers[..|numbers| - 1], last - 1);
    }
  }

  // ----- Where the three attempts are not all given

  lemma {:induction false} StepIsACall(jobId: string, r: Lifecycle, step: Step) returns (calls: seq<Call>)
    ensures Next(jobId, Some(r), step) == Some(AfterAll(r, calls))
  {
    if !Disciplined(r, step) || step.Accept? || (step.Finalize? && Attempt(r) == 0) {
      return [];
    }
    match step {
      case Accept(_) => calls := [];
      case Report(_, _, _, _, _) => calls := [Append(Reported(r, step))];
      case Allocate => calls := [Call.Allocate];
      case Finalize(outcome, now) =>
        calls := [RecordAttempt(ScrapeAttempt(r.jobId, Attempt(r), outcome, now))];
    }
    assert calls[..0] == [];
  }

  /** In RETRY_SCHEDULED the next attempt starts exactly when every allocation has been recorded and one is left. */
  lemma {:induction false} RetryStartsIffFinalized(r: Lifecycle)
    requires r.transitions != [] && Last(r) == RETRY_SCHEDULED
    ensures CanStart(Some(r)) <==> !Unfinalized(r) && Attempt(r) < MAX_ATTEMPTS
  {
  }

  lemma {:induction false} StepKeepsSkipped(jobId: string, r: Lifecycle, step: Step, n: nat)
    requires Sound(r) && Skipped(r, n)
    ensures Next(jobId, Some(r), step).Some? && Skipped(Next(jobId, Some(r), step).value, n)
  {
    hide Sound, Skipped, Next;
    var calls := StepIsACall(jobId, r, step);
    SkippedAllocationStaysOpen(r, calls, n);
  }

  lemma {:induction false} ReplayIsSound(jobId: string, steps: seq<Step>)
    ensures Replay(jobId, steps).Some? ==> Sound(Replay(jobId, steps).value) && Replay(jobId, steps).value.transitions != []
  {
    hide Replay, Sound;
    ReplayIsCoordinated(jobId, steps);
  }

  /**
   * Once an interrupted attempt has been followed by a recorded one, no later
   * `execute` on the job in RETRY_SCHEDULED reaches the worker: recovery looks at
   * the skipped allocation again and dead-letters the job.
   */
  lemma {:induction false} SkippedAttemptForfeitsRetries(jobId: string, steps: seq<Step>, more: seq<Step>, n: nat)
    requires Replay(jobId, steps).Some? && Skipped(Replay(jobId, steps).value, n)
    ensures var later := Replay(jobId, steps + more);
      && later.Some? && later.value.transitions != [] && Skipped(later.value, n)
      && (Last(later.value) == RETRY_SCHEDULED ==> !CanStart(later))
  {
    hide Replay, Sound;
    if more == [] {
      assert steps + more == steps;
    } else {
      var front := more[..|more| - 1];
      assert steps + more == (steps + front) + [more[|more| - 1]];
      SkippedAttemptForfeitsRetries(jobId, steps, front, n);
      ReplayStep(jobId, steps + front, more[|more| - 1]);
      ReplayIsSound(jobId, steps + front);
      StepKeepsSkipped(jobId, Replay(jobId, steps + front).value, more[|more| - 1], n);
    }
    ReplayIsSound(jobId, steps + more);
    var r := Replay(jobId, steps + more).value;
    if Last(r) == RETRY_SCHEDULED {
      RetryStartsIffFinalized(r);
    }
  }

  /** One more report along the graph, in the middle of a history. */
  lemma {:induction false} Extend(jobId: string, steps: seq<Step>, step: Step)
    requires Replay(jobId, steps).Some? && step.Report? && Disciplined(Replay(jobId, steps).value, step)
    requires Replay(jobId, steps).value.transitions != []
    requires step.previous == Last(Replay(jobId, steps).value) && Allowed(step.previous, step.current)
    ensures var r := Replay(jobId, steps).value;
      var r' := Replay(jobId, steps + [step]);
      && r'.Some? && |r'.value.transitions| == |r.transitions| + 1
      && Last(r'.value) == step.current
      && r'.value.allocations == r.allocations && r'.value.attempts == r.attempts
  {
    ReportOutcome(jobId, steps, step);
    ReplayStep(jobId, steps, step);
  }

  lemma {:induction false} ExtendAllocate(jobId: string, steps: seq<Step>)
    requires Replay(jobId, steps).Some? && Attempt(Replay(jobId, steps).value) < MAX_ATTEMPTS
    ensures var r := Replay(jobId, steps).value;
      var r' := Replay(jobId, steps + [Step.Allocate]);
      && r'.Some? && r'.value.transitions == r.transitions != [] && r'.value.attempts == r.attempts
      && r'.value.allocations == r.allocations + [Attempt(r) + 1]
      && NoneFrom(r'.value, Attempt(r) + 1)
  {
    AllocateOutcome(jobId, steps);
    ReplayStep(jobId, steps, Step.Allocate);
  }

  /** Attempt 1 is killed during acquisition and recovered by the next call. */
  lemma {:induction false} InterruptedFirstAttempt(jobId: string) returns (steps: seq<Step>)
    ensures var r := Replay(jobId, steps);
      && r.Some? && r.value.transitions != [] && Last(r.value) == RETRY_SCHEDULED
      && r.value.allocations == [1] && r.value.attempts == []
  {
    hide Replay, Next, Intact, NextStates, Numbers, Unfinalized, NoneFrom;
    FirstEdges();
    StartOfHistory(jobId);
    steps := [Accept(0)];
    Extend(jobId, steps, Report(CREATED, QUEUED, "job queued", None, 0));
    steps := steps + [Report(CREATED, QUEUED, "job queued", None, 0)];
    ExtendAllocate(jobId, steps);
    steps := steps + [Step.Allocate];
    Extend(jobId, steps, Report(QUEUED, DEQUEUED, "worker leased job", None, 0));
    steps := steps + [Report(QUEUED, DEQUEUED, "worker leased job", None, 0)];
    Extend(jobId, steps, Report(DEQUEUED, ACQUIRING, "acquisition started", None, 0));
    steps := steps + [Report(DEQUEUED, ACQUIRING, "acquisition started", None, 0)];
    var crash := Some(Failure(WORKER_CRASH, true, 1));
    Extend(jobId, steps, Report(ACQUIRING, RETRY_SCHEDULED, "interrupted attempt recovered", crash, 1));
    steps := steps + [Report(ACQUIRING, RETRY_SCHEDULED, "interrupted attempt recovered", crash, 1)];
  }

  /** Attempt 2 then fails in the ordinary way, up to the point where it is recorded. */
  lemma {:induction false} FailedSecondAttempt(jobId: string) returns (steps: seq<Step>)
    ensures var r := Replay(jobId, steps);
      && r.Some? && r.value.transitions != [] && Last(r.value) == RETRY_SCHEDULED
      && r.value.allocations == [1, 2] && r.value.attempts == []
  {
    hide Replay, Next, Intact, NextStates, Numbers, Unfinalized;
    FirstEdges();
    steps := InterruptedFirstAttempt(jobId);
    ExtendAllocate(jobId, steps);
    steps := steps + [Step.Allocate];
    Extend(jobId, steps, Report(RETRY_SCHEDULED, QUEUED, "retry became eligible", None, 1));
    steps := steps + [Report(RETRY_SCHEDULED, QUEUED, "retry became eligible", None, 1)];
    Extend(jobId, steps, Report(QUEUED, DEQUEUED, "worker leased job", None, 1));
    steps := steps + [Report(QUEUED, DEQUEUED, "worker leased job", None, 1)];
    Extend(jobId, steps, Report(DEQUEUED, ACQUIRING, "acquisition started", None, 1));
    steps := steps + [Report(DEQUEUED, ACQUIRING, "acquisition started", None, 1)];
    var network := Some(Failure(NETWORK_ERROR, true, 2));
    Extend(jobId, steps, Report(ACQUIRING, RETRY_SCHEDULED, "retry scheduled", network, 1));
    steps := steps + [Report(ACQUIRING, RETRY_SCHEDULED, "retry scheduled", network, 1)];
  }

  /**
   * A concrete history in which a job is denied its third attempt: attempt 1 is
   * killed during acquisition and recovered, attempt 2 fails in the ordinary way
   * and is recorded.
   */
  lemma {:induction false} ThirdAttemptDenied(jobId: string) returns (steps: seq<Step>)
    ensures var r := Replay(jobId, steps);
      && r.Some? && r.value.transitions != [] && Last(r.value) == RETRY_SCHEDULED
      && Attempt(r.value) == 2 < MAX_ATTEMPTS
      && !CanStart(r)
  {
    hide Replay, Next, Intact, NextStates, Numbers, Unfinalized;
    steps := FailedSecondAttempt(jobId);
    EndOfAttempt(jobId, steps);
    steps := steps + [Finalize(RETRY, 2)];
    var r := Replay(jobId, steps).value;
    assert 1 in r.allocations;
    OpenAllocation(r);
    RetryStartsIffFinalized(r);
  }

  lemma {:induction false} FirstEdges()
    ensures Allowed(CREATED, QUEUED) && Allowed(QUEUED, DEQUEUED) && Allowed(DEQUEUED, ACQUIRING)
    ensures Allowed(ACQUIRING, RETRY_SCHEDULED) && Allowed(RETRY_SCHEDULED, QUEUED)
  {
  }

  lemma {:induction false} OpenAllocation(r: Lifecycle)
    requires 1 in r.allocations && |r.attempts| == 1 && r.attempts[0].number == 2
    ensures Unfinalized(r)
  {
    assert Numbers(r.attempts) == [2];
  }

  lemma {:induction false} StartOfHistory(jobId: string)
    ensures Replay(jobId, [Accept(0)]) == Some(JobCoordinator.Started(jobId, 0))
  {
    ReplayStep(jobId, [], Accept(0));
    assert [] + [Accept(0)] == [Accept(0)];
  }

  lemma {:induction false} EndOfAttempt(jobId: string, steps: seq<Step>)
    requires Replay(jobId, steps).Some? && Attempt(Replay(jobId, steps).value) == 2 && Replay(jobId, steps).value.attempts == []
    ensures var r := Replay(jobId, steps).value;
      && r.transitions != []
      && Replay(jobId, steps + [Finalize(RETRY, 2)]) == Some(r.(attempts := [ScrapeAttempt(jobId, 2, RETRY, 2)]))
  {
    hide Replay, Intact;
    var attempt := ScrapeAttempt(jobId, 2, RETRY, 2);
    FinalizeOutcome(jobId, steps, attempt);
    assert Replay(jobId, steps).value.attempts + [attempt] == [attempt];
    ReplayStep(jobId, steps, Finalize(RETRY, 2));
  }
}
