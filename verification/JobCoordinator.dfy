/**
 * What the coordinator keeps true of one scrape job's stored record, over any
 * history of its saves. A process killed at a save simply makes no further ones.
 */
module JobCoordinator {
  import opened Outcomes
  import opened LifecycleGraph
  import opened LifecycleStore

  /** How one normalized observation came out. */
  datatype ObservationStatus =
    | Resolved | AssociationUnresolved | AssociationPersistenceFailed | RegistrationFailed
    | EvidencePublicationFailed | CatalogSnapshotFailed | OrchestratorFailed

  /** What the boundaries around one attempt do when they are reached. */
  datatype Script = Script(
    queried: bool, acquires: bool, stores: bool, parses: bool, observes: bool,
    normalizes: bool, runtimeRaises: bool, observations: seq<ObservationStatus>, now: int)

  datatype WorkerResult = Parsed | FailedAt(category: FailureCategory)

  datatype RunStatus = Completed | IngestionFailed | NormalizationFailed | CompletedWithFailures

  function Last(r: Lifecycle): JobState
    requires r.transitions != []
  {
    r.transitions[|r.transitions| - 1].Current()
  }

  /** The attempt number allocated last; 0 before the first allocation. */
  function Attempt(r: Lifecycle): nat { |r.allocations| }

  ghost predicate NoneFrom(r: Lifecycle, n: nat) {
    forall i :: 0 <= i < |r.transitions| ==> r.transitions[i].Attempt() != Some(n)
  }

  /** Within the current attempt the walk only descends. */
  ghost predicate Descending(r: Lifecycle) {
    forall i :: 0 <= i < |r.transitions| && r.transitions[i].Attempt() == Some(Attempt(r)) ==>
      Rank(Last(r)) <= Rank(r.transitions[i].Current())
  }

  ghost predicate RequeueMarked(r: Lifecycle, p: PersistedTransition) {
    p.Previous() == Some(RETRY_SCHEDULED) && p.Current() == QUEUED ==>
      && p.Attempt().Some? && 2 <= p.Attempt().value <= Attempt(r)
      && p.transition.payload == RequeuePayload(r.jobId, p.Attempt().value)
  }

  function RequeuePayload(jobId: string, n: nat): Payload {
    Payload(jobId, Some(RETRY_SCHEDULED), QUEUED, "retry became eligible", Some(n), None)
  }

  /** What the coordinator keeps true of the stored record across calls and crashes. */
  ghost predicate Coordinated(r: Lifecycle) {
    && Sound(r)
    && r.transitions != []
    && (forall i :: 0 <= i < |r.allocations| ==> r.allocations[i] == i + 1)
    && (forall i :: 0 <= i < |r.attempts| ==> 1 <= r.attempts[i].number <= Attempt(r))
    && (forall i :: 0 <= i < |r.transitions| && r.transitions[i].Attempt().Some? ==>
          1 <= r.transitions[i].Attempt().value <= Attempt(r))
    && (Attempt(r) == 0 ==> forall i :: 0 <= i < |r.transitions| ==> r.transitions[i].Current() in {CREATED, QUEUED})
    && Descending(r)
    && AllMarked(r)
  }

  // ----- Bounds

  /** The attempt numbers on the requeues of a walk. */
  function RequeueNumbers(ts: seq<PersistedTransition>): set<nat> {
    if |ts| < 2 then {}
    else
      RequeueNumbers(ts[..|ts| - 1]) +
      if Requeues(ts[|ts| - 2].Current(), ts[|ts| - 1].Current()) && ts[|ts| - 1].Attempt().Some?
      then {ts[|ts| - 1].Attempt().value} else {}
  }

  ghost predicate AllMarked(r: Lifecycle) {
    forall i :: 0 <= i < |r.transitions| ==> RequeueMarked(r, r.transitions[i])
  }

  lemma {:induction false} NumberedRequeue(r: Lifecycle, n: nat, x: nat) returns (i: nat)
    requires Chained(r.transitions) && AllMarked(r) && n <= |r.transitions|
    requires x in RequeueNumbers(r.transitions[..n])
    ensures i < n && 2 <= x <= Attempt(r) && r.transitions[i].transition.payload == RequeuePayload(r.jobId, x)
  {
    var ts := r.transitions[..n];
    assert ts[..n - 1] == r.transitions[..n - 1];
    if x in RequeueNumbers(ts[..n - 1]) {
      i := NumberedRequeue(r, n - 1, x);
    } else {
      i := n - 1;
      ChainedPrefix(r.transitions, i);
      assert RequeueMarked(r, r.transitions[i]);
    }
  }

  /** A requeue carries an attempt number no earlier requeue carried: equal payloads are never stored twice. */
  lemma {:induction false} RequeueNumberIsNew(r: Lifecycle, n: nat)
    requires Sound(r) && AllMarked(r) && 2 <= n <= |r.transitions|
    requires Requeues(r.transitions[n - 2].Current(), r.transitions[n - 1].Current())
    ensures r.transitions[n - 1].Attempt().Some?
    ensures r.transitions[n - 1].Attempt().value !in RequeueNumbers(r.transitions[..n - 1])
  {
    hide RequeueNumbers, Chained;
    var p := r.transitions[n - 1];
    ChainedPrefix(r.transitions, n - 1);
    assert RequeueMarked(r, p);
    forall i | 0 <= i < n - 1 ensures r.transitions[i].transition.payload != p.transition.payload {
      assert r.transitions[i].identity != p.identity;
    }
    var m := p.Attempt().value;
    if m in RequeueNumbers(r.transitions[..n - 1]) {
      var i := NumberedRequeue(r, n - 1, m);
      assert false;
    }
  }

  lemma {:induction false} RequeuesAreNumbered(r: Lifecycle, n: nat)
    requires Sound(r) && AllMarked(r) && n <= |r.transitions|
    ensures RequeueCount(r.transitions[..n]) == |RequeueNumbers(r.transitions[..n])|
  {
    hide Sound, AllMarked;
    if n >= 2 {
      var ts := r.transitions[..n];
      assert ts[..n - 1] == r.transitions[..n - 1];
      RequeuesAreNumbered(r, n - 1);
      if Requeues(ts[n - 2].Current(), ts[n - 1].Current()) {
        RequeueNumberIsNew(r, n);
      }
    }
  }

  lemma {:induction false} SubsetSize(a: set<nat>, b: set<nat>)
    requires a <= b
    ensures |a| <= |b|
  {
    if a != {} {
      var x :| x in a;
      SubsetSize(a - {x}, b - {x});
    }
  }

  /** A coordinated job is requeued at most twice, so its log has at most 39 entries. */
  lemma {:induction false} LogIsBounded(r: Lifecycle)
    requires Coordinated(r)
    ensures RequeueCount(r.transitions) <= MAX_ATTEMPTS - 1
    ensures |r.transitions| + Rank(Last(r)) <= 39
  {
    var n := |r.transitions|;
    assert r.transitions[..n] == r.transitions;
    RequeuesAreNumbered(r, n);
    LogLengthIsPaidByRequeues(r.transitions);
    forall x | x in RequeueNumbers(r.transitions) ensures x in {2, 3} {
      var i := NumberedRequeue(r, n, x);
      assert r.allocations[|r.allocations| - 1] <= MAX_ATTEMPTS;
    }
    SubsetSize(RequeueNumbers(r.transitions), {2, 3});
  }

  // ----- What one transition does to a coordinated record

  /** The attempt number every transition carries: none before the first allocation. */
  function Tag(r: Lifecycle): Option<nat> {
    if Attempt(r) == 0 then None else Some(Attempt(r))
  }

  ghost predicate Advances(r: Lifecycle, previous: JobState, current: JobState) {
    && r.transitions != [] && previous == Last(r) && Allowed(previous, current)
    && (Requeues(previous, current) ==> NoneFrom(r, Attempt(r)))
    && (Attempt(r) == 0 ==> r.transitions[|r.transitions| - 1].Current() == CREATED)
  }

  /** No entry of the log has the payload of a transition that advances it. */
  lemma {:induction false} AdvanceIsNew(r: Lifecycle, t: Transition)
    requires Coordinated(r) && t.payload.attempt == Tag(r)
    requires t.payload.previous.Some? && Advances(r, t.payload.previous.value, t.payload.current)
    requires Attempt(r) == 0 ==> t.payload.current == QUEUED && |r.transitions| == 1
    ensures FindTransition(r.transitions, Identity(t)).None?
  {
    OnlyRequeueRaisesRank(t.payload.previous.value, t.payload.current);
    forall i | 0 <= i < |r.transitions| ensures r.transitions[i].identity != Identity(t) {
      assert r.transitions[i].identity == Identity(r.transitions[i].transition);
    }
  }

  lemma {:induction false} AdvanceAppends(r: Lifecycle, t: Transition)
    requires Coordinated(r) && t.payload.jobId == r.jobId && t.payload.attempt == Tag(r)
    requires t.payload.previous.Some? && Advances(r, t.payload.previous.value, t.payload.current)
    requires Attempt(r) == 0 ==> t.payload.current == QUEUED && |r.transitions| == 1
    requires Requeues(t.payload.previous.value, t.payload.current) ==>
      Attempt(r) >= 2 && t.payload == RequeuePayload(r.jobId, Attempt(r))
    ensures var r' := r.(transitions := r.transitions + [PersistedTransition(|r.transitions| + 1, Identity(t), t)]);
      Appended(r, t) == Ok(r') && Coordinated(r')
  {
    hide Chained, FindTransition;
    var p := PersistedTransition(|r.transitions| + 1, Identity(t), t);
    var r' := r.(transitions := r.transitions + [p]);
    OnlyRequeueRaisesRank(t.payload.previous.value, t.payload.current);
    AdvanceIsNew(r, t);
    assert Appended(r, t) == Ok(r');
    AppendKeepsSound(r, t);
    AdvanceDescends(r, p);
    forall i | 0 <= i < |r'.transitions| ensures RequeueMarked(r', r'.transitions[i]) {
      if i < |r.transitions| {
        assert RequeueMarked(r, r.transitions[i]);
      }
    }
  }

  lemma {:induction false} AdvanceDescends(r: Lifecycle, p: PersistedTransition)
    requires r.transitions != [] && Descending(r)
    requires Rank(p.Current()) < Rank(Last(r)) || NoneFrom(r, Attempt(r))
    ensures Descending(r.(transitions := r.transitions + [p]))
  {
    var r' := r.(transitions := r.transitions + [p]);
    forall i | 0 <= i < |r'.transitions| && r'.transitions[i].Attempt() == Some(Attempt(r'))
      ensures Rank(Last(r')) <= Rank(r'.transitions[i].Current())
    {
      if i < |r.transitions| {
        assert r'.transitions[i] == r.transitions[i];
      }
    }
  }

  /** Any other transition is refused or already recorded; the record stays as it is. */
  lemma {:induction false} OthersChangeNothing(r: Lifecycle, t: Transition)
    requires Coordinated(r)
    requires !(t.payload.previous == Some(Last(r)) && Allowed(Last(r), t.payload.current))
    ensures Appended(r, t) == Err(Conflict) || Appended(r, t) == Ok(r)
    ensures t.payload.attempt.Some? && NoneFrom(r, t.payload.attempt.value) ==> Appended(r, t) == Err(Conflict)
    ensures t.payload.previous.Some? && !Allowed(t.payload.previous.value, t.payload.current) ==> Appended(r, t) == Err(Conflict)
  {
    var found := FindTransition(r.transitions, Identity(t));
    if found.Some? {
      var i :| 0 <= i < |r.transitions| && r.transitions[i] == found.value;
      assert r.transitions[i].identity == Identity(r.transitions[i].transition);
      ChainedPrefix(r.transitions, i);
    }
  }

  lemma {:induction false} NextNumber(r: Lifecycle)
    requires Coordinated(r)
    ensures NextAttemptNumber(r) == Attempt(r) + 1
    ensures Attempt(r) <= MAX_ATTEMPTS
  {
    hide Chained, AllMarked, Descending, Maximum;
    var all := r.allocations + Numbers(r.attempts);
    assert forall i :: 0 <= i < |all| ==> all[i] <= Attempt(r);
    if Attempt(r) > 0 {
      assert all[Attempt(r) - 1] == r.allocations[Attempt(r) - 1] == Attempt(r);
    }
  }

  lemma {:induction false} AllocationKeepsCoordinated(r: Lifecycle)
    requires Coordinated(r)
    ensures NextAttemptNumber(r) == Attempt(r) + 1
    ensures Allocated(r).Ok? <==> Attempt(r) < MAX_ATTEMPTS
    ensures Allocated(r).Ok? ==> Coordinated(Allocated(r).value) && NoneFrom(Allocated(r).value, Attempt(r) + 1)
    ensures Allocated(r).Ok? ==> Attempt(Allocated(r).value) == Attempt(r) + 1
  {
    hide Chained, Sound, NextAttemptNumber, RequeueMarked;
    NextNumber(r);
    if Allocated(r).Ok? {
      var r' := Allocated(r).value;
      AllocateKeepsSound(r);
      forall i | 0 <= i < |r'.transitions| ensures RequeueMarked(r', r'.transitions[i]) {
        StillMarked(r, r', r.transitions[i]);
      }
    }
  }

  /** A marked requeue stays marked as attempts are added. */
  lemma {:induction false} StillMarked(r: Lifecycle, r': Lifecycle, p: PersistedTransition)
    requires RequeueMarked(r, p) && r'.jobId == r.jobId && Attempt(r) <= Attempt(r')
    ensures RequeueMarked(r', p)
  {
  }

  lemma {:induction false} FinalAttemptKeepsCoordinated(r: Lifecycle, a: ScrapeAttempt)
    requires Coordinated(r) && a.jobId == r.jobId && 1 <= a.number == Attempt(r)
    ensures Recorded(r, a).Ok? ==> Coordinated(Recorded(r, a).value)
    ensures a.number !in Numbers(r.attempts) ==> Recorded(r, a) == Ok(r.(attempts := r.attempts + [a]))
  {
    hide Chained, RequeueMarked;
    if Recorded(r, a).Ok? {
      RecordKeepsSound(r, a);
      var r' := Recorded(r, a).value;
      forall i | 0 <= i < |r'.transitions| ensures RequeueMarked(r', r'.transitions[i]) {
        StillMarked(r, r', r.transitions[i]);
      }
    }
    if a.number !in Numbers(r.attempts) {
      forall i | 0 <= i < |r.attempts| ensures r.attempts[i].number != a.number {
        assert Numbers(r.attempts)[i] == r.attempts[i].number;
      }
    }
  }

  // ----- Every history of coordinator saves

  /** One save of the coordinator; an `execute` that crashes simply makes no further ones. */
  datatype Step =
    | Accept(now: int)
    | Report(previous: JobState, current: JobState, reason: string, failure: Option<Failure>, now: int)
    | Allocate
    | Finalize(outcome: AttemptOutcome, now: int)

  function Created(jobId: string, now: int): Transition {
    Transition(Payload(jobId, None, CREATED, "job accepted", None, None), now)
  }

  function Reported(r: Lifecycle, step: Step): Transition
    requires step.Report?
  {
    Transition(Payload(r.jobId, Some(step.previous), step.current, step.reason, Tag(r), step.failure), step.now)
  }

  /** The coordinator's own discipline, beyond what the store checks. */
  ghost predicate Disciplined(r: Lifecycle, step: Step) {
    step.Report? ==>
      && (Attempt(r) == 0 ==> step.previous == CREATED && step.current == QUEUED && |r.transitions| == 1)
      && (Requeues(step.previous, step.current) ==>
            && Attempt(r) >= 2 && NoneFrom(r, Attempt(r))
            && step.reason == "retry became eligible" && step.failure == None)
  }

  function Started(jobId: string, now: int): Lifecycle {
    var t := Created(jobId, now);
    Lifecycle(jobId, [PersistedTransition(1, Identity(t), t)], [], [])
  }

  ghost function Next(jobId: string, r: Option<Lifecycle>, step: Step): Option<Lifecycle> {
    if r.None? then
      if step.Accept? then Some(Started(jobId, step.now)) else None
    else if !Disciplined(r.value, step) then
      r
    else
      match step
      case Accept(_) => r
      case Report(_, _, _, _, _) =>
        var appended := Appended(r.value, Reported(r.value, step));
        if appended.Ok? then Some(appended.value) else r
      case Allocate =>
        var grown := Allocated(r.value);
        if grown.Ok? then Some(grown.value) else r
      case Finalize(outcome, now) =>
        if Attempt(r.value) == 0 then r
        else
          var recorded := Recorded(r.value, ScrapeAttempt(r.value.jobId, Attempt(r.value), outcome, now));
          if recorded.Ok? then Some(recorded.value) else r
  }

  ghost function Replay(jobId: string, steps: seq<Step>): Option<Lifecycle> {
    if steps == [] then None else Next(jobId, Replay(jobId, steps[..|steps| - 1]), steps[|steps| - 1])
  }

  lemma {:induction false} CoordinatedBasics(r: Lifecycle)
    requires Coordinated(r)
    ensures r.transitions != [] && Chained(r.transitions) && Sound(r)
    ensures Attempt(r) <= MAX_ATTEMPTS
  {
    assert Attempt(r) > 0 ==> r.allocations[Attempt(r) - 1] <= MAX_ATTEMPTS;
  }

  lemma {:induction false} StepKeepsCoordinated(jobId: string, r: Lifecycle, step: Step)
    requires Coordinated(r)
    ensures Next(jobId, Some(r), step).Some? && Coordinated(Next(jobId, Some(r), step).value)
    ensures Next(jobId, Some(r), step).value.jobId == r.jobId
  {
    hide Coordinated, Chained, Sound, FindTransition, NextAttemptNumber;
    CoordinatedBasics(r);
    if Disciplined(r, step) {
      match step {
        case Accept(_) =>
        case Report(previous, current, _, _, _) =>
          if previous == Last(r) && Allowed(previous, current) {
            AdvanceAppends(r, Reported(r, step));
          } else {
            OthersChangeNothing(r, Reported(r, step));
          }
        case Allocate => AllocationKeepsCoordinated(r);
        case Finalize(outcome, now) =>
          if Attempt(r) > 0 {
            FinalAttemptKeepsCoordinated(r, ScrapeAttempt(r.jobId, Attempt(r), outcome, now));
          }
      }
    }
  }

  lemma {:induction false} StartedIsCoordinated(jobId: string, now: int)
    ensures Coordinated(Started(jobId, now))
  {
    var r := Started(jobId, now);
    ChainedAppend([], r.transitions[0]);
    assert [] + [r.transitions[0]] == r.transitions;
  }

  lemma {:induction false} ReplayIsCoordinated(jobId: string, steps: seq<Step>)
    ensures var r := Replay(jobId, steps);
      r.Some? ==> Coordinated(r.value) && r.value.jobId == jobId
  {
    if steps != [] {
      var front := steps[..|steps| - 1];
      ReplayIsCoordinated(jobId, front);
      if Replay(jobId, front).Some? {
        StepKeepsCoordinated(jobId, Replay(jobId, front).value, steps[|steps| - 1]);
      } else if steps[|steps| - 1].Accept? {
        StartedIsCoordinated(jobId, steps[|steps| - 1].now);
      }
    }
  }

  /**
   * Over any history, crashes included, a job is given at most three attempts, is
   * requeued at most twice, and its log has at most 39 entries; what remains of
   * the bound is at least the rank of the state it stands in.
   */
  lemma {:induction false} EveryHistoryIsBounded(jobId: string, steps: seq<Step>)
    requires Replay(jobId, steps).Some?
    ensures var r := Replay(jobId, steps).value;
      && r.transitions != []
      && Attempt(r) <= MAX_ATTEMPTS
      && RequeueCount(r.transitions) <= MAX_ATTEMPTS - 1
      && |r.transitions| + Rank(Last(r)) <= 39
  {
    ReplayIsCoordinated(jobId, steps);
    var r := Replay(jobId, steps).value;
    LogIsBounded(r);
    assert Attempt(r) > 0 ==> r.allocations[Attempt(r) - 1] <= MAX_ATTEMPTS;
  }

  // ----- What a save does at a given point of a history, without its invariant

  lemma {:induction false} ReplayStep(jobId: string, steps: seq<Step>, step: Step)
    ensures Replay(jobId, steps + [step]) == Next(jobId, Replay(jobId, steps), step)
  {
    assert (steps + [step])[..|steps|] == steps;
  }

  lemma {:induction false} ReportOutcome(jobId: string, steps: seq<Step>, step: Step)
    requires Replay(jobId, steps).Some? && step.Report? && Disciplined(Replay(jobId, steps).value, step)
    ensures var r := Replay(jobId, steps).value;
      && r.jobId == jobId && r.transitions != [] && Intact(r)
      && var t := Reported(r, step);
         var appended := Appended(r, t);
         && (step.previous == Last(r) && Allowed(step.previous, step.current) ==>
               appended == Ok(r.(transitions := r.transitions + [PersistedTransition(|r.transitions| + 1, Identity(t), t)])))
         && (step.previous != Last(r) || !Allowed(step.previous, step.current) ==>
               appended == Err(Conflict) || appended == Ok(r))
         && (!Allowed(step.previous, step.current) ==> appended == Err(Conflict))
         && (step.previous != Last(r) && Attempt(r) > 0 && NoneFrom(r, Attempt(r)) ==> appended == Err(Conflict))
  {
    hide Replay, Coordinated, Chained, Sound, Readable, FindTransition;
    ReplayIsCoordinated(jobId, steps);
    var r := Replay(jobId, steps).value;
    CoordinatedBasics(r);
    SoundIsReadable(r);
    if step.previous == Last(r) && Allowed(step.previous, step.current) {
      AdvanceAppends(r, Reported(r, step));
    } else {
      OthersChangeNothing(r, Reported(r, step));
    }
  }

  lemma {:induction false} AllocateOutcome(jobId: string, steps: seq<Step>)
    requires Replay(jobId, steps).Some?
    ensures var r := Replay(jobId, steps).value;
      && r.jobId == jobId && r.transitions != [] && Intact(r)
      && NextAttemptNumber(r) == Attempt(r) + 1
      && Attempt(r) + 1 !in Numbers(r.attempts)
      && NoneFrom(r, Attempt(r) + 1)
      && (Last(r).RETRY_SCHEDULED? ==> Attempt(r) >= 1)
      && (Unfinalized(r) ==> Attempt(r) >= 1)
      && Allocated(r) == if Attempt(r) < MAX_ATTEMPTS then Ok(r.(allocations := r.allocations + [Attempt(r) + 1])) else Err(Conflict)
  {
    hide Replay, Coordinated, Chained, Sound, Readable, NextAttemptNumber, Numbers, NoneFrom, Unfinalized;
    ReplayIsCoordinated(jobId, steps);
    var r := Replay(jobId, steps).value;
    CoordinatedBasics(r);
    SoundIsReadable(r);
    AllocationKeepsCoordinated(r);
    FreshNumber(r);
  }

  lemma {:induction false} FreshNumber(r: Lifecycle)
    requires Coordinated(r)
    ensures Attempt(r) + 1 !in Numbers(r.attempts) && NoneFrom(r, Attempt(r) + 1)
    ensures Last(r).RETRY_SCHEDULED? ==> Attempt(r) >= 1
    ensures Unfinalized(r) ==> Attempt(r) >= 1
    ensures Attempt(r) < MAX_ATTEMPTS ==> Allocated(r) == Ok(r.(allocations := r.allocations + [Attempt(r) + 1]))
    ensures Attempt(r) >= MAX_ATTEMPTS ==> Allocated(r) == Err(Conflict)
  {
    hide Sound, Chained, AllMarked, Descending;
    AllocationKeepsCoordinated(r);
  }

  lemma {:induction false} FinalizeOutcome(jobId: string, steps: seq<Step>, a: ScrapeAttempt)
    requires Replay(jobId, steps).Some? && a.jobId == jobId
    requires a.number == Attempt(Replay(jobId, steps).value) >= 1 && a.number !in Numbers(Replay(jobId, steps).value.attempts)
    ensures var r := Replay(jobId, steps).value;
      && r.jobId == jobId && r.transitions != [] && Intact(r)
      && Recorded(r, a) == Ok(r.(attempts := r.attempts + [a]))
  {
    hide Replay, Coordinated, Chained, Sound, Readable, FindAttempt;
    ReplayIsCoordinated(jobId, steps);
    CoordinatedBasics(Replay(jobId, steps).value);
    SoundIsReadable(Replay(jobId, steps).value);
    FinalAttemptKeepsCoordinated(Replay(jobId, steps).value, a);
  }
}
