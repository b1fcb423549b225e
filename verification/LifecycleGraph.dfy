/** The frozen state graph of a scrape job, and the rank that bounds walks in it. */
module LifecycleGraph {

  datatype JobState =
    | CREATED | QUEUED | DEQUEUED | ACQUIRING | ARTIFACT_CAPTURED | PARSING | PARSED
    | NORMALIZING | NORMALIZED | REGISTERING_OBSERVATION | REGISTERED | PUBLISHING_PIPELINE_EVENT
    | COMPLETED | RETRY_SCHEDULED | CANCEL_REQUESTED | CANCELLED | EXPIRED | DEAD_LETTERED
    | FAILED | BLOCKED | INVALID

  function NextStates(s: JobState): set<JobState> {
    match s
    case CREATED => {QUEUED, INVALID, CANCEL_REQUESTED, EXPIRED}
    case QUEUED => {DEQUEUED, CANCEL_REQUESTED, EXPIRED}
    case DEQUEUED => {ACQUIRING, RETRY_SCHEDULED, CANCEL_REQUESTED, FAILED, INVALID, EXPIRED}
    case ACQUIRING => {ARTIFACT_CAPTURED, RETRY_SCHEDULED, BLOCKED, FAILED, CANCEL_REQUESTED, DEAD_LETTERED}
    case ARTIFACT_CAPTURED => {PARSING, CANCEL_REQUESTED, FAILED, DEAD_LETTERED}
    case PARSING => {PARSED, RETRY_SCHEDULED, FAILED, DEAD_LETTERED, CANCEL_REQUESTED}
    case PARSED => {NORMALIZING, CANCEL_REQUESTED, FAILED, DEAD_LETTERED}
    case NORMALIZING => {NORMALIZED, RETRY_SCHEDULED, FAILED, DEAD_LETTERED, CANCEL_REQUESTED}
    case NORMALIZED => {REGISTERING_OBSERVATION, CANCEL_REQUESTED, FAILED, DEAD_LETTERED}
    case REGISTERING_OBSERVATION => {REGISTERED, RETRY_SCHEDULED, FAILED, DEAD_LETTERED, CANCEL_REQUESTED}
    case REGISTERED => {PUBLISHING_PIPELINE_EVENT, COMPLETED, CANCEL_REQUESTED}
    case PUBLISHING_PIPELINE_EVENT => {COMPLETED, RETRY_SCHEDULED, FAILED, DEAD_LETTERED}
    case RETRY_SCHEDULED => {QUEUED, DEAD_LETTERED, CANCEL_REQUESTED, EXPIRED}
    case CANCEL_REQUESTED => {CANCELLED}
    case _ => {}
  }

  predicate Terminal(s: JobState) {
    s in {COMPLETED, CANCELLED, EXPIRED, DEAD_LETTERED, FAILED, BLOCKED, INVALID}
  }

  predicate Allowed(previous: JobState, next: JobState) { next in NextStates(previous) }

  /** Steps a job can still take before it must be requeued or end. */
  function Rank(s: JobState): nat {
    match s
    case CREATED => 14
    case QUEUED => 13
    case DEQUEUED => 12
    case ACQUIRING => 11
    case ARTIFACT_CAPTURED => 10
    case PARSING => 9
    case PARSED => 8
    case NORMALIZING => 7
    case NORMALIZED => 6
    case REGISTERING_OBSERVATION => 5
    case REGISTERED => 4
    case PUBLISHING_PIPELINE_EVENT => 3
    case RETRY_SCHEDULED => 2
    case CANCEL_REQUESTED => 1
    case _ => 0
  }

  predicate Requeues(previous: JobState, next: JobState) { previous.RETRY_SCHEDULED? && next.QUEUED? }

  /** Between the lease of a job and its end. */
  predicate UnderWay(s: JobState) {
    s in {DEQUEUED, ACQUIRING, ARTIFACT_CAPTURED, PARSING, PARSED, NORMALIZING, NORMALIZED,
      REGISTERING_OBSERVATION, REGISTERED, PUBLISHING_PIPELINE_EVENT}
  }

  /** A stage is entered from the one before it only, and completion also right after registration. */
  lemma {:induction false} WaysToParsed(s: JobState)
    ensures Allowed(s, ACQUIRING) <==> s == DEQUEUED
    ensures Allowed(s, ARTIFACT_CAPTURED) <==> s == ACQUIRING
    ensures Allowed(s, PARSING) <==> s == ARTIFACT_CAPTURED
    ensures Allowed(s, PARSED) <==> s == PARSING
  {
  }

  lemma {:induction false} WaysToCompleted(s: JobState)
    ensures Allowed(s, NORMALIZING) <==> s == PARSED
    ensures Allowed(s, NORMALIZED) <==> s == NORMALIZING
    ensures Allowed(s, REGISTERING_OBSERVATION) <==> s == NORMALIZED
    ensures Allowed(s, REGISTERED) <==> s == REGISTERING_OBSERVATION
    ensures Allowed(s, PUBLISHING_PIPELINE_EVENT) <==> s == REGISTERED
    ensures Allowed(s, COMPLETED) <==> s in {REGISTERED, PUBLISHING_PIPELINE_EVENT}
  {
  }

  /** Each way out of the row of stages, from the states that have it; the states without a way on are the terminal ones. */
  lemma {:induction false} WaysOut(s: JobState)
    ensures Allowed(s, DEQUEUED) <==> s == QUEUED
    ensures Allowed(s, QUEUED) <==> s in {CREATED, RETRY_SCHEDULED}
    ensures Allowed(s, RETRY_SCHEDULED) <==>
      s in {DEQUEUED, ACQUIRING, PARSING, NORMALIZING, REGISTERING_OBSERVATION, PUBLISHING_PIPELINE_EVENT}
    ensures Allowed(s, FAILED) <==> UnderWay(s) && s != REGISTERED
    ensures Allowed(s, DEAD_LETTERED) <==> s == RETRY_SCHEDULED || (UnderWay(s) && s !in {DEQUEUED, REGISTERED})
    ensures Allowed(s, CANCEL_REQUESTED) <==> !Terminal(s) && s !in {CANCEL_REQUESTED, PUBLISHING_PIPELINE_EVENT}
    ensures Allowed(s, EXPIRED) <==> s in {CREATED, QUEUED, DEQUEUED, RETRY_SCHEDULED}
    ensures Allowed(s, INVALID) <==> s in {CREATED, DEQUEUED}
    ensures Allowed(s, BLOCKED) <==> s == ACQUIRING
    ensures Allowed(s, CANCELLED) <==> s == CANCEL_REQUESTED
    ensures !Allowed(s, CREATED)
  {
  }

  lemma {:induction false} TerminalIff(s: JobState)
    ensures Terminal(s) <==> forall next :: !Allowed(s, next)
  {
    hide Terminal, Allowed;
    WaysToCompleted(s);
    WaysOut(s);
    if !Terminal(s) && s != PUBLISHING_PIPELINE_EVENT {
      assert Allowed(s, CANCEL_REQUESTED) || Allowed(s, CANCELLED);
    }
    if Terminal(s) {
      forall next ensures !Allowed(s, next) {
        NoWayOn(s, next);
      }
    }
  }

  lemma {:induction false} NoWayOn(s: JobState, next: JobState)
    requires Terminal(s)
    ensures !Allowed(s, next)
  {
  }

  /** RETRY_SCHEDULED to QUEUED is the only edge of the graph that raises the rank. */
  lemma {:induction false} OnlyRequeueRaisesRank(previous: JobState, next: JobState)
    requires Allowed(previous, next)
    ensures Rank(next) < Rank(previous) <==> !Requeues(previous, next)
    ensures !Terminal(previous)
  {
  }
}
