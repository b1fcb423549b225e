/**
 * The append-only lifecycle store: what each call persists, and why every record
 * it ever saves is one it can read back. `_save` replaces the file atomically, so
 * a call either saves its whole new record or leaves the old one.
 */
module LifecycleStore {
  import opened Outcomes
  import opened LifecycleGraph
  import opened Ordering

  /** The categories the worker and the coordinator report; `HTTP_403` stands for the non-retryable ones. */
  datatype FailureCategory =
    | NETWORK_ERROR | PARSER_RUNTIME_FAILURE | STORAGE_FAILURE | PIPELINE_PUBLICATION_FAILURE | WORKER_CRASH
    | HTTP_403

  predicate Retryable(category: FailureCategory) { !category.HTTP_403? }

  datatype Failure = Failure(category: FailureCategory, retryable: bool, attempt: nat)

  /** The fields of a transition that take part in its identity; the timestamp does not. */
  datatype Payload = Payload(
    jobId: string, previous: Option<JobState>, current: JobState, reason: string,
    attempt: Option<nat>, failure: Option<Failure>)

  datatype Transition = Transition(payload: Payload, timestamp: int)

  datatype PersistedTransition = PersistedTransition(sequence: nat, identity: Digest<Payload>, transition: Transition) {
    function Current(): JobState { transition.payload.current }

    function Previous(): Option<JobState> { transition.payload.previous }

    function Attempt(): Option<nat> { transition.payload.attempt }
  }

  datatype AttemptOutcome = SUCCEEDED | RETRY | EXHAUSTED | TERMINAL_FAILURE

  /** The attempt identity is `job_id:attempt_number`. */
  datatype ScrapeAttempt = ScrapeAttempt(jobId: string, number: nat, outcome: AttemptOutcome, finishedAt: int)

  datatype Lifecycle = Lifecycle(
    jobId: string, transitions: seq<PersistedTransition>, attempts: seq<ScrapeAttempt>, allocations: seq<nat>)

  /** `Crashed` ends the process at a save; the last two are raised outside the store. */
  datatype StoreError = Conflict | Corruption | Crashed | TerminalJob | RuntimeRaised

  const MAX_ATTEMPTS := 3

  function Empty(jobId: string): Lifecycle { Lifecycle(jobId, [], [], []) }

  function Identity(t: Transition): Digest<Payload> { Sha256(t.payload) }

  // ----- Read-time validation

  /** `PersistedScrapeJobLifecycle._validate`. */
  predicate Readable(r: Lifecycle) {
    && (forall i :: 0 <= i < |r.transitions| ==> r.transitions[i].sequence == i + 1)
    && (forall i, j :: 0 <= i < j < |r.attempts| ==>
          (r.attempts[i].jobId, r.attempts[i].number) != (r.attempts[j].jobId, r.attempts[j].number))
    && (forall i, j :: 0 <= i < j < |r.allocations| ==> r.allocations[i] < r.allocations[j])
  }

  function AttemptIds(attempts: seq<ScrapeAttempt>): seq<(string, nat)> {
    seq(|attempts|, i requires 0 <= i < |attempts| => (attempts[i].jobId, attempts[i].number))
  }

  /** As the program puts it: as many identities as attempts, and allocations that increase from each to the next. */
  lemma {:induction false} ReadableIff(r: Lifecycle)
    ensures Readable(r) <==>
      && (forall i :: 0 <= i < |r.transitions| ==> r.transitions[i].sequence == i + 1)
      && |set id | id in AttemptIds(r.attempts)| == |r.attempts|
      && (forall i :: 0 < i < |r.allocations| ==> r.allocations[i - 1] < r.allocations[i])
  {
    var ids := AttemptIds(r.attempts);
    DistinctCardinality(ids);
    if Distinct(ids) {
      forall i, j | 0 <= i < j < |r.attempts|
        ensures (r.attempts[i].jobId, r.attempts[i].number) != (r.attempts[j].jobId, r.attempts[j].number)
      {
        assert ids[i] != ids[j];
      }
    }
    if forall i :: 0 < i < |r.allocations| ==> r.allocations[i - 1] < r.allocations[i] {
      StepsIncrease(r.allocations);
    }
  }

  lemma {:induction false} StepsIncrease(numbers: seq<nat>)
    requires forall i :: 0 < i < |numbers| ==> numbers[i - 1] < numbers[i]
    ensures forall i, j :: 0 <= i < j < |numbers| ==> numbers[i] < numbers[j]
  {
    if numbers != [] {
      var n := |numbers| - 1;
      StepsIncrease(numbers[..n]);
      forall i | 0 <= i < n ensures numbers[i] < numbers[n] {
        assert numbers[..n][i] == numbers[i] && numbers[..n][n - 1] == numbers[n - 1];
      }
    }
  }

  predicate Linked(before: PersistedTransition, after: PersistedTransition) {
    && after.Previous() == Some(before.Current())
    && !Terminal(before.Current())
    && Allowed(before.Current(), after.Current())
  }

  /** `_validate_record`: a walk in the state graph that starts at CREATED. */
  predicate Chained(ts: seq<PersistedTransition>) {
    ts == [] ||
    (&& Chained(ts[..|ts| - 1])
     && ts[|ts| - 1].sequence == |ts|
     && if |ts| == 1 then ts[0].Previous() == None && ts[0].Current() == CREATED
        else Linked(ts[|ts| - 2], ts[|ts| - 1]))
  }

  lemma {:induction false} ChainedPrefix(ts: seq<PersistedTransition>, n: nat)
    requires Chained(ts) && n <= |ts|
    ensures Chained(ts[..n])
    ensures n < |ts| ==> ts[n].sequence == n + 1
    ensures n == 0 < |ts| ==> ts[0].Previous() == None && ts[0].Current() == CREATED
    ensures 0 < n < |ts| ==> Linked(ts[n - 1], ts[n])
  {
    if n < |ts| {
      var front := ts[..|ts| - 1];
      if n < |front| {
        ChainedPrefix(front, n);
        assert front[..n] == ts[..n];
      } else {
        assert ts[..n] == front;
      }
    } else {
      assert ts[..n] == ts;
    }
  }

  /** Numbered from 1, beginning with CREATED out of nothing, each next step an edge from where the last one ended. */
  ghost predicate Walks(ts: seq<PersistedTransition>) {
    forall i :: 0 <= i < |ts| ==>
      && ts[i].sequence == i + 1
      && (i == 0 ==> ts[i].Previous() == None && ts[i].Current() == CREATED)
      && (i > 0 ==> ts[i].Previous() == Some(ts[i - 1].Current()) && ts[i].Current() in NextStates(ts[i - 1].Current()))
  }

  lemma {:induction false} ChainedIff(ts: seq<PersistedTransition>)
    ensures Chained(ts) <==> Walks(ts)
  {
    hide Chained, NextStates, Terminal;
    if ts == [] {
      assert Chained(ts) by { NoChain(); }
    } else {
      var n := |ts| - 1;
      ChainedIff(ts[..n]);
      ChainedLast(ts);
      assert forall i :: 0 <= i < n ==> ts[..n][i] == ts[i];
      if n > 0 && ts[n].Current() in NextStates(ts[n - 1].Current()) {
        EdgeIsLive(ts[n - 1].Current(), ts[n].Current());
      }
    }
  }

  lemma {:induction false} NoChain()
    ensures Chained([])
  {
  }

  lemma {:induction false} ChainedLast(ts: seq<PersistedTransition>)
    requires ts != []
    ensures Chained(ts) <==>
      && Chained(ts[..|ts| - 1]) && ts[|ts| - 1].sequence == |ts|
      && (|ts| == 1 ==> ts[0].Previous() == None && ts[0].Current() == CREATED)
      && (|ts| > 1 ==> Linked(ts[|ts| - 2], ts[|ts| - 1]))
  {
  }

  lemma {:induction false} EdgeIsLive(from: JobState, to: JobState)
    requires to in NextStates(from)
    ensures !Terminal(from)
  {
  }

  /** A saved record that reading accepts. */
  ghost predicate Intact(r: Lifecycle) { Readable(r) && Chained(r.transitions) }

  /** One bad entry breaks the walk. */
  lemma {:induction false} BrokenAt(ts: seq<PersistedTransition>, i: nat)
    requires i < |ts|
    requires
      || ts[i].sequence != i + 1
      || (i == 0 && (ts[0].Previous() != None || ts[0].Current() != CREATED))
      || (i > 0 && !Linked(ts[i - 1], ts[i]))
    ensures !Chained(ts)
  {
    if Chained(ts) {
      ChainedPrefix(ts, i);
    }
  }

  lemma {:induction false} ChainedAppend(ts: seq<PersistedTransition>, p: PersistedTransition)
    requires Chained(ts) && p.sequence == |ts| + 1 && Acceptable(ts, p.transition)
    ensures Chained(ts + [p])
  {
    assert (ts + [p])[..|ts|] == ts;
  }

  // ----- What the calls write

  function FindTransition(ts: seq<PersistedTransition>, identity: Digest<Payload>): (r: Option<PersistedTransition>)
    ensures r.Some? ==> r.value in ts && r.value.identity == identity
    ensures r.None? ==> forall p :: p in ts ==> p.identity != identity
  {
    if ts == [] then None
    else if ts[0].identity == identity then Some(ts[0])
    else FindTransition(ts[1..], identity)
  }

  function FindAttempt(attempts: seq<ScrapeAttempt>, jobId: string, number: nat): (r: Option<ScrapeAttempt>)
    ensures r.Some? ==> r.value in attempts && r.value.jobId == jobId && r.value.number == number
    ensures r.None? ==> forall a :: a in attempts ==> !(a.jobId == jobId && a.number == number)
  {
    if attempts == [] then None
    else if attempts[0].jobId == jobId && attempts[0].number == number then Some(attempts[0])
    else FindAttempt(attempts[1..], jobId, number)
  }

  /** `_validate_new_transition`. */
  predicate Acceptable(ts: seq<PersistedTransition>, t: Transition) {
    if ts == [] then t.payload.current == CREATED && t.payload.previous == None
    else
      var current := ts[|ts| - 1].Current();
      !Terminal(current) && t.payload.previous == Some(current) && Allowed(current, t.payload.current)
  }

  function Appended(r: Lifecycle, t: Transition): Result<Lifecycle, StoreError> {
    var existing := FindTransition(r.transitions, Identity(t));
    if existing.Some? then
      if existing.value.transition.payload != t.payload then Err(Conflict) else Ok(r)
    else if !Acceptable(r.transitions, t) then
      Err(Conflict)
    else
      Ok(r.(transitions := r.transitions + [PersistedTransition(|r.transitions| + 1, Identity(t), t)]))
  }

  function Recorded(r: Lifecycle, a: ScrapeAttempt): Result<Lifecycle, StoreError> {
    var existing := FindAttempt(r.attempts, a.jobId, a.number);
    if existing.Some? then
      if existing.value != a then Err(Conflict) else Ok(r)
    else if a.jobId != r.jobId || (r.attempts != [] && a.number < r.attempts[|r.attempts| - 1].number) then
      Err(Conflict)
    else
      Ok(r.(attempts := r.attempts + [a]))
  }

  function Maximum(numbers: seq<nat>): (m: nat)
    ensures forall i :: 0 <= i < |numbers| ==> numbers[i] <= m
    ensures m == 0 || m in numbers
  {
    if numbers == [] then 0
    else
      var rest := Maximum(numbers[1..]);
      if numbers[0] > rest then numbers[0] else rest
  }

  function Numbers(attempts: seq<ScrapeAttempt>): seq<nat> {
    seq(|attempts|, i requires 0 <= i < |attempts| => attempts[i].number)
  }

  function NextAttemptNumber(r: Lifecycle): nat {
    Maximum(r.allocations + Numbers(r.attempts)) + 1
  }

  function Allocated(r: Lifecycle): Result<Lifecycle, StoreError> {
    if NextAttemptNumber(r) > MAX_ATTEMPTS then Err(Conflict)
    else Ok(r.(allocations := r.allocations + [NextAttemptNumber(r)]))
  }

  /** `has_unfinalized_allocation`: some allocated number has no recorded attempt. */
  predicate Unfinalized(r: Lifecycle) {
    exists n | n in r.allocations :: n !in Numbers(r.attempts)
  }

  // ----- Every run of calls

  datatype Call = Append(t: Transition) | RecordAttempt(a: ScrapeAttempt) | Allocate

  /** A refused call, or one that crashes before its save, leaves the record alone. */
  function After(r: Lifecycle, call: Call): Lifecycle {
    var saved := match call
      case Append(t) => Appended(r, t)
      case RecordAttempt(a) => Recorded(r, a)
      case Allocate => Allocated(r);
    if saved.Ok? then saved.value else r
  }

  function AfterAll(r: Lifecycle, calls: seq<Call>): Lifecycle {
    if calls == [] then r else After(AfterAll(r, calls[..|calls| - 1]), calls[|calls| - 1])
  }

  /** What holds of every saved record; it implies both read-time validations. */
  ghost predicate Sound(r: Lifecycle) {
    && Chained(r.transitions)
    && (forall i :: 0 <= i < |r.transitions| ==> r.transitions[i].identity == Identity(r.transitions[i].transition))
    && (forall i, j :: 0 <= i < j < |r.transitions| ==> r.transitions[i].identity != r.transitions[j].identity)
    && (forall i :: 0 <= i < |r.attempts| ==> r.attempts[i].jobId == r.jobId)
    && (forall i, j :: 0 <= i < j < |r.attempts| ==> r.attempts[i].number < r.attempts[j].number)
    && (forall i, j :: 0 <= i < j < |r.allocations| ==> r.allocations[i] < r.allocations[j])
    && (forall i :: 0 <= i < |r.allocations| ==> 1 <= r.allocations[i] <= MAX_ATTEMPTS)
  }

  lemma {:induction false} AppendKeepsSound(r: Lifecycle, t: Transition)
    requires Sound(r) && Appended(r, t).Ok?
    ensures Sound(Appended(r, t).value) && r.transitions <= Appended(r, t).value.transitions
  {
    var r' := Appended(r, t).value;
    if r' != r {
      ChainedAppend(r.transitions, PersistedTransition(|r.transitions| + 1, Identity(t), t));
      forall i | 0 <= i < |r.transitions| ensures r.transitions[i].identity != Identity(t) {
        assert r.transitions[i] in r.transitions;
      }
    }
  }

  lemma {:induction false} RecordKeepsSound(r: Lifecycle, a: ScrapeAttempt)
    requires Sound(r) && Recorded(r, a).Ok?
    ensures Sound(Recorded(r, a).value) && r.attempts <= Recorded(r, a).value.attempts
  {
    if Recorded(r, a).value != r && r.attempts != [] {
      var last := r.attempts[|r.attempts| - 1];
      assert last in r.attempts;
      assert last.number < a.number;
    }
  }

  lemma {:induction false} AllocateKeepsSound(r: Lifecycle)
    requires Sound(r) && Allocated(r).Ok?
    ensures Sound(Allocated(r).value) && r.allocations <= Allocated(r).value.allocations
  {
    var all := r.allocations + Numbers(r.attempts);
    assert forall i :: 0 <= i < |r.allocations| ==> all[i] == r.allocations[i];
  }

  lemma {:induction false} CallKeepsSound(r: Lifecycle, call: Call)
    requires Sound(r)
    ensures Sound(After(r, call))
    ensures r.transitions <= After(r, call).transitions
    ensures r.attempts <= After(r, call).attempts && r.allocations <= After(r, call).allocations
  {
    match call {
      case Append(t) =>
        if Appended(r, t).Ok? {
          AppendKeepsSound(r, t);
        }
      case RecordAttempt(a) =>
        if Recorded(r, a).Ok? {
          RecordKeepsSound(r, a);
        }
      case Allocate =>
        if Allocated(r).Ok? {
          AllocateKeepsSound(r);
        }
    }
  }

  lemma {:induction false} SoundIsReadable(r: Lifecycle)
    requires Sound(r)
    ensures Readable(r)
  {
    forall i | 0 <= i < |r.transitions| ensures r.transitions[i].sequence == i + 1 {
      ChainedPrefix(r.transitions, i);
    }
  }

  /** Whatever calls are made, every record saved passes its own read-time validation. */
  lemma {:induction false} SavedRecordsAreReadable(jobId: string, calls: seq<Call>)
    ensures Sound(AfterAll(Empty(jobId), calls))
    ensures Intact(AfterAll(Empty(jobId), calls))
  {
    if calls != [] {
      SavedRecordsAreReadable(jobId, calls[..|calls| - 1]);
      CallKeepsSound(AfterAll(Empty(jobId), calls[..|calls| - 1]), calls[|calls| - 1]);
    }
    SoundIsReadable(AfterAll(Empty(jobId), calls));
  }

  /** A later record keeps everything an earlier one held, in order. */
  lemma {:induction false} HistoryOnlyGrows(r: Lifecycle, calls: seq<Call>)
    requires Sound(r)
    ensures Sound(AfterAll(r, calls))
    ensures r.transitions <= AfterAll(r, calls).transitions
    ensures r.attempts <= AfterAll(r, calls).attempts && r.allocations <= AfterAll(r, calls).allocations
  {
    if calls != [] {
      HistoryOnlyGrows(r, calls[..|calls| - 1]);
      CallKeepsSound(AfterAll(r, calls[..|calls| - 1]), calls[|calls| - 1]);
    }
  }

  /** Re-appending any recorded transition, even at another time and much later, changes nothing. */
  lemma {:induction false} ReappendChangesNothing(r: Lifecycle, calls: seq<Call>, i: nat, timestamp: int)
    requires Sound(r) && i < |r.transitions|
    ensures var later := AfterAll(r, calls);
      Appended(later, r.transitions[i].transition.(timestamp := timestamp)) == Ok(later)
  {
    HistoryOnlyGrows(r, calls);
    var later := AfterAll(r, calls);
    var t := r.transitions[i].transition.(timestamp := timestamp);
    assert later.transitions[i] == r.transitions[i];
    var found := FindTransition(later.transitions, Identity(t));
    assert later.transitions[i] in later.transitions && later.transitions[i].identity == Identity(t);
    var j :| 0 <= j < |later.transitions| && later.transitions[j] == found.value;
    assert later.transitions[j].identity == Identity(later.transitions[j].transition);
  }

  /** Nothing is ever appended after a terminal state. */
  lemma {:induction false} NothingFollowsTerminal(r: Lifecycle, calls: seq<Call>)
    requires r.transitions != [] && Terminal(r.transitions[|r.transitions| - 1].Current())
    ensures AfterAll(r, calls).transitions == r.transitions
  {
    if calls != [] {
      NothingFollowsTerminal(r, calls[..|calls| - 1]);
      var before := AfterAll(r, calls[..|calls| - 1]);
      match calls[|calls| - 1] {
        case Append(t) => assert !Acceptable(before.transitions, t);
        case RecordAttempt(_) =>
        case Allocate =>
      }
    }
  }

  /** Attempt `n` was allocated but never recorded, and a later attempt has been. */
  ghost predicate Skipped(r: Lifecycle, n: nat) {
    && n in r.allocations && n !in Numbers(r.attempts)
    && r.attempts != [] && n < r.attempts[|r.attempts| - 1].number
  }

  /**
   * A skipped allocation stays open for ever: no sequence of calls makes
   * `has_unfinalized_allocation` false again.
   */
  lemma {:induction false} SkippedAllocationStaysOpen(r: Lifecycle, calls: seq<Call>, n: nat)
    requires Sound(r) && Skipped(r, n)
    ensures Skipped(AfterAll(r, calls), n) && Unfinalized(AfterAll(r, calls))
  {
    var later := AfterAll(r, calls);
    HistoryOnlyGrows(r, calls);
    assert n in later.allocations by {
      var i :| 0 <= i < |r.allocations| && r.allocations[i] == n;
      assert later.allocations[i] == n;
    }
    var k := |r.attempts| - 1;
    assert later.attempts[..|r.attempts|] == r.attempts;
    forall i | 0 <= i < |later.attempts| ensures later.attempts[i].number != n {
      if i <= k {
        assert Numbers(r.attempts)[i] == r.attempts[i].number == later.attempts[i].number;
      } else {
        assert later.attempts[k].number < later.attempts[i].number;
      }
    }
  }

  // ----- The length of a log

  function RequeueCount(ts: seq<PersistedTransition>): nat {
    if |ts| < 2 then 0
    else
      RequeueCount(ts[..|ts| - 1]) +
      if Requeues(ts[|ts| - 2].Current(), ts[|ts| - 1].Current()) then 1 else 0
  }

  /**
   * The lexicographic measure in closed form: a log is no longer than its
   * requeues pay for, and what is left of the current rank is still unspent.
   */
  lemma {:induction false} LogLengthIsPaidByRequeues(ts: seq<PersistedTransition>)
    requires Chained(ts) && ts != []
    ensures |ts| + Rank(ts[|ts| - 1].Current()) <= 15 + 12 * RequeueCount(ts)
  {
    if |ts| >= 2 {
      var front := ts[..|ts| - 1];
      LogLengthIsPaidByRequeues(front);
      OnlyRequeueRaisesRank(ts[|ts| - 2].Current(), ts[|ts| - 1].Current());
    }
  }

  // ----- The store object

  class FilesystemStore {
    var files: map<string, Lifecycle>
      /** Saves that go through before the process is killed. */
    var saves: nat

    constructor (saves: nat)
      ensures files == map[] && this.saves == saves
    {
      files, this.saves := map[], saves;
    }

    ghost predicate Valid() reads this {
      forall jobId :: jobId in files ==> files[jobId].jobId == jobId
    }

    function Load(jobId: string): (r: Lifecycle)
      requires Valid()
      reads this
      ensures r.jobId == jobId
    {
      if jobId in files then files[jobId] else Empty(jobId)
    }

    /** `_validate_record`, the loop over the persisted walk. */
    method ValidateRecord(r: Lifecycle) returns (ok: bool)
      ensures ok <==> Chained(r.transitions)
      ensures ok <==> Walks(r.transitions)
    {
      hide Walks;
      var ts := r.transitions;
      ChainedIff(ts);
      if ts == [] {
        return true;
      }
      if ts[0].Current() != CREATED {
        BrokenAt(ts, 0);
        return false;
      }
      var current := CREATED;
      for i := 0 to |ts|
        invariant Chained(ts[..i])
        invariant i > 0 ==> current == ts[i - 1].Current()
      {
        assert ts[..i + 1][..i] == ts[..i];
        if ts[i].sequence != i + 1 {
          BrokenAt(ts, i);
          return false;
        }
        if i == 0 {
          if ts[i].Previous() != None {
            BrokenAt(ts, i);
            return false;
          }
        } else {
          if ts[i].Previous() != Some(current) || Terminal(current) || ts[i].Current() !in NextStates(current) {
            BrokenAt(ts, i);
            return false;
          }
        }
        current := ts[i].Current();
      }
      assert ts[..|ts|] == ts;
      return true;
    }

    /** `_load_or_empty` and both validations: the model's own on reading, then the walk's. */
    method Read(jobId: string) returns (r: Result<Lifecycle, StoreError>)
      requires Valid()
      ensures r == if Intact(Load(jobId)) then Ok(Load(jobId)) else Err(Corruption)
    {
      var record := Load(jobId);
      if !Readable(record) {
        return Err(Corruption);
      }
      var valid := ValidateRecord(record);
      if !valid {
        return Err(Corruption);
      }
      return Ok(record);
    }

    /** `_save`: atomic replacement, or a crash that leaves the old file. */
    method Save(r: Lifecycle) returns (done: bool)
      modifies this
      ensures done <==> old(saves) > 0
      ensures done ==> files == old(files)[r.jobId := r] && saves == old(saves) - 1
      ensures !done ==> files == old(files) && saves == old(saves)
    {
      if saves == 0 {
        return false;
      }
      files := files[r.jobId := r];
      saves := saves - 1;
      return true;
    }

    method AppendTransition(t: Transition) returns (r: Result<PersistedTransition, StoreError>)
      requires Valid()
      modifies this
      ensures Valid()
      ensures var before := old(Load(t.payload.jobId));
        var written := Appended(before, t);
        match r
        case Ok(p) =>
          && Intact(before) && written.Ok? && Load(t.payload.jobId) == written.value
          && p in Load(t.payload.jobId).transitions && p.transition.payload == t.payload
        case Err(Corruption) => !Intact(before) && files == old(files)
        case Err(Crashed) =>
          Intact(before) && written.Ok? && written.value != before && old(saves) == 0 && files == old(files)
        case Err(e) => Intact(before) && written == Err(e) && files == old(files)
      ensures files == old(files) || files == old(files)[t.payload.jobId := Load(t.payload.jobId)]
      ensures saves <= old(saves)
    {
      var record :- Read(t.payload.jobId);
      for i := 0 to |record.transitions|
        invariant Valid() && files == old(files) && saves == old(saves)
        invariant FindTransition(record.transitions, Identity(t)) == FindTransition(record.transitions[i..], Identity(t))
      {
        assert record.transitions[i..][1..] == record.transitions[i + 1..];
        var existing := record.transitions[i];
        if existing.identity == Identity(t) {
          if existing.transition.payload != t.payload {
            return Err(Conflict);
          }
          return Ok(existing);
        }
      }
      if !Acceptable(record.transitions, t) {
        return Err(Conflict);
      }
      var persisted := PersistedTransition(|record.transitions| + 1, Identity(t), t);
      var done := Save(record.(transitions := record.transitions + [persisted]));
      if !done {
        return Err(Crashed);
      }
      return Ok(persisted);
    }

    method RecordAttempt(a: ScrapeAttempt) returns (r: Result<ScrapeAttempt, StoreError>)
      requires Valid()
      modifies this
      ensures Valid()
      ensures var before := old(Load(a.jobId));
        var written := Recorded(before, a);
        match r
        case Ok(recorded) =>
          Intact(before) && written.Ok? && Load(a.jobId) == written.value && recorded == a
        case Err(Corruption) => !Intact(before) && files == old(files)
        case Err(Crashed) =>
          Intact(before) && written.Ok? && written.value != before && old(saves) == 0 && files == old(files)
        case Err(e) => Intact(before) && written == Err(e) && files == old(files)
      ensures files == old(files) || files == old(files)[a.jobId := Load(a.jobId)]
      ensures saves <= old(saves)
    {
      var record :- Read(a.jobId);
      for i := 0 to |record.attempts|
        invariant Valid() && files == old(files) && saves == old(saves)
        invariant FindAttempt(record.attempts, a.jobId, a.number) == FindAttempt(record.attempts[i..], a.jobId, a.number)
      {
        assert record.attempts[i..][1..] == record.attempts[i + 1..];
        var existing := record.attempts[i];
        if existing.jobId == a.jobId && existing.number == a.number {
          if existing != a {
            return Err(Conflict);
          }
          return Ok(existing);
        }
      }
      if record.attempts != [] && a.number < record.attempts[|record.attempts| - 1].number {
        return Err(Conflict);
      }
      var done := Save(record.(attempts := record.attempts + [a]));
      if !done {
        return Err(Crashed);
      }
      return Ok(a);
    }

    method AllocateAttemptNumber(jobId: string) returns (r: Result<nat, StoreError>)
      requires Valid()
      modifies this
      ensures Valid()
      ensures var before := old(Load(jobId));
        var written := Allocated(before);
        match r
        case Ok(n) => Intact(before) && written.Ok? && Load(jobId) == written.value && n == NextAttemptNumber(before)
        case Err(Corruption) => !Intact(before) && files == old(files)
        case Err(Crashed) => Intact(before) && written.Ok? && old(saves) == 0 && files == old(files)
        case Err(e) => Intact(before) && written == Err(e) && files == old(files)
      ensures files == old(files) || files == old(files)[jobId := Load(jobId)]
      ensures saves <= old(saves)
    {
      var record :- Read(jobId);
      var next := NextAttemptNumber(record);
      if next > MAX_ATTEMPTS {
        return Err(Conflict);
      }
      var done := Save(record.(allocations := record.allocations + [next]));
      if !done {
        return Err(Crashed);
      }
      return Ok(next);
    }
  }
}
