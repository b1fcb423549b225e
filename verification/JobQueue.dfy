/**
 * The leased job queue as a state machine over its database steps, and the store
 * whose methods take them. The email outbox is the same machine under other status
 * names. A claim is one locked transaction; a report is two steps, because it reads
 * the row without a lock and writes the columns it changed when it commits. A claim
 * carries no owner token: any worker that once claimed a job may still report on it.
 */
module JobQueue {
  import opened Outcomes

  datatype Status = Queued | Running | Succeeded | Failed

  datatype Job = Job(
    status: Status,
    attempts: nat,
    maxAttempts: int,
    createdAt: int,
    availableAt: int,
    lease: Option<int>,
    completedAt: Option<int>,
    expiries: nat,        // auxiliary: lease expiries so far
    retried: set<nat>)    // auxiliary: numbers of the attempts whose retry was written

  /** A report between its read and its commit: the row as read, and as it is to be. */
  datatype Pending = Pending(read: Job, next: Job)

  /** A worker from its claim, attempt `number` of the job, to the end of its report. A dead worker just takes no more steps. */
  datatype Holder = Holder(job: nat, until: int, number: nat, pending: Option<Pending>)

  /** `clock` is the latest time any step has read; steps may read their times in any order. */
  datatype State = State(leaseSeconds: int, clock: int, jobs: map<nat, Job>, holders: map<nat, Holder>)

  datatype Action =
    | Create(id: nat, now: int, maxAttempts: int)
      /** `locked` are the rows other transactions hold, which the query skips. */
    | Claim(worker: nat, now: int, locked: set<nat>, chosen: Option<nat>)
      /** The read of `succeed` or `fail`; the report is over when the row is not running. */
    | ReadSuccess(worker: nat, now: int)
    | ReadFailure(worker: nat, now: int, retryable: bool, delay: nat)
      /** The commit of a report. */
    | Write(worker: nat)

  function Init(leaseSeconds: int, clock: int): State { State(leaseSeconds, clock, map[], map[]) }

  // ----- The transactions

  function New(now: int, maxAttempts: int): Job { Job(Queued, 0, maxAttempts, now, now, None, None, 0, {}) }

  /** The UPDATE that returns an expired job to the queue, whatever its attempt count. */
  function Expire(job: Job, now: int): Job {
    if Lapsed(job, now) then job.(status := Queued, availableAt := now, lease := None, expiries := job.expiries + 1)
    else job
  }

  predicate Lapsed(job: Job, now: int) { job.status.Running? && job.lease.Some? && job.lease.value < now }

  function ExpireAll(jobs: map<nat, Job>, now: int): map<nat, Job> {
    map id | id in jobs :: Expire(jobs[id], now)
  }

  predicate Eligible(job: Job, now: int) { job.status.Queued? && job.availableAt <= now }

  /** The job the claim query may return: the oldest eligible one it can lock, if there is one. */
  predicate Picks(jobs: map<nat, Job>, now: int, locked: set<nat>, chosen: Option<nat>) {
    match chosen
    case None => forall id | id in jobs :: Eligible(jobs[id], now) ==> id in locked
    case Some(c) =>
      && c in jobs && c !in locked && Eligible(jobs[c], now)
      && forall id | id in jobs :: Eligible(jobs[id], now) && id !in locked ==> jobs[c].createdAt <= jobs[id].createdAt
  }

  function Claimed(job: Job, until: int): Job {
    job.(status := Running, attempts := job.attempts + 1, lease := Some(until))
  }

  /** What `succeed` and `fail` assign to a row they read as running. */
  function AfterSuccess(job: Job, now: int): Job {
    job.(status := Succeeded, completedAt := Some(now), lease := None)
  }

  function AfterFailure(job: Job, now: int, retryable: bool, delay: nat): Job {
    if retryable && job.attempts < job.maxAttempts then job.(status := Queued, availableAt := now + delay, lease := None)
    else job.(status := Failed, completedAt := Some(now), lease := None)
  }

  function Changed<T(==)>(read: T, next: T, stored: T): T { if next != read then next else stored }

  /** The UPDATE at commit: the columns that differ from the read go over whatever is stored by now. */
  function Merged(stored: Job, p: Pending, number: nat): Job {
    stored.(
      status := Changed(p.read.status, p.next.status, stored.status),
      availableAt := Changed(p.read.availableAt, p.next.availableAt, stored.availableAt),
      lease := Changed(p.read.lease, p.next.lease, stored.lease),
      completedAt := Changed(p.read.completedAt, p.next.completedAt, stored.completedAt),
      retried := if p.next.status.Queued? then stored.retried + {number} else stored.retried)
  }

  // ----- Runs

  predicate Enabled(s: State, a: Action) {
    match a
    case Create(id, _, _) => id !in s.jobs
    case Claim(worker, now, locked, chosen) =>
      worker !in s.holders && Picks(ExpireAll(s.jobs, now), now, locked, chosen)
    case ReadSuccess(worker, _) => Holds(s, worker) && s.holders[worker].pending.None?
    case ReadFailure(worker, _, _, _) => Holds(s, worker) && s.holders[worker].pending.None?
    case Write(worker) => Holds(s, worker) && s.holders[worker].pending.Some?
  }

  function Later(x: int, y: int): int { if x < y then y else x }

  predicate Holds(s: State, worker: nat) { worker in s.holders && s.holders[worker].job in s.jobs }

  /** A report's read: it keeps what it will assign, or gives up on a row that is not running. */
  function AfterRead(s: State, worker: nat, now: int, next: Job): State
    requires Holds(s, worker)
  {
    var h := s.holders[worker];
    if s.jobs[h.job].status.Running? then
      s.(clock := Later(s.clock, now), holders := s.holders[worker := h.(pending := Some(Pending(s.jobs[h.job], next)))])
    else s.(clock := Later(s.clock, now), holders := s.holders - {worker})
  }

  function AfterClaim(s: State, worker: nat, now: int, chosen: Option<nat>): State
    requires chosen.Some? ==> chosen.value in s.jobs
  {
    var jobs := ExpireAll(s.jobs, now);
    if chosen.None? then s.(clock := Later(s.clock, now), jobs := jobs)
    else
      var job := Claimed(jobs[chosen.value], now + s.leaseSeconds);
      s.(clock := Later(s.clock, now), jobs := jobs[chosen.value := job],
         holders := s.holders[worker := Holder(chosen.value, now + s.leaseSeconds, job.attempts, None)])
  }

  function Step(s: State, a: Action): State {
    if !Enabled(s, a) then s
    else
      match a
      case Create(id, now, maxAttempts) => s.(clock := Later(s.clock, now), jobs := s.jobs[id := New(now, maxAttempts)])
      case Claim(worker, now, locked, chosen) => AfterClaim(s, worker, now, chosen)
      case ReadSuccess(worker, now) => AfterRead(s, worker, now, AfterSuccess(s.jobs[s.holders[worker].job], now))
      case ReadFailure(worker, now, retryable, delay) =>
        AfterRead(s, worker, now, AfterFailure(s.jobs[s.holders[worker].job], now, retryable, delay))
      case Write(worker) =>
        var h := s.holders[worker];
        s.(jobs := s.jobs[h.job := Merged(s.jobs[h.job], h.pending.value, h.number)], holders := s.holders - {worker})
  }

  function Run(s: State, actions: seq<Action>): State {
    if actions == [] then s else Step(Run(s, actions[..|actions| - 1]), actions[|actions| - 1])
  }

  lemma {:induction false} RunStep(s: State, actions: seq<Action>, a: Action)
    ensures Run(s, actions + [a]) == Step(Run(s, actions), a)
  {
    assert (actions + [a])[..|actions|] == actions;
  }

  lemma {:induction false} RunAppend(s: State, a: seq<Action>, b: seq<Action>)
    ensures Run(s, a + b) == Run(Run(s, a), b)
  {
    if b == [] {
      assert a + b == a;
    } else {
      RunAppend(s, a, b[..|b| - 1]);
      assert (a + b)[..|a + b| - 1] == a + b[..|b| - 1];
    }
  }

  // ----- What holds in every reachable state, stale writes included

  predicate Done(job: Job) { job.status.Succeeded? || job.status.Failed? }

  /** The first attempt is given even where `max_attempts` is below one. */
  function Allowance(job: Job): int { if job.maxAttempts < 1 then 1 else job.maxAttempts }

  ghost predicate JobInv(job: Job) {
    && (job.lease.Some? <==> job.status.Running?)
    && (Done(job) ==> job.completedAt.Some?)
    && (forall n :: n in job.retried ==> 1 <= n < job.maxAttempts && n <= job.attempts)
    && job.attempts <= job.expiries + |job.retried| + if job.status.Queued? then 0 else 1
  }

  /** What a report may assign to a row it read. */
  ghost predicate Assigns(read: Job, next: Job) {
    && read.status.Running? && next.lease.None?
    && if next.status.Queued? then read.attempts < read.maxAttempts && next.completedAt == read.completedAt
       else Done(next) && next.completedAt.Some? && next.availableAt == read.availableAt
  }

  /** What a pending report read, against the row as it is stored by now. */
  ghost predicate PendingInv(stored: Job, h: Holder, p: Pending) {
    && Assigns(p.read, p.next) && p.read.lease.Some?
    && p.read.maxAttempts == stored.maxAttempts && h.number <= p.read.attempts <= stored.attempts
    && (p.read.completedAt.Some? ==> stored.completedAt.Some?)
  }

  ghost predicate HolderInv(s: State, h: Holder) {
    && h.job in s.jobs
    && 1 <= h.number <= s.jobs[h.job].attempts && h.number !in s.jobs[h.job].retried
    && (h.pending.Some? ==> PendingInv(s.jobs[h.job], h, h.pending.value))
  }

  /** The worker whose claim set the running row's lease. */
  ghost predicate Claimant(s: State, id: nat, w: nat) {
    && w in s.holders && id in s.jobs
    && s.holders[w].job == id && s.holders[w].number == s.jobs[id].attempts && s.jobs[id].lease == Some(s.holders[w].until)
  }

  ghost predicate Inv(s: State) {
    && (forall id :: id in s.jobs ==> JobInv(s.jobs[id]))
    && (forall w :: w in s.holders ==> HolderInv(s, s.holders[w]))
    && (forall v, w | v in s.holders && w in s.holders && v != w && s.holders[v].job == s.holders[w].job ::
          s.holders[v].number != s.holders[w].number)
    && (forall id :: id in s.jobs && s.jobs[id].status.Running? ==> exists w :: Claimant(s, id, w))
  }

  lemma {:induction false} ExpireKeeps(s: State, now: int)
    requires Inv(s)
    ensures Inv(s.(jobs := ExpireAll(s.jobs, now)))
  {
    var s' := s.(jobs := ExpireAll(s.jobs, now));
    forall w | w in s'.holders ensures HolderInv(s', s'.holders[w]) {
      assert HolderInv(s, s.holders[w]);
    }
    forall id | id in s'.jobs && s'.jobs[id].status.Running? ensures exists w :: Claimant(s', id, w) {
      var w :| Claimant(s, id, w);
      assert Claimant(s', id, w);
    }
  }

  lemma {:induction false} ClaimKeeps(s: State, worker: nat, now: int, id: nat)
    requires Inv(s) && worker !in s.holders && id in s.jobs && s.jobs[id].status.Queued?
    ensures var job := Claimed(s.jobs[id], now);
      Inv(s.(jobs := s.jobs[id := job], holders := s.holders[worker := Holder(id, now, job.attempts, None)]))
  {
    var job := Claimed(s.jobs[id], now);
    var s' := s.(jobs := s.jobs[id := job], holders := s.holders[worker := Holder(id, now, job.attempts, None)]);
    assert JobInv(s.jobs[id]);
    forall w | w in s'.holders ensures HolderInv(s', s'.holders[w]) {
      assert w != worker ==> HolderInv(s, s.holders[w]);
    }
    forall v, w | v in s'.holders && w in s'.holders && v != w && s'.holders[v].job == s'.holders[w].job
      ensures s'.holders[v].number != s'.holders[w].number
    {
      assert v != worker ==> HolderInv(s, s.holders[v]);
      assert w != worker ==> HolderInv(s, s.holders[w]);
    }
    forall k | k in s'.jobs && s'.jobs[k].status.Running? ensures exists w :: Claimant(s', k, w) {
      if k == id {
        assert Claimant(s', k, worker);
      } else {
        var w :| Claimant(s, k, w);
        assert Claimant(s', k, w);
      }
    }
  }

  lemma {:induction false} ReadKeeps(s: State, worker: nat, now: int, next: Job)
    requires Inv(s) && Holds(s, worker)
    requires s.jobs[s.holders[worker].job].status.Running? ==> Assigns(s.jobs[s.holders[worker].job], next)
    ensures Inv(AfterRead(s, worker, now, next))
  {
    var s' := AfterRead(s, worker, now, next);
    assert HolderInv(s, s.holders[worker]);
    forall w | w in s'.holders ensures HolderInv(s', s'.holders[w]) {
      assert HolderInv(s, s.holders[w]);
    }
    forall id | id in s'.jobs && s'.jobs[id].status.Running? ensures exists w :: Claimant(s', id, w) {
      var w :| Claimant(s, id, w);
      assert Claimant(s', id, w);
    }
  }

  lemma {:induction false} WriteKeeps(s: State, worker: nat)
    requires Inv(s) && Enabled(s, Write(worker))
    ensures Inv(Step(s, Write(worker)))
  {
    var s' := Step(s, Write(worker));
    var h := s.holders[worker];
    assert HolderInv(s, h);
    assert JobInv(s'.jobs[h.job]) by { WriteKeepsJob(s.jobs[h.job], h, h.pending.value); }
    forall w | w in s'.holders ensures HolderInv(s', s'.holders[w]) {
      assert HolderInv(s, s.holders[w]);
      assert s.holders[w].job == h.job ==> s.holders[w].number != h.number;
    }
    forall id | id in s'.jobs && s'.jobs[id].status.Running? ensures exists w :: Claimant(s', id, w) {
      var w :| Claimant(s, id, w);
      assert Claimant(s', id, w);
    }
  }

  lemma {:induction false} WriteKeepsJob(stored: Job, h: Holder, p: Pending)
    requires JobInv(stored) && PendingInv(stored, h, p) && h.number >= 1 && h.number !in stored.retried
    ensures JobInv(Merged(stored, p, h.number))
    ensures Merged(stored, p, h.number).status == p.next.status != Running
    ensures Merged(stored, p, h.number).lease == None
  {
  }

  lemma {:induction false} StepKeepsInv(s: State, a: Action)
    requires Inv(s)
    ensures Inv(Step(s, a))
  {
    hide Inv, Picks, AfterRead;
    if Enabled(s, a) {
      match a {
        case Create(id, now, maxAttempts) => CreateKeeps(s, id, now, maxAttempts);
        case Claim(worker, now, locked, chosen) =>
          ExpireKeeps(s, now);
          var expired := s.(jobs := ExpireAll(s.jobs, now));
          ClockKeeps(expired, Later(s.clock, now));
          if chosen.Some? {
            PicksEligible(expired.jobs, now, locked, chosen.value);
            ClaimKeeps(expired.(clock := Later(s.clock, now)), worker, now + s.leaseSeconds, chosen.value);
          }
        case ReadSuccess(worker, now) => ReadKeeps(s, worker, now, AfterSuccess(s.jobs[s.holders[worker].job], now));
        case ReadFailure(worker, now, retryable, delay) =>
          ReadKeeps(s, worker, now, AfterFailure(s.jobs[s.holders[worker].job], now, retryable, delay));
        case Write(worker) => WriteKeeps(s, worker);
      }
    }
  }

  lemma {:induction false} CreateKeeps(s: State, id: nat, now: int, maxAttempts: int)
    requires Inv(s) && id !in s.jobs
    ensures Inv(s.(clock := Later(s.clock, now), jobs := s.jobs[id := New(now, maxAttempts)]))
  {
    var s' := s.(clock := Later(s.clock, now), jobs := s.jobs[id := New(now, maxAttempts)]);
    forall w | w in s'.holders ensures HolderInv(s', s'.holders[w]) {
      assert HolderInv(s, s.holders[w]);
    }
    forall k | k in s'.jobs && s'.jobs[k].status.Running? ensures exists w :: Claimant(s', k, w) {
      var w :| Claimant(s, k, w);
      assert Claimant(s', k, w);
    }
  }

  lemma {:induction false} ClockKeeps(s: State, clock: int)
    requires Inv(s)
    ensures Inv(s.(clock := clock))
  {
    var s' := s.(clock := clock);
    forall w | w in s'.holders ensures HolderInv(s', s'.holders[w]) {
      assert HolderInv(s, s.holders[w]);
    }
    forall k | k in s'.jobs && s'.jobs[k].status.Running? ensures exists w :: Claimant(s', k, w) {
      var w :| Claimant(s, k, w);
      assert Claimant(s', k, w);
    }
  }

  lemma {:induction false} PicksEligible(jobs: map<nat, Job>, now: int, locked: set<nat>, c: nat)
    requires Picks(jobs, now, locked, Some(c))
    ensures c in jobs && Eligible(jobs[c], now)
  {
  }

  lemma {:induction false} RunKeepsInv(s: State, actions: seq<Action>)
    requires Inv(s)
    ensures Inv(Run(s, actions))
  {
    hide Inv, Step;
    if actions != [] {
      RunKeepsInv(s, actions[..|actions| - 1]);
      StepKeepsInv(Run(s, actions[..|actions| - 1]), actions[|actions| - 1]);
    }
  }

  lemma {:induction false} StartIsSound(leaseSeconds: int, clock: int)
    ensures Inv(Init(leaseSeconds, clock))
  {
  }

  lemma {:induction false} BelowHas(ns: set<nat>, n: nat)
    requires forall k :: k in ns ==> 1 <= k < n
    ensures |ns| <= if n == 0 then 0 else n - 1
  {
    if n <= 1 {
      assert ns == {};
    } else {
      BelowHas(ns - {n - 1}, n - 1);
      assert n - 1 !in ns ==> ns - {n - 1} == ns;
    }
  }

  /**
   * In every run, stale writes included: a lease is there exactly while running, a
   * finished job has a completion time, and attempts exceed the allowance by no more
   * than the number of lease expiries.
   */
  lemma {:induction false} EveryJobIsSound(leaseSeconds: int, clock: int, actions: seq<Action>, id: nat)
    requires id in Run(Init(leaseSeconds, clock), actions).jobs
    ensures var job := Run(Init(leaseSeconds, clock), actions).jobs[id];
      && (job.lease.Some? <==> job.status == Running)
      && (job.status in {Succeeded, Failed} ==> job.completedAt.Some?)
      && (job.maxAttempts >= 1 ==> job.attempts <= job.maxAttempts + job.expiries)
      && (job.maxAttempts < 1 ==> job.attempts <= 1 + job.expiries)
  {
    StartIsSound(leaseSeconds, clock);
    RunKeepsInv(Init(leaseSeconds, clock), actions);
    var job := Run(Init(leaseSeconds, clock), actions).jobs[id];
    assert JobInv(job);
    BelowHas(job.retried, if job.maxAttempts < 0 then 0 else job.maxAttempts);
  }

  /** A job is never deleted, and what was allowed it never changes; its two counts never go down. */
  lemma {:induction false} StepKeepsJobs(s: State, a: Action, id: nat)
    requires id in s.jobs
    ensures id in Step(s, a).jobs
    ensures s.jobs[id].attempts <= Step(s, a).jobs[id].attempts <= s.jobs[id].attempts + 1
    ensures s.jobs[id].expiries <= Step(s, a).jobs[id].expiries <= s.jobs[id].expiries + 1
    ensures Step(s, a).jobs[id].maxAttempts == s.jobs[id].maxAttempts
  {
  }

  lemma {:induction false} RunKeepsJobs(s: State, actions: seq<Action>, id: nat)
    requires id in s.jobs
    ensures id in Run(s, actions).jobs && s.jobs[id].attempts <= Run(s, actions).jobs[id].attempts
    ensures Run(s, actions).jobs[id].maxAttempts == s.jobs[id].maxAttempts
  {
    hide Step;
    if actions != [] {
      RunKeepsJobs(s, actions[..|actions| - 1], id);
      StepKeepsJobs(Run(s, actions[..|actions| - 1]), actions[|actions| - 1], id);
    }
  }

  predicate Involves(a: Action, worker: nat) {
    match a
    case Create(_, _, _) => false
    case _ => a.worker == worker
  }

  predicate Others(actions: seq<Action>, worker: nat) {
    forall i :: 0 <= i < |actions| ==> !Involves(actions[i], worker)
  }

  /** What other workers do leaves a worker's own report as it was. */
  lemma {:induction false} OthersKeepHolder(s: State, actions: seq<Action>, worker: nat)
    requires Holds(s, worker) && Others(actions, worker)
    ensures Holds(Run(s, actions), worker) && Run(s, actions).holders[worker] == s.holders[worker]
  {
    hide Picks;
    if actions != [] {
      var a := actions[|actions| - 1];
      OthersKeepHolder(s, actions[..|actions| - 1], worker);
      StepKeepsJobs(Run(s, actions[..|actions| - 1]), a, s.holders[worker].job);
    }
  }

  // ----- The store

  /** The table together with the sessions of its workers. */
  class DurableJobStore {
    const leaseSeconds: int
    var clock: int
    var jobs: map<nat, Job>
    var holders: map<nat, Holder>

    constructor (leaseSeconds: int, clock: int)
      ensures Current() == Init(leaseSeconds, clock)
    {
      this.leaseSeconds, this.clock, jobs, holders := leaseSeconds, clock, map[], map[];
    }

    function Current(): State
      reads this
    {
      State(leaseSeconds, clock, jobs, holders)
    }

    /** The UPDATE over every expired row. */
    method ExpireLeases(now: int)
      modifies this`jobs
      ensures jobs == ExpireAll(old(jobs), now)
    {
      var left := jobs.Keys;
      while left != {}
        invariant left <= jobs.Keys == old(jobs).Keys
        invariant forall id :: id in left ==> jobs[id] == old(jobs)[id]
        invariant forall id :: id in jobs.Keys - left ==> jobs[id] == Expire(old(jobs)[id], now)
      {
        var id :| id in left;
        jobs := jobs[id := Expire(jobs[id], now)];
        left := left - {id};
      }
    }

    /** The oldest eligible job that no other transaction has locked. */
    method SelectOldest(now: int, locked: set<nat>) returns (chosen: Option<nat>)
      ensures Picks(jobs, now, locked, chosen)
    {
      chosen := None;
      var left := jobs.Keys - locked;
      while left != {}
        invariant left <= jobs.Keys - locked
        invariant chosen.None? ==> forall id :: id in jobs.Keys - locked - left ==> !Eligible(jobs[id], now)
        invariant chosen.Some? ==>
          && chosen.value in jobs && chosen.value !in locked && Eligible(jobs[chosen.value], now)
          && forall id :: id in jobs.Keys - locked - left && Eligible(jobs[id], now) ==>
               jobs[chosen.value].createdAt <= jobs[id].createdAt
      {
        var id :| id in left;
        if Eligible(jobs[id], now) && (chosen.None? || jobs[id].createdAt < jobs[chosen.value].createdAt) {
          chosen := Some(id);
        }
        left := left - {id};
      }
    }

    /** `claim`: the `Claim` step of the machine for the worker that calls it. */
    method ClaimJob(worker: nat, now: int, locked: set<nat>) returns (chosen: Option<nat>)
      requires worker !in holders
      modifies this
      ensures Picks(ExpireAll(old(jobs), now), now, locked, chosen)
      ensures Current() == Step(old(Current()), Claim(worker, now, locked, chosen))
    {
      clock := Later(clock, now);
      ExpireLeases(now);
      chosen := SelectOldest(now, locked);
      if chosen.Some? {
        var job := jobs[chosen.value];
        job := job.(status := Running, attempts := job.attempts + 1, lease := Some(now + leaseSeconds));
        jobs := jobs[chosen.value := job];
        holders := holders[worker := Holder(chosen.value, now + leaseSeconds, job.attempts, None)];
      }
    }

    /** Other workers' steps, taken while this one is between its read and its commit. */
    method Meanwhile(actions: seq<Action>)
      modifies this
      ensures Current() == Run(old(Current()), actions)
    {
      for i := 0 to |actions|
        invariant Current() == Run(old(Current()), actions[..i])
      {
        assert actions[..i + 1] == actions[..i] + [actions[i]];
        RunStep(old(Current()), actions[..i], actions[i]);
        var s := Step(Current(), actions[i]);
        StepKeepsLease(Current(), actions[i]);
        clock, jobs, holders := s.clock, s.jobs, s.holders;
      }
      assert actions[..|actions|] == actions;
    }

    /** The commit of a report: each column that was assigned another value is written, and the session ends. */
    method Commit(worker: nat)
      requires Enabled(Current(), Write(worker))
      modifies this
      ensures Current() == Step(old(Current()), Write(worker))
    {
      var h := holders[worker];
      var p := h.pending.value;
      var row := jobs[h.job];
      if p.next.status != p.read.status {
        row := row.(status := p.next.status);
      }
      if p.next.availableAt != p.read.availableAt {
        row := row.(availableAt := p.next.availableAt);
      }
      if p.next.lease != p.read.lease {
        row := row.(lease := p.next.lease);
      }
      if p.next.completedAt != p.read.completedAt {
        row := row.(completedAt := p.next.completedAt);
      }
      if p.next.status.Queued? {
        row := row.(retried := row.retried + {h.number});
      }
      jobs := jobs[h.job := row];
      holders := holders - {worker};
    }

    /** `succeed`: the read, what the others do, and the commit, or the read alone. */
    method ReportSuccess(worker: nat, now: int, meanwhile: seq<Action>)
      requires Holds(Current(), worker) && holders[worker].pending.None? && Others(meanwhile, worker)
      modifies this
      ensures Current() == Run(old(Current()),
        if old(jobs[holders[worker].job]).status.Running? then [ReadSuccess(worker, now)] + meanwhile + [Write(worker)]
        else [ReadSuccess(worker, now)])
    {
      var h := holders[worker];
      var job := jobs[h.job];
      ghost var before := Current();
      clock := Later(clock, now);
      RunStep(before, [], ReadSuccess(worker, now));
      assert [] + [ReadSuccess(worker, now)] == [ReadSuccess(worker, now)];
      if job.status == Running {
        holders := holders[worker := h.(pending := Some(Pending(job, job.(
          status := Succeeded, completedAt := Some(now), lease := None))))];
        OthersKeepHolder(Current(), meanwhile, worker);
        RunReport(before, ReadSuccess(worker, now), meanwhile, worker);
        Meanwhile(meanwhile);
        Commit(worker);
      } else {
        holders := holders - {worker};
      }
    }

    /** `fail`. */
    method ReportFailure(worker: nat, now: int, retryable: bool, delay: nat, meanwhile: seq<Action>)
      requires Holds(Current(), worker) && holders[worker].pending.None? && Others(meanwhile, worker)
      modifies this
      ensures Current() == Run(old(Current()),
        if old(jobs[holders[worker].job]).status.Running? then
          [ReadFailure(worker, now, retryable, delay)] + meanwhile + [Write(worker)]
        else [ReadFailure(worker, now, retryable, delay)])
    {
      var h := holders[worker];
      var job := jobs[h.job];
      ghost var before := Current();
      clock := Later(clock, now);
      RunStep(before, [], ReadFailure(worker, now, retryable, delay));
      assert [] + [ReadFailure(worker, now, retryable, delay)] == [ReadFailure(worker, now, retryable, delay)];
      if job.status != Running {
        holders := holders - {worker};
        return;
      }
      var next := job;
      if retryable && job.attempts < job.maxAttempts {
        next := next.(status := Queued, availableAt := now + delay);
      } else {
        next := next.(status := Failed, completedAt := Some(now));
      }
      next := next.(lease := None);
      holders := holders[worker := h.(pending := Some(Pending(job, next)))];
      OthersKeepHolder(Current(), meanwhile, worker);
      RunReport(before, ReadFailure(worker, now, retryable, delay), meanwhile, worker);
      Meanwhile(meanwhile);
      Commit(worker);
    }
  }

  lemma {:induction false} StepKeepsLease(s: State, a: Action)
    ensures Step(s, a).leaseSeconds == s.leaseSeconds
  {
  }

  lemma {:induction false} RunReport(s: State, read: Action, meanwhile: seq<Action>, worker: nat)
    ensures Run(s, [read] + meanwhile + [Write(worker)]) == Step(Run(Step(s, read), meanwhile), Write(worker))
  {
    RunStep(s, [read] + meanwhile, Write(worker));
    RunAppend(s, [read], meanwhile);
    RunStep(s, [], read);
    assert [] + [read] == [read];
  }
}
