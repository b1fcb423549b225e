/**
 * What the queue keeps and what it does not. Three promises fail because a report
 * writes over whatever is stored by the time it commits: a finished job stays
 * finished, a lease excludes other workers, and attempts stay within `max_attempts`.
 * For each the steps that break it are named exactly, one step and whole runs.
 */
module JobQueueLaws {
  import opened JobQueue
  import opened Outcomes

  // ----- From one step to every run

  ghost predicate Throughout(s: State, actions: seq<Action>, p: State -> bool) {
    forall i :: 0 <= i <= |actions| ==> p(Run(s, actions[..i]))
  }

  ghost predicate Never(s: State, actions: seq<Action>, b: (State, Action) -> bool) {
    forall i :: 0 <= i < |actions| ==> !b(Run(s, actions[..i]), actions[i])
  }

  ghost predicate Decides(p: State -> bool, b: (State, Action) -> bool) {
    forall s, a {:trigger b(s, a)} :: Inv(s) && p(s) ==> (p(Step(s, a)) <==> !b(s, a))
  }

  lemma {:induction false} PrefixSplit(s: State, actions: seq<Action>, p: State -> bool, b: (State, Action) -> bool)
    requires actions != []
    ensures var n := |actions| - 1;
      && (Throughout(s, actions, p) <==> Throughout(s, actions[..n], p) && p(Run(s, actions)))
      && (Never(s, actions, b) <==> Never(s, actions[..n], b) && !b(Run(s, actions[..n]), actions[n]))
      && (Throughout(s, actions[..n], p) ==> p(Run(s, actions[..n])))
  {
    hide Run;
    var n := |actions| - 1;
    assert actions[..|actions|] == actions && actions[..n][..n] == actions[..n];
    assert forall i :: 0 <= i <= n ==> actions[..n][..i] == actions[..i];
  }

  /** A property that one step loses exactly by being `b` is kept throughout a run exactly if no step is. */
  lemma {:induction false} KeptThroughout(s: State, actions: seq<Action>, p: State -> bool, b: (State, Action) -> bool)
    requires Inv(s) && p(s) && Decides(p, b)
    ensures Throughout(s, actions, p) <==> Never(s, actions, b)
  {
    hide Inv, Step;
    if actions != [] {
      hide Throughout, Never;
      var n := |actions| - 1;
      KeptThroughout(s, actions[..n], p, b);
      PrefixSplit(s, actions, p, b);
      RunKeepsInv(s, actions[..n]);
    }
  }

  // ----- Finished jobs

  /** The write of `a` lands on job `id`. */
  predicate Lands(s: State, a: Action, id: nat) { a.Write? && Enabled(s, a) && s.holders[a.worker].job == id }

  predicate Retries(s: State, a: Action) { a.Write? && Enabled(s, a) && s.holders[a.worker].pending.value.next.status.Queued? }

  /** The row a write lands on is the row its report read. */
  predicate Fresh(s: State, a: Action) {
    a.Write? && Enabled(s, a) ==> s.jobs[s.holders[a.worker].job] == s.holders[a.worker].pending.value.read
  }

  /** A retry is written over a job that has finished. */
  predicate Revives(s: State, a: Action, id: nat) { Lands(s, a, id) && Retries(s, a) && id in s.jobs && Done(s.jobs[id]) }

  /** Another end, or another time of it, is written over a job that has finished. */
  predicate Rewrites(s: State, a: Action, id: nat) {
    && Lands(s, a, id) && id in s.jobs && Done(s.jobs[id])
    && var p := s.holders[a.worker].pending.value;
       p.next.status != s.jobs[id].status || (p.next.completedAt != p.read.completedAt && p.next.completedAt != s.jobs[id].completedAt)
  }

  predicate IsDone(s: State, id: nat) { id in s.jobs && Done(s.jobs[id]) }

  lemma {:induction false} DoneStep(s: State, a: Action, id: nat)
    requires Inv(s) && IsDone(s, id)
    ensures IsDone(Step(s, a), id) <==> !Revives(s, a, id)
    ensures Step(s, a).jobs[id] == s.jobs[id] <==> !Rewrites(s, a, id)
  {
    assert JobInv(s.jobs[id]);
    if Lands(s, a, id) {
      assert HolderInv(s, s.holders[a.worker]);
    }
  }

  /** A finished job stays finished in a run exactly if no retry is written over it. */
  lemma {:induction false} DoneIsForeverIff(s: State, actions: seq<Action>, id: nat)
    requires Inv(s) && IsDone(s, id)
    ensures (forall i :: 0 <= i <= |actions| ==> IsDone(Run(s, actions[..i]), id))
      <==> forall i :: 0 <= i < |actions| ==> !Revives(Run(s, actions[..i]), actions[i], id)
  {
    hide Inv, Step, IsDone, Revives;
    var p: State -> bool := t => IsDone(t, id);
    var b: (State, Action) -> bool := (t, a) => Revives(t, a, id);
    forall t, a | Inv(t) && p(t) ensures p(Step(t, a)) <==> !b(t, a) {
      DoneStep(t, a, id);
    }
    KeptThroughout(s, actions, p, b);
    assert Throughout(s, actions, p) <==> forall i :: 0 <= i <= |actions| ==> IsDone(Run(s, actions[..i]), id);
    assert Never(s, actions, b) <==> forall i :: 0 <= i < |actions| ==> !Revives(Run(s, actions[..i]), actions[i], id);
  }

  /** A finished job's row stays as it is in a run exactly if no other end is written over it. */
  lemma {:induction false} DoneIsFinalIff(s: State, actions: seq<Action>, id: nat)
    requires Inv(s) && IsDone(s, id)
    ensures (forall i :: 0 <= i <= |actions| ==> id in Run(s, actions[..i]).jobs && Run(s, actions[..i]).jobs[id] == s.jobs[id])
      <==> forall i :: 0 <= i < |actions| ==> !Rewrites(Run(s, actions[..i]), actions[i], id)
  {
    hide Inv, Step, Rewrites, Revives;
    var p: State -> bool := (t: State) => id in t.jobs && t.jobs[id] == s.jobs[id];
    var b: (State, Action) -> bool := (t, a) => Rewrites(t, a, id);
    forall t, a | Inv(t) && p(t) ensures p(Step(t, a)) <==> !b(t, a) {
      DoneStep(t, a, id);
      StepKeepsJobs(t, a, id);
    }
    KeptThroughout(s, actions, p, b);
    assert Throughout(s, actions, p) <==>
      forall i :: 0 <= i <= |actions| ==> id in Run(s, actions[..i]).jobs && Run(s, actions[..i]).jobs[id] == s.jobs[id];
    assert Never(s, actions, b) <==> forall i :: 0 <= i < |actions| ==> !Rewrites(Run(s, actions[..i]), actions[i], id);
  }

  /** A completion time is there exactly when the job has finished. */
  ghost predicate Coherent(s: State) {
    forall id :: id in s.jobs ==> (s.jobs[id].completedAt.Some? <==> Done(s.jobs[id]))
  }

  predicate RevivesAny(s: State, a: Action) {
    Retries(s, a) && Done(s.jobs[s.holders[a.worker].job])
  }

  lemma {:induction false} CoherentWrite(s: State, a: Action, id: nat)
    requires Inv(s) && Lands(s, a, id) && (s.jobs[id].completedAt.Some? <==> Done(s.jobs[id]))
    ensures (Step(s, a).jobs[id].completedAt.Some? <==> Done(Step(s, a).jobs[id])) <==> !Revives(s, a, id)
  {
    assert HolderInv(s, s.holders[a.worker]);
  }

  lemma {:induction false} CoherentJob(s: State, a: Action, id: nat)
    requires Inv(s) && id in Step(s, a).jobs && (id in s.jobs ==> (s.jobs[id].completedAt.Some? <==> Done(s.jobs[id])))
    ensures (Step(s, a).jobs[id].completedAt.Some? <==> Done(Step(s, a).jobs[id])) <==> !Revives(s, a, id)
  {
    hide Inv;
    if Lands(s, a, id) {
      hide Step;
      CoherentWrite(s, a, id);
    }
  }

  lemma {:induction false} CoherentStep(s: State, a: Action)
    requires Inv(s) && Coherent(s)
    ensures Coherent(Step(s, a)) <==> !RevivesAny(s, a)
  {
    hide Inv, Picks, ExpireAll;
    forall id | id in Step(s, a).jobs
      ensures (Step(s, a).jobs[id].completedAt.Some? <==> Done(Step(s, a).jobs[id])) <==> !Revives(s, a, id)
    {
      CoherentJob(s, a, id);
    }
    if RevivesAny(s, a) {
      var id := s.holders[a.worker].job;
      assert Revives(s, a, id);
      StepKeepsJobs(s, a, id);
    }
  }

  /** Completion times tell the finished jobs throughout a run exactly if no retry is written over a finished job. */
  lemma {:induction false} CompletionTimesIff(leaseSeconds: int, clock: int, actions: seq<Action>)
    ensures (forall i :: 0 <= i <= |actions| ==> Coherent(Run(Init(leaseSeconds, clock), actions[..i])))
      <==> forall i :: 0 <= i < |actions| ==> !RevivesAny(Run(Init(leaseSeconds, clock), actions[..i]), actions[i])
  {
    hide Inv, Step, RevivesAny;
    var s := Init(leaseSeconds, clock);
    StartIsSound(leaseSeconds, clock);
    var p: State -> bool := t => Coherent(t);
    var b: (State, Action) -> bool := (t, a) => RevivesAny(t, a);
    forall t, a | Inv(t) && p(t) ensures p(Step(t, a)) <==> !b(t, a) {
      CoherentStep(t, a);
    }
    KeptThroughout(s, actions, p, b);
    assert Throughout(s, actions, p) <==> forall i :: 0 <= i <= |actions| ==> Coherent(Run(s, actions[..i]));
    assert Never(s, actions, b) <==> forall i :: 0 <= i < |actions| ==> !RevivesAny(Run(s, actions[..i]), actions[i]);
  }

  // ----- Mutual exclusion

  /** A holder whose lease has not expired by the latest time read. */
  predicate Live(s: State, worker: nat) { worker in s.holders && s.clock <= s.holders[worker].until }

  ghost predicate HasRow(s: State, worker: nat) {
    worker in s.holders && var h := s.holders[worker];
      h.job in s.jobs && s.jobs[h.job].status.Running? && s.jobs[h.job].lease == Some(h.until)
  }

  /** No two live holders of one job, and the job of a live holder is running under its lease. */
  ghost predicate Exclusive(s: State) {
    && (forall w :: Live(s, w) ==> HasRow(s, w))
    && (forall v, w :: Live(s, v) && Live(s, w) && v != w ==> Apart(s, v, w))
  }

  predicate Apart(s: State, v: nat, w: nat) {
    v in s.holders && w in s.holders ==> s.holders[v].job != s.holders[w].job
  }

  /** The write of `a` lands on a job that another live holder has. */
  ghost predicate Intrudes(s: State, a: Action) {
    a.Write? && Enabled(s, a) && exists v :: v != a.worker && Live(s, v) && s.holders[v].job == s.holders[a.worker].job
  }

  /** What a worker can check on the row: it is not running, or under the worker's own lease, or under a lapsed one. */
  predicate RowIsFree(s: State, worker: nat)
    requires Holds(s, worker)
  {
    var row := s.jobs[s.holders[worker].job];
    !row.status.Running? || row.lease == Some(s.holders[worker].until) || Lapsed(row, s.clock)
  }

  predicate GetsJob(s: State, a: Action, worker: nat) { a.Claim? && Enabled(s, a) && a.chosen.Some? && a.worker == worker }

  /** A live holder after a step either had its lease before or has just claimed. */
  lemma {:induction false} LiveBefore(s: State, a: Action, w: nat)
    requires Live(Step(s, a), w) && !GetsJob(s, a, w)
    ensures Live(s, w) && Step(s, a).holders[w].job == s.holders[w].job && Step(s, a).holders[w].until == s.holders[w].until
  {
    hide Picks, ExpireAll;
  }

  lemma {:induction false} RowKept(s: State, a: Action, w: nat)
    requires HasRow(s, w) && Live(Step(s, a), w) && !GetsJob(s, a, w)
    requires a.Write? && Enabled(s, a) && w != a.worker ==> s.holders[a.worker].job != s.holders[w].job
    ensures HasRow(Step(s, a), w)
    ensures a.Claim? && Enabled(s, a) ==> a.chosen != Some(s.holders[w].job)
  {
    LiveBefore(s, a, w);
    if a.Claim? && Enabled(s, a) {
      var id := s.holders[w].job;
      assert ExpireAll(s.jobs, a.now)[id] == s.jobs[id];
    }
  }

  lemma {:induction false} IntrusionBreaks(s: State, a: Action)
    requires Inv(s) && Intrudes(s, a)
    ensures !Exclusive(Step(s, a))
  {
    var v :| v != a.worker && Live(s, v) && s.holders[v].job == s.holders[a.worker].job;
    assert HolderInv(s, s.holders[a.worker]);
    assert Live(Step(s, a), v) && !HasRow(Step(s, a), v);
  }

  lemma {:induction false} ClaimGetsRow(s: State, a: Action, w: nat)
    requires GetsJob(s, a, w)
    ensures HasRow(Step(s, a), w) && Step(s, a).holders[w].job == a.chosen.value
  {
  }

  lemma {:induction false} StillApart(s: State, a: Action, v: nat, w: nat)
    requires Exclusive(s) && !Intrudes(s, a) && Live(Step(s, a), v) && Live(Step(s, a), w) && v != w
    ensures Apart(Step(s, a), v, w)
  {
    hide Step, Enabled, HasRow, ExpireAll, Picks;
    if GetsJob(s, a, v) {
      LiveBefore(s, a, w);
      RowKept(s, a, w);
      ClaimGetsRow(s, a, v);
    } else if GetsJob(s, a, w) {
      LiveBefore(s, a, v);
      RowKept(s, a, v);
      ClaimGetsRow(s, a, w);
    } else {
      LiveBefore(s, a, v);
      LiveBefore(s, a, w);
    }
  }

  lemma {:induction false} ExclusiveStep(s: State, a: Action)
    requires Inv(s) && Exclusive(s)
    ensures Exclusive(Step(s, a)) <==> !Intrudes(s, a)
  {
    hide Inv, Step, Enabled, HasRow, GetsJob, Live;
    var s' := Step(s, a);
    if Intrudes(s, a) {
      IntrusionBreaks(s, a);
    } else {
      forall w | Live(s', w) ensures HasRow(s', w) {
        if GetsJob(s, a, w) {
          ClaimGetsRow(s, a, w);
        } else {
          LiveBefore(s, a, w);
          RowKept(s, a, w);
        }
      }
      forall v, w | Live(s', v) && Live(s', w) && v != w ensures Apart(s', v, w) {
        StillApart(s, a, v, w);
      }
    }
  }

  /** Whether a write intrudes can be read off the row it lands on. */
  lemma {:induction false} IntrudesIff(s: State, a: Action)
    requires Inv(s) && Exclusive(s) && a.Write? && Enabled(s, a)
    ensures Intrudes(s, a) <==> !RowIsFree(s, a.worker)
  {
    var id := s.holders[a.worker].job;
    if Intrudes(s, a) {
      var v :| v != a.worker && Live(s, v) && s.holders[v].job == id;
      assert HasRow(s, v);
      assert Live(s, a.worker) ==> Apart(s, v, a.worker);
    }
    if !RowIsFree(s, a.worker) {
      assert JobInv(s.jobs[id]);
      var v :| Claimant(s, id, v);
      assert Live(s, v);
    }
  }

  predicate Oversteps(s: State, a: Action) { a.Write? && Enabled(s, a) && !RowIsFree(s, a.worker) }

  /** Exclusion holds throughout a run exactly if every report is written to a row that is free to it. */
  lemma {:induction false} ExclusionIff(leaseSeconds: int, clock: int, actions: seq<Action>)
    ensures (forall i :: 0 <= i <= |actions| ==> Exclusive(Run(Init(leaseSeconds, clock), actions[..i])))
      <==> forall i :: 0 <= i < |actions| ==> !Oversteps(Run(Init(leaseSeconds, clock), actions[..i]), actions[i])
  {
    hide Inv, Step, Exclusive, Oversteps;
    var s := Init(leaseSeconds, clock);
    StartIsSound(leaseSeconds, clock);
    StartIsExclusive(leaseSeconds, clock);
    var p: State -> bool := t => Exclusive(t);
    var b: (State, Action) -> bool := (t, a) => Oversteps(t, a);
    forall t, a | Inv(t) && p(t) ensures p(Step(t, a)) <==> !b(t, a) {
      OverstepsIff(t, a);
    }
    KeptThroughout(s, actions, p, b);
    assert Throughout(s, actions, p) <==> forall i :: 0 <= i <= |actions| ==> Exclusive(Run(s, actions[..i]));
    assert Never(s, actions, b) <==> forall i :: 0 <= i < |actions| ==> !Oversteps(Run(s, actions[..i]), actions[i]);
  }

  lemma {:induction false} OverstepsIff(s: State, a: Action)
    requires Inv(s) && Exclusive(s)
    ensures Exclusive(Step(s, a)) <==> !Oversteps(s, a)
  {
    hide Inv, Exclusive, Step, RowIsFree;
    ExclusiveStep(s, a);
    if a.Write? && Enabled(s, a) {
      IntrudesIff(s, a);
    }
  }

  lemma {:induction false} StartIsExclusive(leaseSeconds: int, clock: int)
    ensures Exclusive(Init(leaseSeconds, clock))
  {
  }

  /** If every report is written before the lease it was claimed under has expired, no job ever has two live holders. */
  lemma {:induction false} AtMostOneLiveHolder(leaseSeconds: int, clock: int, actions: seq<Action>, v: nat, w: nat)
    requires forall i :: 0 <= i < |actions| && actions[i].Write? ==>
      var s := Run(Init(leaseSeconds, clock), actions[..i]); Enabled(s, actions[i]) ==> Live(s, actions[i].worker)
    ensures var s := Run(Init(leaseSeconds, clock), actions);
      Live(s, v) && Live(s, w) && v != w ==> s.holders[v].job != s.holders[w].job
  {
    hide Step, Inv;
    TimelyKeepsExclusive(leaseSeconds, clock, actions);
  }

  lemma {:induction false} TimelyKeepsExclusive(leaseSeconds: int, clock: int, actions: seq<Action>)
    requires forall i :: 0 <= i < |actions| && actions[i].Write? ==>
      var s := Run(Init(leaseSeconds, clock), actions[..i]); Enabled(s, actions[i]) ==> Live(s, actions[i].worker)
    ensures Exclusive(Run(Init(leaseSeconds, clock), actions))
  {
    hide Step, Inv;
    var start := Init(leaseSeconds, clock);
    if actions == [] {
      StartIsExclusive(leaseSeconds, clock);
    } else {
      var n := |actions| - 1;
      forall i | 0 <= i < n && actions[..n][i].Write?
        ensures var s := Run(start, actions[..n][..i]); Enabled(s, actions[..n][i]) ==> Live(s, actions[..n][i].worker)
      {
        assert actions[..n][..i] == actions[..i];
      }
      TimelyKeepsExclusive(leaseSeconds, clock, actions[..n]);
      StartIsSound(leaseSeconds, clock);
      RunKeepsInv(start, actions[..n]);
      ExclusiveStep(Run(start, actions[..n]), actions[n]);
    }
  }

  // ----- Attempts

  /** Step `i` puts a job back into the queue that has used up its attempts: by expiry, or by a retry written over a later claim. */
  predicate Expires(s: State, a: Action, id: nat) {
    a.Claim? && Enabled(s, a) && id in s.jobs && Lapsed(s.jobs[id], a.now) && s.jobs[id].attempts >= Allowance(s.jobs[id])
  }

  predicate RetriesLate(s: State, a: Action, id: nat) {
    Lands(s, a, id) && Retries(s, a) && s.jobs[id].attempts >= Allowance(s.jobs[id])
  }

  predicate Claims(s: State, a: Action, id: nat) { a.Claim? && Enabled(s, a) && a.chosen == Some(id) }

  predicate RequeuedAt(s: State, actions: seq<Action>, i: nat, id: nat)
    requires i < |actions|
  {
    Expires(Run(s, actions[..i]), actions[i], id) || RetriesLate(Run(s, actions[..i]), actions[i], id)
  }

  predicate ExpiredAt(s: State, actions: seq<Action>, i: nat, id: nat)
    requires i < |actions|
  {
    Expires(Run(s, actions[..i]), actions[i], id)
  }

  predicate ClaimedAt(s: State, actions: seq<Action>, i: nat, id: nat)
    requires i < |actions|
  {
    Claims(Run(s, actions[..i]), actions[i], id)
  }

  ghost predicate Requeued(s: State, actions: seq<Action>, id: nat) {
    exists i :: 0 <= i < |actions| && RequeuedAt(s, actions, i, id)
  }

  ghost predicate RequeuedAndClaimed(s: State, actions: seq<Action>, id: nat) {
    exists i, j :: 0 <= i <= j < |actions| && RequeuedAt(s, actions, i, id) && ClaimedAt(s, actions, j, id)
  }

  lemma {:induction false} StepIntoQueue(s: State, a: Action, id: nat)
    requires id in Step(s, a).jobs && Step(s, a).jobs[id].status.Queued?
    requires Step(s, a).jobs[id].attempts >= Allowance(Step(s, a).jobs[id])
    ensures Expires(s, a, id) || RetriesLate(s, a, id) || (id in s.jobs && s.jobs[id].status.Queued?
      && s.jobs[id].attempts == Step(s, a).jobs[id].attempts && s.jobs[id].maxAttempts == Step(s, a).jobs[id].maxAttempts)
  {
  }

  lemma {:induction false} StepOverAllowance(s: State, a: Action, id: nat)
    requires id in Step(s, a).jobs && Step(s, a).jobs[id].attempts > Allowance(Step(s, a).jobs[id])
    ensures id in s.jobs && s.jobs[id].maxAttempts == Step(s, a).jobs[id].maxAttempts
    ensures s.jobs[id].attempts > Allowance(s.jobs[id]) || (Claims(s, a, id) && s.jobs[id].attempts == Allowance(s.jobs[id])
      && (Expires(s, a, id) || s.jobs[id].status.Queued?))
  {
  }

  lemma {:induction false} StepClaims(s: State, a: Action, id: nat)
    requires Claims(s, a, id)
    ensures id in s.jobs && Step(s, a).jobs[id].attempts == s.jobs[id].attempts + 1
  {
  }

  lemma {:induction false} PrefixAt(s: State, actions: seq<Action>, a: Action, i: nat, id: nat)
    requires i < |actions|
    ensures RequeuedAt(s, actions + [a], i, id) == RequeuedAt(s, actions, i, id)
    ensures ClaimedAt(s, actions + [a], i, id) == ClaimedAt(s, actions, i, id)
  {
    assert (actions + [a])[..i] == actions[..i];
  }

  lemma {:induction false} QueuedAfterRequeue(s: State, actions: seq<Action>, id: nat)
    requires s.jobs == map[] && id in Run(s, actions).jobs
    requires var job := Run(s, actions).jobs[id]; job.status.Queued? && job.attempts >= Allowance(job)
    ensures Requeued(s, actions, id)
  {
    hide Step, Expires, RetriesLate, Claims;
    if actions != [] {
      var n := |actions| - 1;
      var before, a := Run(s, actions[..n]), actions[n];
      StepIntoQueue(before, a, id);
      if RequeuedAt(s, actions, n, id) {
      } else {
        QueuedAfterRequeue(s, actions[..n], id);
        var i :| 0 <= i < n && RequeuedAt(s, actions[..n], i, id);
        assert actions == actions[..n] + [a];
        PrefixAt(s, actions[..n], a, i, id);
      }
    }
  }

  lemma {:induction false} OverAllowanceOnlyThen(s: State, actions: seq<Action>, id: nat)
    requires s.jobs == map[] && id in Run(s, actions).jobs
    requires Run(s, actions).jobs[id].attempts > Allowance(Run(s, actions).jobs[id])
    ensures RequeuedAndClaimed(s, actions, id)
  {
    hide Step, Expires, RetriesLate, Claims;
    if actions != [] {
      var n := |actions| - 1;
      var before, a := Run(s, actions[..n]), actions[n];
      StepOverAllowance(before, a, id);
      assert actions == actions[..n] + [a];
      if before.jobs[id].attempts > Allowance(before.jobs[id]) {
        OverAllowanceOnlyThen(s, actions[..n], id);
        var i, j :| 0 <= i <= j < n && RequeuedAt(s, actions[..n], i, id) && ClaimedAt(s, actions[..n], j, id);
        PrefixAt(s, actions[..n], a, i, id);
        PrefixAt(s, actions[..n], a, j, id);
      } else {
        assert ClaimedAt(s, actions, n, id);
        if Expires(before, a, id) {
          assert RequeuedAt(s, actions, n, id);
        } else {
          QueuedAfterRequeue(s, actions[..n], id);
          var i :| 0 <= i < n && RequeuedAt(s, actions[..n], i, id);
          PrefixAt(s, actions[..n], a, i, id);
        }
      }
    }
  }

  lemma {:induction false} OverAllowanceThen(s: State, actions: seq<Action>, id: nat)
    requires RequeuedAndClaimed(s, actions, id)
    ensures id in Run(s, actions).jobs && Run(s, actions).jobs[id].attempts > Allowance(Run(s, actions).jobs[id])
  {
    hide Step, Picks, Run;
    var i, j :| 0 <= i <= j < |actions| && RequeuedAt(s, actions, i, id) && ClaimedAt(s, actions, j, id);
    assert actions[..i] + actions[i..j] == actions[..j];
    RunAppend(s, actions[..i], actions[i..j]);
    RunKeepsJobs(Run(s, actions[..i]), actions[i..j], id);
    StepClaims(Run(s, actions[..j]), actions[j], id);
    assert actions[..j + 1] == actions[..j] + [actions[j]];
    RunStep(s, actions[..j], actions[j]);
    StepKeepsJobs(Run(s, actions[..j]), actions[j], id);
    assert actions[..j + 1] + actions[j + 1..] == actions;
    RunAppend(s, actions[..j + 1], actions[j + 1..]);
    RunKeepsJobs(Run(s, actions[..j + 1]), actions[j + 1..], id);
  }

  /**
   * A job has been attempted more often than allowed exactly if it was put back into
   * the queue with its attempts used up and claimed at or after that step.
   */
  lemma {:induction false} OverAllowanceIff(leaseSeconds: int, clock: int, actions: seq<Action>, id: nat)
    requires id in Run(Init(leaseSeconds, clock), actions).jobs
    ensures var job := Run(Init(leaseSeconds, clock), actions).jobs[id];
      job.attempts > Allowance(job) <==> RequeuedAndClaimed(Init(leaseSeconds, clock), actions, id)
  {
    var s := Init(leaseSeconds, clock);
    if Run(s, actions).jobs[id].attempts > Allowance(Run(s, actions).jobs[id]) {
      OverAllowanceOnlyThen(s, actions, id);
    }
    if RequeuedAndClaimed(s, actions, id) {
      OverAllowanceThen(s, actions, id);
    }
  }

  // ----- Reports whose row is still the one read

  ghost predicate AllFresh(s: State, actions: seq<Action>) {
    forall i :: 0 <= i < |actions| ==> Fresh(Run(s, actions[..i]), actions[i])
  }

  lemma {:induction false} FreshStep(s: State, a: Action, id: nat)
    requires Inv(s) && Fresh(s, a)
    ensures !Revives(s, a, id) && !Rewrites(s, a, id) && !RevivesAny(s, a) && !RetriesLate(s, a, id)
  {
    if a.Write? && Enabled(s, a) {
      assert HolderInv(s, s.holders[a.worker]);
    }
  }

  /** If no row changes between a report's read and its write, a finished job never changes again. */
  lemma {:induction false} FreshKeepsDone(s: State, actions: seq<Action>, id: nat, k: nat)
    requires Inv(s) && AllFresh(s, actions) && k <= |actions| && IsDone(Run(s, actions[..k]), id)
    ensures id in Run(s, actions).jobs && Run(s, actions).jobs[id] == Run(s, actions[..k]).jobs[id]
  {
    hide Step, Inv, IsDone, Revives, Rewrites, Fresh, Run;
    var mid, rest := Run(s, actions[..k]), actions[k..];
    forall i | 0 <= i <= |rest| ensures Run(mid, rest[..i]) == Run(s, actions[..k + i]) {
      assert actions[..k] + rest[..i] == actions[..k + i];
      RunAppend(s, actions[..k], rest[..i]);
    }
    forall i | 0 <= i < |rest| ensures !Rewrites(Run(mid, rest[..i]), rest[i], id) {
      RunKeepsInv(s, actions[..k + i]);
      FreshStep(Run(s, actions[..k + i]), actions[k + i], id);
    }
    RunKeepsInv(s, actions[..k]);
    DoneIsFinalIff(mid, rest, id);
    assert rest[..|rest|] == rest && actions[..k + |rest|] == actions;
  }

  /** If no row changes between a report's read and its write, only an expired lease takes a job past its allowance. */
  lemma {:induction false} FreshOverAllowanceIff(leaseSeconds: int, clock: int, actions: seq<Action>, id: nat)
    requires AllFresh(Init(leaseSeconds, clock), actions) && id in Run(Init(leaseSeconds, clock), actions).jobs
    ensures var s := Init(leaseSeconds, clock); var job := Run(s, actions).jobs[id];
      job.attempts > Allowance(job) <==>
        exists i, j :: 0 <= i <= j < |actions| && ExpiredAt(s, actions, i, id) && ClaimedAt(s, actions, j, id)
  {
    hide Step, Inv, Expires, Claims, RetriesLate, Revives, Rewrites, Fresh;
    var s := Init(leaseSeconds, clock);
    forall i | 0 <= i < |actions| ensures RequeuedAt(s, actions, i, id) == ExpiredAt(s, actions, i, id) {
      StartIsSound(leaseSeconds, clock);
      RunKeepsInv(s, actions[..i]);
      FreshStep(Run(s, actions[..i]), actions[i], id);
    }
    OverAllowanceIff(leaseSeconds, clock, actions, id);
  }

  // ----- How long a lease and a delay last

  /** Neither a write nor a claim of job `id` is among the actions. */
  ghost predicate LeavesAlone(s: State, actions: seq<Action>, id: nat) {
    forall i :: 0 <= i < |actions| ==>
      !Lands(Run(s, actions[..i]), actions[i], id) && !Claims(Run(s, actions[..i]), actions[i], id)
  }

  /** Queued, and not before `t`. */
  predicate QueuedFrom(s: State, id: nat, t: int) { id in s.jobs && s.jobs[id].status.Queued? && s.jobs[id].availableAt == t }

  /** Leased until `t`, or back in the queue since the lease lapsed. */
  predicate LeasedTo(s: State, id: nat, t: int) {
    && id in s.jobs
    && ((s.jobs[id].status.Running? && s.jobs[id].lease == Some(t)) || (s.jobs[id].status.Queued? && s.jobs[id].availableAt > t))
  }

  lemma {:induction false} AloneStep(s: State, a: Action, id: nat, t: int)
    requires !Lands(s, a, id) && !Claims(s, a, id)
    ensures QueuedFrom(s, id, t) ==> QueuedFrom(Step(s, a), id, t)
    ensures LeasedTo(s, id, t) ==> LeasedTo(Step(s, a), id, t)
  {
  }

  lemma {:induction false} AloneRun(s: State, actions: seq<Action>, id: nat, t: int)
    requires LeavesAlone(s, actions, id)
    ensures QueuedFrom(s, id, t) ==> QueuedFrom(Run(s, actions), id, t)
    ensures LeasedTo(s, id, t) ==> LeasedTo(Run(s, actions), id, t)
  {
    hide Step, Lands, Claims, QueuedFrom, LeasedTo;
    if actions != [] {
      var n := |actions| - 1;
      forall i | 0 <= i < n
        ensures !Lands(Run(s, actions[..n][..i]), actions[..n][i], id) && !Claims(Run(s, actions[..n][..i]), actions[..n][i], id)
      {
        assert actions[..n][..i] == actions[..i];
      }
      AloneRun(s, actions[..n], id, t);
      AloneStep(Run(s, actions[..n]), actions[n], id, t);
    }
  }

  lemma {:induction false} ClaimedWhen(s: State, a: Action, id: nat, t: int)
    requires Claims(s, a, id)
    ensures QueuedFrom(s, id, t) ==> a.now >= t
    ensures LeasedTo(s, id, t) ==> a.now > t
  {
  }

  /**
   * A retry decided at `now` and written, whatever other workers did in between, puts
   * the job into the queue for `now + delay`, except where the row read already showed
   * that time and another is stored by then, so that the column is not written.
   */
  lemma {:induction false} RetryIsDelayed(s: State, worker: nat, now: int, delay: nat, meanwhile: seq<Action>)
    requires Inv(s) && Holds(s, worker) && s.holders[worker].pending.None? && Others(meanwhile, worker)
    requires var job := s.jobs[s.holders[worker].job]; job.status.Running? && job.attempts < job.maxAttempts
    ensures var id := s.holders[worker].job; var read := ReadFailure(worker, now, true, delay);
      var before, after := Run(s, [read] + meanwhile), Run(s, [read] + meanwhile + [Write(worker)]);
      && id in before.jobs && id in after.jobs
      && after.jobs[id].status.Queued? && after.jobs[id].lease.None? && after.jobs[id].attempts == before.jobs[id].attempts
      && (QueuedFrom(after, id, now + delay) <==> s.jobs[id].availableAt != now + delay || before.jobs[id].availableAt == now + delay)
  {
    hide Picks, Inv;
    var id, read := s.holders[worker].job, ReadFailure(worker, now, true, delay);
    var started := Step(s, read);
    RunStep(s, [], read);
    assert [] + [read] == [read];
    RunAppend(s, [read], meanwhile);
    RunStep(s, [read] + meanwhile, Write(worker));
    OthersKeepHolder(started, meanwhile, worker);
    assert JobInv(s.jobs[id]) by { JobsSound(s, id); }
  }

  lemma {:induction false} JobsSound(s: State, id: nat)
    requires Inv(s) && id in s.jobs
    ensures JobInv(s.jobs[id])
  {
  }

  /**
   * Backoff: a job queued for `t` is eligible at exactly the readings from `t` on, and
   * as long as nothing is written to it nobody claims it at an earlier one.
   */
  lemma {:induction false} BackoffIsKept(s: State, actions: seq<Action>, claim: Action, id: nat, t: int)
    requires QueuedFrom(s, id, t) && LeavesAlone(s, actions, id)
    ensures QueuedFrom(Run(s, actions), id, t)
    ensures forall now :: Eligible(Expire(Run(s, actions).jobs[id], now), now) <==> now >= t
    ensures Claims(Run(s, actions), claim, id) ==> claim.now >= t
  {
    hide Run, LeavesAlone, Claims;
    AloneRun(s, actions, id, t);
    if Claims(Run(s, actions), claim, id) {
      ClaimedWhen(Run(s, actions), claim, id, t);
    }
  }

  /** A claim grants its lease: as long as nothing is written to the job nobody else claims it up to the end of it. */
  lemma {:induction false} LeaseIsKept(s: State, first: Action, actions: seq<Action>, second: Action, id: nat)
    requires Claims(s, first, id) && LeavesAlone(Step(s, first), actions, id)
    ensures var s' := Step(s, first);
      && s'.jobs[id].status.Running? && s'.jobs[id].lease == Some(first.now + s.leaseSeconds)
      && s'.jobs[id].attempts == s.jobs[id].attempts + 1
      && s'.holders[first.worker] == Holder(id, first.now + s.leaseSeconds, s'.jobs[id].attempts, None)
    ensures Claims(Run(Step(s, first), actions), second, id) ==> second.now > first.now + s.leaseSeconds
  {
    hide Run, LeavesAlone;
    AloneRun(Step(s, first), actions, id, first.now + s.leaseSeconds);
    if Claims(Run(Step(s, first), actions), second, id) {
      ClaimedWhen(Run(Step(s, first), actions), second, id, first.now + s.leaseSeconds);
    }
  }

  /** A report that ends the job, on a row that has not changed: how it ended and when. */
  lemma {:induction false} EndIsRecorded(s: State, worker: nat, now: int, retryable: bool, delay: nat)
    requires Holds(s, worker) && s.holders[worker].pending.None?
    requires var job := s.jobs[s.holders[worker].job];
      job.status.Running? && job.lease.Some? && job.completedAt.None?
    ensures var id := s.holders[worker].job; var job := s.jobs[id];
      var done := Run(s, [ReadSuccess(worker, now)] + [] + [Write(worker)]).jobs;
      && id in done && done[id] == job.(status := Succeeded, lease := None, completedAt := Some(now))
    ensures var id := s.holders[worker].job; var job := s.jobs[id];
      var done := Run(s, [ReadFailure(worker, now, retryable, delay)] + [] + [Write(worker)]).jobs;
      !(retryable && job.attempts < job.maxAttempts) ==>
        id in done && done[id] == job.(status := Failed, lease := None, completedAt := Some(now))
  {
    hide Picks, ExpireAll;
    RunReport(s, ReadSuccess(worker, now), [], worker);
    RunReport(s, ReadFailure(worker, now, retryable, delay), [], worker);
  }

  /** A claim returns every job whose lease has lapsed to the queue, from its own time on, and leaves all others but the one it takes. */
  lemma {:induction false} LapsedIsReturned(s: State, claim: Action, id: nat)
    requires claim.Claim? && Enabled(s, claim) && id in s.jobs && claim.chosen != Some(id)
    ensures var before, after := s.jobs[id], Step(s, claim);
      if before.status.Running? && before.lease.Some? && before.lease.value < claim.now then
        QueuedFrom(after, id, claim.now) && after.jobs[id].lease.None? && after.jobs[id].attempts == before.attempts
      else id in after.jobs && after.jobs[id] == before
  {
    hide Picks;
  }

  /** A claim takes the oldest job that waits and that it can lock; it comes back without one only when there is none. */
  lemma {:induction false} OldestFirst(s: State, claim: Action, id: nat)
    requires claim.Claim? && Enabled(s, claim) && id in s.jobs && id !in claim.locked
    requires s.jobs[id].status.Queued? && s.jobs[id].availableAt <= claim.now
    ensures claim.chosen.Some? && claim.chosen.value in s.jobs
    ensures s.jobs[claim.chosen.value].createdAt <= s.jobs[id].createdAt
    ensures Step(s, claim).jobs[claim.chosen.value].status.Running?
  {
    assert ExpireAll(s.jobs, claim.now)[id] == s.jobs[id];
  }

  /** A new job waits from the start, untried. */
  lemma {:induction false} CreatedWaits(s: State, create: Action)
    requires create.Create? && Enabled(s, create)
    ensures QueuedFrom(Step(s, create), create.id, create.now)
    ensures var job := Step(s, create).jobs[create.id];
      job.attempts == 0 && job.maxAttempts == create.maxAttempts && job.createdAt == create.now && job.lease.None? && job.completedAt.None?
  {
  }

  // ----- Runs that break the three promises

  lemma {:induction false} ClaimOnlyJob(s: State, worker: nat, now: int, job: Job)
    requires s.jobs == map[7 := job] && worker !in s.holders && s.clock <= now && Eligible(Expire(job, now), now)
    ensures var claimed := Claimed(Expire(job, now), now + s.leaseSeconds);
      Step(s, Claim(worker, now, {}, Some(7))) == State(s.leaseSeconds, now, map[7 := claimed],
        s.holders[worker := Holder(7, now + s.leaseSeconds, claimed.attempts, None)])
  {
    var jobs := ExpireAll(s.jobs, now);
    assert jobs == map[7 := Expire(job, now)];
    assert Picks(jobs, now, {}, Some(7));
  }

  /** Job 7, allowed `m` attempts, claimed once by worker 1 under a lease to 10. */
  function Once(m: int): State { State(10, 0, map[7 := Job(Running, 1, m, 0, 0, Some(10), None, 0, {})], map[1 := Holder(7, 10, 1, None)]) }

  lemma {:induction false} ClaimedOnce(m: int)
    ensures Run(Init(10, 0), [Create(7, 0, m), Claim(1, 0, {}, Some(7))]) == Once(m)
  {
    hide Picks, ExpireAll;
    var a0, a1 := Create(7, 0, m), Claim(1, 0, {}, Some(7));
    assert [a0] == [] + [a0] && [a0, a1] == [a0] + [a1];
    RunStep(Init(10, 0), [], a0);
    RunStep(Init(10, 0), [a0], a1);
    ClaimOnlyJob(State(10, 0, map[7 := New(0, m)], map[]), 1, 0, New(0, m));
  }

  /** The same job, claimed again by worker 2 when that lease had run out. */
  function Twice(): State {
    State(10, 11, map[7 := Job(Running, 2, 3, 0, 11, Some(21), None, 1, {})], map[1 := Holder(7, 10, 1, None), 2 := Holder(7, 21, 2, None)])
  }

  lemma {:induction false} BothRead()
    ensures var job := Twice().jobs[7];
      Step(Step(Twice(), ReadFailure(1, 12, true, 0)), ReadSuccess(2, 12)) == State(10, 12, map[7 := job], map[
        1 := Holder(7, 10, 1, Some(Pending(job, AfterFailure(job, 12, true, 0)))),
        2 := Holder(7, 21, 2, Some(Pending(job, AfterSuccess(job, 12))))])
  {
  }

  /** A worker whose lease ran out writes its retry over the next worker's success: the job is queued again, with a completion time. */
  lemma {:induction false} SuccessIsRevived()
    ensures var s := Run(Init(10, 0), [Create(7, 0, 3), Claim(1, 0, {}, Some(7))] + [Claim(2, 11, {}, Some(7)),
      ReadFailure(1, 12, true, 0), ReadSuccess(2, 12), Write(2)]);
      && 7 in s.jobs && s.jobs[7].status == Succeeded && 7 in Step(s, Write(1)).jobs
      && Step(s, Write(1)).jobs[7].status == Queued && Step(s, Write(1)).jobs[7].completedAt == Some(12)
  {
    hide Picks, ExpireAll, Run;
    var a2, a3, a4, a5 := Claim(2, 11, {}, Some(7)), ReadFailure(1, 12, true, 0), ReadSuccess(2, 12), Write(2);
    RunAppend(Init(10, 0), [Create(7, 0, 3), Claim(1, 0, {}, Some(7))], [a2, a3, a4, a5]);
    ClaimedOnce(3);
    RunFour(Once(3), a2, a3, a4, a5);
    ClaimOnlyJob(Once(3), 2, 11, Once(3).jobs[7]);
    assert Step(Once(3), a2) == Twice();
    BothRead();
  }

  lemma {:induction false} RunFour(s: State, a: Action, b: Action, c: Action, d: Action)
    ensures Run(s, [a, b, c, d]) == Step(Step(Step(Step(s, a), b), c), d)
  {
    assert [a] == [] + [a] && [a, b] == [a] + [b] && [a, b, c] == [a, b] + [c] && [a, b, c, d] == [a, b, c] + [d];
    RunStep(s, [], a);
    RunStep(s, [a], b);
    RunStep(s, [a, b], c);
    RunStep(s, [a, b, c], d);
  }

  /**
   * A report that read its row in time and is written after the next claim: workers 2
   * and 3 hold the job under unexpired leases, and a job allowed two attempts has
   * three, though its lease expired after the first only.
   */
  lemma {:induction false} TimelyReadIsNotEnough()
    ensures var s := Run(Init(10, 0), [Create(7, 0, 2), Claim(1, 0, {}, Some(7))] + [ReadFailure(1, 9, true, 0),
      Claim(2, 11, {}, Some(7)), Write(1), Claim(3, 12, {}, Some(7))]);
      && Live(s, 2) && Live(s, 3) && s.holders[2].job == s.holders[3].job == 7
      && 7 in s.jobs && s.jobs[7].attempts == 3 && s.jobs[7].maxAttempts == 2 && s.jobs[7].expiries == 1
  {
    hide Picks, ExpireAll;
    ClaimedOnce(2);
    var a2, a3, a4, a5 := ReadFailure(1, 9, true, 0), Claim(2, 11, {}, Some(7)), Write(1), Claim(3, 12, {}, Some(7));
    var job := Once(2).jobs[7];
    var reading := Holder(7, 10, 1, Some(Pending(job, AfterFailure(job, 9, true, 0))));
    var s2 := State(10, 9, map[7 := job], map[1 := reading]);
    var s3 := State(10, 11, map[7 := Job(Running, 2, 2, 0, 11, Some(21), None, 1, {})], map[1 := reading, 2 := Holder(7, 21, 2, None)]);
    var s4 := State(10, 11, map[7 := Job(Queued, 2, 2, 0, 9, None, None, 1, {1})], map[2 := Holder(7, 21, 2, None)]);
    assert Step(Once(2), a2) == s2;
    ClaimOnlyJob(s2, 2, 11, job);
    assert Step(s2, a3) == s3;
    assert s3.jobs[7].retried + {1} == {1};
    assert Step(s3, a4).jobs == s4.jobs && Step(s3, a4).holders == s4.holders;
    ClaimOnlyJob(s4, 3, 12, s4.jobs[7]);
    RunAppend(Init(10, 0), [Create(7, 0, 2), Claim(1, 0, {}, Some(7))], [a2, a3, a4, a5]);
    RunFour(Once(2), a2, a3, a4, a5);
  }

  /**
   * Expiry does not look at `max_attempts`: a job allowed one attempt can be
   * attempted any number of times by workers that die.
   */
  lemma {:induction false} ExpiryIsUnbounded(n: nat) returns (actions: seq<Action>)
    ensures var s := Run(Init(10, 0), actions);
      && s.leaseSeconds == 10 && s.clock == 20 * n && s.jobs.Keys == {7}
      && s.jobs[7].status.Running? && s.jobs[7].lease == Some(20 * n + 10)
      && s.jobs[7].maxAttempts == 1 && s.jobs[7].attempts == n + 1 && s.jobs[7].expiries == n
      && forall w :: w in s.holders ==> w <= n + 1
  {
    if n == 0 {
      ClaimedOnce(1);
      actions := [Create(7, 0, 1), Claim(1, 0, {}, Some(7))];
    } else {
      var before := ExpiryIsUnbounded(n - 1);
      var s := Run(Init(10, 0), before);
      var a := Claim(n + 1, 20 * n, {}, Some(7));
      assert s.jobs == map[7 := s.jobs[7]];
      RunStep(Init(10, 0), before, a);
      ClaimOnlyJob(s, n + 1, 20 * n, s.jobs[7]);
      actions := before + [a];
    }
  }
}
