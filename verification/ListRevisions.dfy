/**
 * What the row lock and the revision counter give in every run of the protocol:
 * revisions count mutations, a revision fixes the row's contents, and one
 * optimization is stored per (user, list, revision, policy).
 */
module ListRevisions {
  import opened Outcomes
  import opened ShoppingLists
  import opened IdempotencyProtocol

  /** What a handler read under the row lock is still what is stored. */
  ghost predicate Current(s: State, work: Work) {
    match work
    case Created(list, row) => list !in s.lists && row.revision == 1
    case Mutated(list, before, row) =>
      && list in s.lists && s.lists[list] == before
      && row.revision == before.revision + 1 && row.owner == before.owner
    case Planned(list, row, result, reused) =>
      && list in s.lists && s.lists[list] == row
      && Describes(result, list, row)
      && (reused ==> result in s.optimizations)
      && (!reused ==> forall o :: o in s.optimizations ==> o.requestId != result.requestId)
  }

  /** `o` was computed from exactly this row. */
  ghost predicate Describes(o: Optimization, list: string, row: ShoppingList) {
    && o.requestId == Sha256(o.inputs)
    && o.inputs.list == list && o.inputs.user == row.owner
    && o.inputs.revision == row.revision && o.inputs.items == row.items
  }

  ghost predicate LocksExclusive(s: State) {
    forall t, u | t in s.transactions && u in s.transactions && t != u ::
      s.transactions[t].work.Some? && s.transactions[u].work.Some? ==>
        s.transactions[t].work.value.list != s.transactions[u].work.value.list
  }

  ghost predicate RevisionsCount(s: State) {
    forall list: string ::
      Mutations(s.log, list) == if list in s.lists then s.lists[list].revision - 1 else 0
  }

  /** A committed row is never newer than the stored one, and at the same revision it is the stored one. */
  ghost predicate Superseded(s: State, work: Work) {
    && work.list in s.lists
    && work.row.revision <= s.lists[work.list].revision
    && (work.row.revision == s.lists[work.list].revision ==> work.row == s.lists[work.list])
  }

  ghost predicate RowsAgree(s: State) {
    && (forall i :: 0 <= i < |s.log| && s.log[i].work.Some? ==> Superseded(s, s.log[i].work.value))
    && (forall i, j :: 0 <= i < j < |s.log| && s.log[i].work.Some? && s.log[j].work.Some? ==>
          Agree(s.log[i].work.value, s.log[j].work.value))
  }

  ghost predicate Agree(a: Work, b: Work) {
    a.list == b.list && a.row.revision == b.row.revision ==> a.row == b.row
  }

  /** Each stored optimization describes a row some committed execution left or read. */
  ghost predicate Grounded(s: State, o: Optimization) {
    && o.requestId == Sha256(o.inputs)
    && exists i :: 0 <= i < |s.log| && s.log[i].work.Some? && Describes(o, s.log[i].work.value.list, s.log[i].work.value.row)
  }

  ghost predicate ListsInv(s: State) {
    && (forall t :: t in s.transactions && s.transactions[t].work.Some? ==> Current(s, s.transactions[t].work.value))
    && LocksExclusive(s)
    && RevisionsCount(s)
    && RowsAgree(s)
    && (forall o :: o in s.optimizations ==> Grounded(s, o))
    && (forall i, j :: 0 <= i < j < |s.optimizations| ==> s.optimizations[i].requestId != s.optimizations[j].requestId)
  }

  lemma {:induction false} PerformIsCurrent(s: State, operation: Operation, user: string)
    requires ListsInv(s)
    requires operation.CreateList? ==> operation.list !in s.lists
    ensures var r := Perform(operation, user, s.lists, s.optimizations);
      && (r.Ok? ==> r.value.list == operation.list && Current(s, r.value) && Does(operation, user, r.value))
      && r != Err(IdentityConflict)
      && forall e :: r == Err(e) <==> Refuses(operation, user, s.lists, e)
  {
    if operation.Optimize? && operation.list in s.lists {
      var row := s.lists[operation.list];
      var inputs := Snapshot(user, operation.list, row.revision, row.items, operation.policy);
      var existing := FindRequest(s.optimizations, user, Sha256(inputs));
      if existing.Some? {
        assert Grounded(s, existing.value);
      } else {
        forall o | o in s.optimizations ensures o.requestId != Sha256(inputs) {
          assert Grounded(s, o);
        }
      }
    }
    HandlersKeepTheirPromises(operation, user, s.lists, s.optimizations);
  }

  /** A commit makes of the committed tables what the operation promises, whoever else committed while it was open. */
  lemma {:induction false} CommitDoes(s: State, t: nat, operation: Operation, user: string)
    requires ListsInv(s) && t in s.transactions && s.transactions[t].work.Some?
    requires Does(operation, user, s.transactions[t].work.value)
    ensures Changes(operation, user, s.lists, ListsAfter(s.lists, s.transactions[t].work))
    ensures Stores(operation, user, s.lists, s.optimizations, OptimizationsAfter(s.optimizations, s.transactions[t].work))
  {
    hide LocksExclusive, RevisionsCount, RowsAgree, Grounded;
    var work := s.transactions[t].work.value;
    assert Current(s, work);
    if work.Planned? {
      forall p | p in s.optimizations && AskedOf(operation, user, work.row, p) ensures p.requestId == work.result.requestId {
        StoredIdentity(s, p);
        assert p.inputs == work.result.inputs;
      }
      assert work.result in OptimizationsAfter(s.optimizations, Some(work));
    }
  }

  lemma {:induction false} StoredIdentity(s: State, o: Optimization)
    requires ListsInv(s) && o in s.optimizations
    ensures o.requestId == Sha256(o.inputs)
  {
    assert Grounded(s, o);
  }

  /** Steps that leave the committed store alone. */
  lemma {:induction false} UncommittedKeepsLists(s: State, s': State)
    requires ListsInv(s)
    requires s'.lists == s.lists && s'.optimizations == s.optimizations && s'.log == s.log
    requires forall t :: t in s'.transactions && s'.transactions[t].work.Some? ==> Current(s, s'.transactions[t].work.value)
    requires LocksExclusive(s')
    ensures ListsInv(s')
  {
    forall t | t in s'.transactions && s'.transactions[t].work.Some?
      ensures Current(s', s'.transactions[t].work.value)
    {
      assert Current(s, s'.transactions[t].work.value);
    }
    forall i | 0 <= i < |s'.log| && s'.log[i].work.Some? ensures Superseded(s', s'.log[i].work.value) {
      assert Superseded(s, s.log[i].work.value);
    }
    forall o | o in s'.optimizations ensures Grounded(s', o) {
      assert Grounded(s, o);
    }
  }

  lemma {:induction false} CommitKeepsCount(s: State, t: nat)
    requires ListsInv(s) && Enabled(s, Commit(t))
    ensures RevisionsCount(Step(s, Commit(t)))
  {
    hide RowsAgree, LocksExclusive, Grounded, Mutations, OptimizationsAfter;
    var x := s.transactions[t];
    var s' := Step(s, Commit(t));
    var e := Execution(x.request.scope, x.request.ttl, x.phase.record, x.work);
    assert s'.log == s.log + [e];
    assert x.work.Some? ==> Current(s, x.work.value);
    forall list: string
      ensures Mutations(s'.log, list) == if list in s'.lists then s'.lists[list].revision - 1 else 0
    {
      MutationsAppend(s.log, e, list);
    }
  }

  lemma {:induction false} CommitKeepsRows(s: State, t: nat)
    requires ListsInv(s) && Enabled(s, Commit(t))
    ensures RowsAgree(Step(s, Commit(t)))
  {
    hide RevisionsCount, LocksExclusive, Grounded, OptimizationsAfter;
    var x := s.transactions[t];
    var s' := Step(s, Commit(t));
    assert s'.log == s.log + [Execution(x.request.scope, x.request.ttl, x.phase.record, x.work)];
    assert x.work.Some? ==> Current(s, x.work.value);
    forall i | 0 <= i < |s'.log| && s'.log[i].work.Some? ensures Superseded(s', s'.log[i].work.value) {
      if i < |s.log| {
        assert Superseded(s, s.log[i].work.value);
      }
    }
    forall i, j | 0 <= i < j < |s'.log| && s'.log[i].work.Some? && s'.log[j].work.Some?
      ensures Agree(s'.log[i].work.value, s'.log[j].work.value)
    {
      if j < |s.log| {
        assert Agree(s.log[i].work.value, s.log[j].work.value);
      } else {
        assert Superseded(s, s.log[i].work.value);
      }
    }
  }

  lemma {:induction false} CommitKeepsOptimizations(s: State, t: nat)
    requires ListsInv(s) && Enabled(s, Commit(t))
    ensures var s' := Step(s, Commit(t));
      && (forall o :: o in s'.optimizations ==> Grounded(s', o))
      && (forall i, j :: 0 <= i < j < |s'.optimizations| ==> s'.optimizations[i].requestId != s'.optimizations[j].requestId)
  {
    var x := s.transactions[t];
    var s' := Step(s, Commit(t));
    assert x.work.Some? ==> Current(s, x.work.value);
    var n := |s.log|;
    assert s'.log[n].work == x.work;
    forall o | o in s'.optimizations ensures Grounded(s', o) {
      if o in s.optimizations {
        assert Grounded(s, o);
        var i :| 0 <= i < |s.log| && s.log[i].work.Some? && Describes(o, s.log[i].work.value.list, s.log[i].work.value.row);
        assert s'.log[i] == s.log[i];
      } else {
        assert Describes(o, s'.log[n].work.value.list, s'.log[n].work.value.row);
      }
    }
  }

  lemma {:induction false} CommitKeepsLists(s: State, t: nat)
    requires ListsInv(s) && Enabled(s, Commit(t))
    ensures ListsInv(Step(s, Commit(t)))
  {
    var x := s.transactions[t];
    var s' := Step(s, Commit(t));
    CommitKeepsCount(s, t);
    CommitKeepsRows(s, t);
    CommitKeepsOptimizations(s, t);
    forall u | u in s'.transactions && s'.transactions[u].work.Some?
      ensures Current(s', s'.transactions[u].work.value)
    {
      var other := s.transactions[u].work.value;
      assert Current(s, other);
      if x.work.Some? && x.work.value.Planned? && !x.work.value.reused && other.Planned? {
        assert Current(s, x.work.value);
        assert x.work.value.list != other.list;
      }
    }
  }

  /** Short of a commit, a step changes no committed row and leaves every reader's view current. */
  lemma {:induction false} UncommittedStepIsTame(s: State, a: Action)
    requires ListsInv(s) && Enabled(s, a) && !a.Commit?
    ensures var s' := Step(s, a);
      && s'.lists == s.lists && s'.optimizations == s.optimizations && s'.log == s.log
      && (forall t :: t in s'.transactions && s'.transactions[t].work.Some? ==> Current(s, s'.transactions[t].work.value))
      && LocksExclusive(s')
  {
    hide RevisionsCount, RowsAgree, Grounded, Current, Perform, RecordFree;
    if a.Execute? {
      PerformIsCurrent(s, a.operation, s.transactions[a.t].request.scope.user);
    }
  }

  lemma {:induction false} StepKeepsLists(s: State, a: Action)
    requires ListsInv(s)
    ensures ListsInv(Step(s, a))
  {
    hide ListsInv, Current, LocksExclusive, Enabled, AfterSelect, AfterInsert, AfterExecute, AfterCommit;
    if Enabled(s, a) {
      if a.Commit? {
        CommitKeepsLists(s, a.t);
      } else {
        UncommittedStepIsTame(s, a);
        UncommittedKeepsLists(s, Step(s, a));
      }
    }
  }

  lemma {:induction false} ListsHold(actions: seq<Action>)
    ensures ListsInv(Run(Init, actions))
  {
    if actions != [] {
      ListsHold(actions[..|actions| - 1]);
      StepKeepsLists(Run(Init, actions[..|actions| - 1]), actions[|actions| - 1]);
    }
  }

  // ----- The guarantees, over every run

  /** A list's revision is one more than the committed, non-replayed mutations on it. */
  lemma {:induction false} RevisionCountsMutations(actions: seq<Action>, list: string)
    requires list in Run(Init, actions).lists
    ensures var s := Run(Init, actions);
      s.lists[list].revision == 1 + Mutations(s.log, list)
  {
    ListsHold(actions);
  }

  /** Any two committed views of one list at one revision are the same row, items included. */
  lemma {:induction false} RevisionFixesTheRow(actions: seq<Action>, i: nat, j: nat)
    requires var log := Run(Init, actions).log;
      && i < |log| && j < |log| && log[i].work.Some? && log[j].work.Some?
      && log[i].work.value.list == log[j].work.value.list
      && log[i].work.value.row.revision == log[j].work.value.row.revision
    ensures var log := Run(Init, actions).log;
      log[i].work.value.row == log[j].work.value.row
  {
    ListsHold(actions);
    var log := Run(Init, actions).log;
    if i < j {
      assert Agree(log[i].work.value, log[j].work.value);
    } else if j < i {
      assert Agree(log[j].work.value, log[i].work.value);
    }
  }

  /**
   * At most one optimization record exists per (list, revision, policy version):
   * two records that agree on those were computed from the same items for the
   * same owner, so they have one request identity, which is stored once.
   */
  lemma {:induction false} OneOptimizationPerRevision(actions: seq<Action>, i: nat, j: nat)
    requires var stored := Run(Init, actions).optimizations;
      && i < |stored| && j < |stored|
      && stored[i].inputs.list == stored[j].inputs.list
      && stored[i].inputs.revision == stored[j].inputs.revision
      && stored[i].inputs.policy == stored[j].inputs.policy
    ensures i == j
  {
    ListsHold(actions);
    var s := Run(Init, actions);
    var a, b := s.optimizations[i], s.optimizations[j];
    assert Grounded(s, a) && Grounded(s, b);
    var m :| 0 <= m < |s.log| && s.log[m].work.Some? && Describes(a, s.log[m].work.value.list, s.log[m].work.value.row);
    var n :| 0 <= n < |s.log| && s.log[n].work.Some? && Describes(b, s.log[n].work.value.list, s.log[n].work.value.row);
    RevisionFixesTheRow(actions, m, n);
    assert a.inputs == b.inputs;
  }

  /** The digest comparison after the lookup by request identity never fails. */
  lemma {:induction false} IdentityConflictIsUnreachable(actions: seq<Action>, operation: Operation, user: string)
    ensures var s := Run(Init, actions);
      (operation.CreateList? ==> operation.list !in s.lists) ==>
        Perform(operation, user, s.lists, s.optimizations) != Err(IdentityConflict)
  {
    ListsHold(actions);
    var s := Run(Init, actions);
    if operation.CreateList? ==> operation.list !in s.lists {
      PerformIsCurrent(s, operation, user);
    }
  }
}
