/**
 * `claim`, `complete` and the list routes as the code runs them: a loop of
 * database calls that is shown to take only steps of the protocol.
 */
module IdempotencyService {
  import opened Outcomes
  import opened ShoppingLists
  import opened IdempotencyProtocol
  import opened ListRevisions

  /**
   * One iteration of the loop: its clock reading, whether the deadline has passed
   * by then, and what the rest of the system does between the SELECT and the
   * INSERT, during each wait for the unique key, and while this request sleeps.
   */
  datatype Poll = Poll(
    now: int, sees: bool, timedOut: bool,
    meanwhile: seq<Action>, waits: seq<seq<Action>>, sleeping: seq<Action>)

  /** What the rest of the system does during each wait for the row lock, and after each of the two later calls. */
  datatype Meanwhile = Meanwhile(waits: seq<seq<Action>>, working: seq<Action>, responding: seq<Action>)

  /** `Waiting` means the schedule ended while the request was still blocked or asleep. */
  datatype ClaimResult = Executes | Replays(status: int, body: string) | Raises(answer: Answer) | Waiting

  datatype Response = Response(status: int, body: string) | Refused(answer: Answer) | Failed(error: HttpError) | NoResponse

  ghost predicate Others(actions: seq<Action>, t: nat) {
    forall i :: 0 <= i < |actions| ==> actions[i].t != t
  }

  ghost predicate OthersMeanwhile(m: Meanwhile, t: nat) {
    Others(m.working, t) && Others(m.responding, t) && forall k :: 0 <= k < |m.waits| ==> Others(m.waits[k], t)
  }

  ghost predicate OthersOnly(polls: seq<Poll>, t: nat) {
    forall i :: 0 <= i < |polls| ==>
      && Others(polls[i].meanwhile, t) && Others(polls[i].sleeping, t)
      && forall k :: 0 <= k < |polls[i].waits| ==> Others(polls[i].waits[k], t)
  }

  /** Running `b` after `a` is running their concatenation. */
  lemma {:induction false} RunAppend(s: State, a: seq<Action>, b: seq<Action>)
    ensures Run(s, a + b) == Run(Run(s, a), b)
  {
    if b == [] {
      assert a + b == a;
    } else {
      RunAppend(s, a, b[..|b| - 1]);
      assert (a + b)[..|a + b| - 1] == a + b[..|b| - 1];
    }
  }

  lemma {:induction false} RunStep(s: State, trace: seq<Action>, a: Action)
    ensures Run(s, trace + [a]) == Step(Run(s, trace), a)
  {
    assert (trace + [a])[..|trace|] == trace;
  }

  lemma {:induction false} OtherStepLeavesAlone(s: State, a: Action, t: nat)
    requires a.t != t
    ensures (t in Step(s, a).transactions) == (t in s.transactions)
    ensures t in s.transactions ==> Step(s, a).transactions[t] == s.transactions[t]
  {
  }

  /** Other transactions can neither end nor change this one. */
  lemma {:induction false} OthersLeaveAlone(s: State, actions: seq<Action>, t: nat)
    requires Others(actions, t)
    ensures (t in Run(s, actions).transactions) == (t in s.transactions)
    ensures t in s.transactions ==> Run(s, actions).transactions[t] == s.transactions[t]
  {
    if actions != [] {
      var front := actions[..|actions| - 1];
      OthersLeaveAlone(s, front, t);
      OtherStepLeavesAlone(Run(s, front), actions[|actions| - 1], t);
    }
  }

  class Database {
    var state: State
    ghost var history: seq<Action>

    /** The stored state is the one the recorded protocol run reaches. */
    ghost predicate Valid() reads this {
      state == Run(Init, history)
    }

    /** Transaction `t` is open between two polls of its `claim`. */
    ghost predicate Waits(t: nat, request: Request) reads this {
      t in state.transactions && state.transactions[t] == Transaction(request, Polling, None)
    }

    ghost predicate Holds(t: nat, request: Request) reads this {
      && t in state.transactions
      && state.transactions[t].request == request
      && state.transactions[t].phase.Claimed?
    }

    /** It holds the claim of its own payload. */
    ghost predicate Owns(t: nat, request: Request) reads this {
      Holds(t, request) && state.transactions[t].phase.record.hash == Sha256(request.payload)
    }

    /** The last step was `t`'s commit, and it made of the committed tables what the operation promises. */
    ghost predicate Commits(t: nat, request: Request, operation: Operation) reads this {
      && history != [] && history[|history| - 1] == Commit(t)
      && var before := Run(Init, history[..|history| - 1]);
         && Changes(operation, request.scope.user, before.lists, state.lists)
         && Stores(operation, request.scope.user, before.lists, before.optimizations, state.optimizations)
    }

    /** The last step was an answer to `t` from its poll, and left the committed tables alone. */
    ghost predicate OnlyAnswers(t: nat) reads this {
      && history != [] && history[|history| - 1].Select? && history[|history| - 1].t == t
      && var before := Run(Init, history[..|history| - 1]);
         before.lists == state.lists && before.optimizations == state.optimizations
    }

    constructor ()
      ensures Valid() && state == Init
    {
      state, history := Init, [];
    }

    /** `db.begin()` of a new request. */
    method Open(t: nat, request: Request)
      requires Valid() && t !in state.transactions && request.ttl > 0
      modifies this
      ensures Valid() && Waits(t, request)
      ensures history == old(history) + [Begin(t, request)]
    {
      RunStep(Init, history, Begin(t, request));
      state := state.(transactions := state.transactions[t := Transaction(request, Polling, None)]);
      history := history + [Begin(t, request)];
    }

    /** The rest of the system takes some steps. */
    method Yield(t: nat, actions: seq<Action>)
      requires Valid() && Others(actions, t)
      modifies this
      ensures Valid() && history == old(history) + actions
      ensures (t in state.transactions) == (t in old(state).transactions)
      ensures t in state.transactions ==> state.transactions[t] == old(state).transactions[t]
    {
      OthersLeaveAlone(state, actions, t);
      RunAppend(Init, history, actions);
      state := Run(state, actions);
      history := history + actions;
    }

    /** `SELECT ... FOR UPDATE`: blocks on another transaction's write, else returns the visible record. */
    method SelectForUpdate(t: nat, sees: bool) returns (blocked: bool, existing: Option<Record>)
      requires t in state.transactions
      ensures var scope := state.transactions[t].request.scope;
        && blocked == (Finds(state, scope, sees) && !RecordFree(state, t, scope))
        && existing == if scope in state.records && sees then Some(state.records[scope]) else None
    {
      var scope := state.transactions[t].request.scope;
      blocked := Finds(state, scope, sees) && !RecordFree(state, t, scope);
      existing := if scope in state.records && sees then Some(state.records[scope]) else None;
    }

    /** Go on to the INSERT, having deleted the record when there is an expired one. */
    method DeleteExpired(t: nat, request: Request, poll: Poll, existing: Option<Record>)
      requires Valid() && Waits(t, request)
      requires Finds(state, request.scope, poll.sees) ==> RecordFree(state, t, request.scope)
      requires existing == if request.scope in state.records && poll.sees then Some(state.records[request.scope]) else None
      requires existing.Some? ==> existing.value.expiresAt <= poll.now
      modifies this
      ensures Valid() && history == old(history) + [Select(t, poll.now, poll.sees, poll.timedOut)]
      ensures t in state.transactions
      ensures state.transactions[t] == Transaction(request, Inserting(poll.now, existing.Some?), None)
    {
      RunStep(Init, history, Select(t, poll.now, poll.sees, poll.timedOut));
      state := Moved(state, t, state.transactions[t].(phase := Inserting(poll.now, existing.Some?)));
      history := history + [Select(t, poll.now, poll.sees, poll.timedOut)];
    }

    /** Leave `claim` without the mutation after seeing a live record. */
    method Answer(t: nat, request: Request, poll: Poll, answer: Answer)
      requires Valid() && Waits(t, request)
      requires Finds(state, request.scope, poll.sees) ==> RecordFree(state, t, request.scope)
      requires AfterSelect(state, t, state.transactions[t], poll.now, poll.sees, poll.timedOut)
        == Answered(state, t, state.transactions[t], poll.now, answer)
      modifies this
      ensures Valid() && history == old(history) + [Select(t, poll.now, poll.sees, poll.timedOut)]
      ensures state == Answered(old(state), t, old(state).transactions[t], poll.now, answer)
      ensures OnlyAnswers(t)
    {
      assert (history + [Select(t, poll.now, poll.sees, poll.timedOut)])[..|history|] == history;
      RunStep(Init, history, Select(t, poll.now, poll.sees, poll.timedOut));
      state := Answered(state, t, state.transactions[t], poll.now, answer);
      history := history + [Select(t, poll.now, poll.sees, poll.timedOut)];
    }

    /** `db.add(record); db.flush()`: blocks, violates the unique constraint, or inserts. */
    method Flush(t: nat, record: Record, timedOut: bool) returns (blocked: bool, duplicate: bool)
      requires Valid() && t in state.transactions && state.transactions[t].phase.Inserting?
      requires var x := state.transactions[t];
        record == Record(Sha256(x.request.payload), 0, "", x.phase.now, x.phase.now + x.request.ttl)
      modifies this
      ensures Valid()
      ensures var x := old(state).transactions[t];
        && blocked == !RecordFree(old(state), t, x.request.scope)
        && duplicate == (x.request.scope in old(state).records && !x.phase.evicts)
        && (blocked ==> state == old(state) && history == old(history))
        && (!blocked ==> state == AfterInsert(old(state), t, x, timedOut) && history == old(history) + [Insert(t, timedOut)])
    {
      var x := state.transactions[t];
      blocked := !RecordFree(state, t, x.request.scope);
      duplicate := x.request.scope in state.records && !x.phase.evicts;
      if !blocked {
        RunStep(Init, history, Insert(t, timedOut));
        history := history + [Insert(t, timedOut)];
        if !duplicate {
          state := Moved(state, t, x.(phase := Claimed(record, x.phase.evicts)));
        } else if timedOut {
          state := Answered(state, t, x, x.phase.now, InProgress);
        } else {
          state := Moved(state, t, x.(phase := Polling));
        }
      }
    }

    /** The INSERT with its waits for whoever holds the unique key. */
    method InsertRecord(t: nat, request: Request, poll: Poll, ghost evicts: bool) returns (r: Option<ClaimResult>)
      requires Valid() && t in state.transactions
      requires state.transactions[t] == Transaction(request, Inserting(poll.now, evicts), None)
      requires forall k :: 0 <= k < |poll.waits| ==> Others(poll.waits[k], t)
      modifies this
      ensures Valid() && old(history) <= history
      ensures r.None? ==> Waits(t, request)
      ensures r.Some? ==> r.value in {Executes, Raises(InProgress), Waiting}
      ensures r == Some(Executes) ==>
        && t in state.transactions
        && state.transactions[t] == Transaction(
             request, Claimed(Record(Sha256(request.payload), 0, "", poll.now, poll.now + request.ttl), evicts), None)
      ensures r == Some(Raises(InProgress)) ==> t !in state.transactions && poll.timedOut
      ensures r == Some(Waiting) ==> t in state.transactions && !state.transactions[t].phase.Claimed?
    {
      for k := 0 to |poll.waits|
        invariant Valid() && old(history) <= history && t in state.transactions
        invariant state.transactions[t] == Transaction(request, Inserting(poll.now, evicts), None)
      {
        var blocked, duplicate := Flush(t, Record(Sha256(request.payload), 0, "", poll.now, poll.now + request.ttl), poll.timedOut);
        if !blocked {
          return if !duplicate then Some(Executes) else if poll.timedOut then Some(Raises(InProgress)) else None;
        }
        Yield(t, poll.waits[k]);
      }
      return Some(Waiting);
    }

    /**
     * `claim`. Whatever the other transactions do between its database calls, it
     * takes only protocol steps, and its result is what the committed executions
     * call for at the moment it returns.
     */
    method Claim(t: nat, request: Request, polls: seq<Poll>) returns (r: ClaimResult)
      requires Valid() && Waits(t, request) && OthersOnly(polls, t)
      modifies this
      ensures Valid() && old(history) <= history
      ensures r.Executes? ==>
        && Holds(t, request) && state.transactions[t].work.None?
        && state.transactions[t].phase.record.status == 0
        && state.transactions[t].phase.record.hash == Sha256(request.payload)
        && (Latest(state.log, request.scope).Some? ==>
              Latest(state.log, request.scope).value.expiresAt <= state.transactions[t].phase.record.claimedAt)
      ensures r.Replays? ==>
        && t !in state.transactions
        && Latest(state.log, request.scope).Some?
        && Latest(state.log, request.scope).value.hash == Sha256(request.payload)
        && Latest(state.log, request.scope).value.status == r.status > 0
        && Latest(state.log, request.scope).value.body == r.body
      ensures r.Replays? ==> OnlyAnswers(t)
      ensures r.Raises? ==> t !in state.transactions && !r.answer.Replay?
      ensures r == Raises(Conflict) ==>
        && Latest(state.log, request.scope).Some?
        && Latest(state.log, request.scope).value.hash != Sha256(request.payload)
      ensures r.Waiting? ==> t in state.transactions && !state.transactions[t].phase.Claimed?
    {
      hide Latest, Step, Run, Enabled, RecordFree;
      var digest := Sha256(request.payload);
      for i := 0 to |polls|
        invariant Valid() && old(history) <= history && Waits(t, request)
      {
        var poll := polls[i];
        var blocked, existing := SelectForUpdate(t, poll.sees);
        if blocked {
          Yield(t, poll.sleeping);
        } else if existing.Some? && existing.value.expiresAt > poll.now {
          StoredIsLatest(history, request.scope);
          if existing.value.hash != digest {
            Answer(t, request, poll, Conflict);
            return Raises(Conflict);
          }
          if existing.value.status > 0 {
            Answer(t, request, poll, Replay(existing.value.status, existing.value.body));
            return Replays(existing.value.status, existing.value.body);
          }
          if poll.timedOut {
            Answer(t, request, poll, InProgress);
            return Raises(InProgress);
          }
          Yield(t, poll.sleeping);
        } else {
          DeleteExpired(t, request, poll, existing);
          Yield(t, poll.meanwhile);
          var inserted := InsertRecord(t, request, poll, existing.Some?);
          if inserted.Some? {
            if inserted.value.Executes? && Latest(state.log, request.scope).Some? {
              NoClaimInsideTheWindow(history, t);
            }
            return inserted.value;
          }
          Yield(t, poll.sleeping);
        }
      }
      return Waiting;
    }

    /**
     * The handler body under the list's row lock. What it leaves in the open transaction
     * is what the operation promises of the committed row; otherwise an HTTP error, each
     * exactly under its own condition, rolls everything back.
     */
    method PerformLocked(t: nat, request: Request, operation: Operation) returns (r: Result<Work, HttpError>)
      requires Valid() && Holds(t, request) && Enabled(state, Execute(t, operation))
      modifies this
      ensures Valid() && history == old(history) + [Execute(t, operation)]
      ensures r.Ok? ==> Does(operation, request.scope.user, r.value)
      ensures forall e :: r == Err(e) <==> Refuses(operation, request.scope.user, old(state).lists, e)
      ensures state == if r.Ok? then Moved(old(state), t, old(state).transactions[t].(work := Some(r.value))) else Ended(old(state), t)
    {
      RunStep(Init, history, Execute(t, operation));
      ListsHold(history);
      PerformIsCurrent(state, operation, request.scope.user);
      hide Perform, ListsInv;
      r := Perform(operation, request.scope.user, state.lists, state.optimizations);
      history := history + [Execute(t, operation)];
      state := if r.Ok? then Moved(state, t, state.transactions[t].(work := Some(r.value))) else Ended(state, t);
    }

    /** `complete`: the response goes into the claim's own record. */
    method CompleteClaim(t: nat, request: Request, status: int, body: string)
      requires Valid() && Holds(t, request) && 100 <= status <= 599
      modifies this
      ensures Valid() && history == old(history) + [Complete(t, status, body)]
      ensures Holds(t, request) && state.transactions[t].work == old(state).transactions[t].work
      ensures state.transactions[t].phase.record ==
        old(state).transactions[t].phase.record.(status := status, body := body)
      ensures state.log == old(state).log && state.records == old(state).records
    {
      RunStep(Init, history, Complete(t, status, body));
      var x := state.transactions[t];
      state := Moved(state, t, x.(phase := x.phase.(record := x.phase.record.(status := status, body := body))));
      history := history + [Complete(t, status, body)];
    }

    /** `db.commit()`. */
    method CommitClaim(t: nat, request: Request)
      requires Valid() && Holds(t, request)
      modifies this
      ensures Valid() && history == old(history) + [Commit(t)]
      ensures state == AfterCommit(old(state), t, old(state).transactions[t])
    {
      RunStep(Init, history, Commit(t));
      var x := state.transactions[t];
      history := history + [Commit(t)];
      state := AfterCommit(state, t, x);
    }

    /** A route once it holds its claim: wait for the row lock, mutate, complete and commit. */
    method Mutate(t: nat, request: Request, operation: Operation, status: int, body: string, others: Meanwhile)
      returns (r: Response)
      requires Valid() && Owns(t, request) && 100 <= status <= 599 && OthersMeanwhile(others, t)
      modifies this
      ensures Valid() && old(history) <= history
      ensures r.Response? ==> r == Response(status, body) && t !in state.transactions
      ensures r.Response? ==>
        && Latest(state.log, request.scope).Some?
        && Latest(state.log, request.scope).value.hash == Sha256(request.payload)
        && Latest(state.log, request.scope).value.status == status
        && Latest(state.log, request.scope).value.body == body
      ensures r.Response? ==> Commits(t, request, operation)
      ensures r.Failed? ==> t !in state.transactions && Refuses(operation, request.scope.user, state.lists, r.error)
      ensures !r.Refused?
    {
      hide Perform, Latest, Enabled, Does, Changes, Stores, Refuses;
      for k := 0 to |others.waits|
        invariant Valid() && old(history) <= history && Owns(t, request)
      {
        if Enabled(state, Execute(t, operation)) {
          break;
        }
        Yield(t, others.waits[k]);
      }
      if !Enabled(state, Execute(t, operation)) {
        return NoResponse;
      }
      var performed := PerformLocked(t, request, operation);
      if performed.Err? {
        return Failed(performed.error);
      }
      Yield(t, others.working);
      CompleteClaim(t, request, status, body);
      Yield(t, others.responding);
      ghost var x := state.transactions[t];
      ListsHold(history);
      CommitDoes(state, t, operation, request.scope.user);
      assert (history + [Commit(t)])[..|history|] == history;
      LatestAppend(state.log, Execution(x.request.scope, x.request.ttl, x.phase.record, x.work), request.scope);
      CommitClaim(t, request);
      return Response(status, body);
    }

    /**
     * A route: claim, then either replay or wait for the row lock, mutate, complete and
     * commit, with the other transactions taking steps between the calls.
     * Whatever the caller receives is the stored response of the latest execution
     * under its key, for its own payload; either this call has just committed what its
     * operation promises, or it changed nothing. A refusal leaves no transaction open.
     */
    method Handle(t: nat, request: Request, operation: Operation, status: int, body: string, polls: seq<Poll>, others: Meanwhile)
      returns (r: Response)
      requires Valid() && t !in state.transactions && request.ttl > 0 && OthersOnly(polls, t)
      requires OthersMeanwhile(others, t)
      requires 100 <= status <= 599
      modifies this
      ensures Valid() && old(history) <= history
      ensures r.Response? ==>
        && t !in state.transactions
        && Latest(state.log, request.scope).Some?
        && Latest(state.log, request.scope).value.hash == Sha256(request.payload)
        && Latest(state.log, request.scope).value.status == r.status
        && Latest(state.log, request.scope).value.body == r.body
      ensures r.Response? ==> Commits(t, request, operation) || OnlyAnswers(t)
      ensures r.Refused? || r.Failed? ==> t !in state.transactions
      ensures r.Failed? ==> Refuses(operation, request.scope.user, state.lists, r.error)
      ensures r == Refused(Conflict) ==>
        Latest(state.log, request.scope).Some? && Latest(state.log, request.scope).value.hash != Sha256(request.payload)
    {
      Open(t, request);
      var claimed := Claim(t, request, polls);
      match claimed {
        case Replays(oldStatus, oldBody) => return Response(oldStatus, oldBody);
        case Raises(answer) => return Refused(answer);
        case Waiting => return NoResponse;
        case Executes => r := Mutate(t, request, operation, status, body, others);
      }
    }
  }
}
