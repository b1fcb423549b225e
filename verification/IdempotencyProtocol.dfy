/**
 * Idempotent mutations as a concurrent protocol over one database.
 *
 * A step is one database interaction of one open transaction; a run is any
 * sequence of steps by any number of transactions. A step that PostgreSQL would
 * block on a row lock or on an uncommitted unique key is not enabled, and taking
 * it leaves the state as it is (the transaction keeps waiting). No clock is
 * assumed: each poll of `claim` brings its own reading of the time, which may
 * jump in either direction and differ between workers.
 */
module IdempotencyProtocol {
  import opened Outcomes
  import opened ShoppingLists

  /** The columns under the unique constraint `uq_idempotency_user_operation_key`. */
  datatype Scope = Scope(user: string, operation: string, key: string)

  datatype Record = Record(hash: Digest<string>, status: int, body: string, claimedAt: int, expiresAt: int)

  datatype Request = Request(scope: Scope, payload: string, ttl: int)

  datatype Phase =
    | Polling
      /** The SELECT returned no live record; `evicts` says it deleted an expired one. */
    | Inserting(now: int, evicts: bool)
      /** The INSERT went through: this transaction owns the mutation. */
    | Claimed(record: Record, evicts: bool)

  datatype Transaction = Transaction(request: Request, phase: Phase, work: Option<Work>)

  datatype Answer = Replay(status: int, body: string) | Conflict | InProgress

  /** An answer `claim` gave without handing out the mutation; `seen` executions had committed by then. */
  datatype Reply = Reply(scope: Scope, hash: Digest<string>, now: int, answer: Answer, seen: nat)

  datatype Execution = Execution(scope: Scope, ttl: int, record: Record, work: Option<Work>)

  datatype State = State(
    records: map<Scope, Record>,
    lists: map<string, ShoppingList>,
    optimizations: seq<Optimization>,
    transactions: map<nat, Transaction>,
    log: seq<Execution>,   // auxiliary: committed executions, oldest first
    replies: seq<Reply>)   // auxiliary: every answer given instead of an execution

  datatype Action =
    | Begin(t: nat, request: Request)
      /** `sees` is false when the statement's snapshot predates the commit of the stored record. */
    | Select(t: nat, now: int, sees: bool, timedOut: bool)
    | Insert(t: nat, timedOut: bool)
    | Execute(t: nat, operation: Operation)
    | Complete(t: nat, status: int, body: string)
    | Commit(t: nat)
      /** Rollback, an exception, a crash or the end of the session. */
    | Close(t: nat)

  const Init := State(map[], map[], [], map[], [], [])

  predicate Open(s: State, t: nat) { t in s.transactions }

  /** `x` has deleted or inserted the record of its scope and not yet committed. */
  predicate Owns(x: Transaction) {
    x.phase.Claimed? || (x.phase.Inserting? && x.phase.evicts)
  }

  /** No other open transaction has written the record of `scope`. */
  predicate RecordFree(s: State, t: nat, scope: Scope) {
    forall u | u in s.transactions :: u != t && Owns(s.transactions[u]) ==> s.transactions[u].request.scope != scope
  }

  /** The SELECT finds a row, which is what it can block on: a committed one, unless committed after its snapshot. */
  predicate Finds(s: State, scope: Scope, sees: bool) { scope in s.records && sees }

  /** No other open transaction holds the row lock of `list`. */
  predicate ListFree(s: State, t: nat, list: string) {
    forall u | u in s.transactions :: u != t && s.transactions[u].work.Some? ==> s.transactions[u].work.value.list != list
  }

  predicate Enabled(s: State, a: Action) {
    match a
    case Begin(t, request) => !Open(s, t) && request.ttl > 0
    case Select(t, _, sees, _) =>
      && Open(s, t) && s.transactions[t].phase.Polling?
      && (Finds(s, s.transactions[t].request.scope, sees) ==> RecordFree(s, t, s.transactions[t].request.scope))
    case Insert(t, _) =>
      Open(s, t) && s.transactions[t].phase.Inserting? && RecordFree(s, t, s.transactions[t].request.scope)
    case Execute(t, operation) =>
      && Open(s, t) && s.transactions[t].phase.Claimed? && s.transactions[t].work.None?
      && ListFree(s, t, operation.list)
      && (operation.CreateList? ==> operation.list !in s.lists)
      && (operation.AddItem? && operation.list in s.lists ==> operation.newItem !in s.lists[operation.list].items)
    case Complete(t, status, _) =>
      Open(s, t) && s.transactions[t].phase.Claimed? && 100 <= status <= 599
    case Commit(t) => Open(s, t) && s.transactions[t].phase.Claimed?
    case Close(t) => Open(s, t)
  }

  function Moved(s: State, t: nat, x: Transaction): State {
    s.(transactions := s.transactions[t := x])
  }

  function Ended(s: State, t: nat): State {
    s.(transactions := s.transactions - {t})
  }

  function Answered(s: State, t: nat, x: Transaction, now: int, answer: Answer): State {
    Ended(s, t).(replies := s.replies + [Reply(x.request.scope, Sha256(x.request.payload), now, answer, |s.log|)])
  }

  /** One iteration of `claim` up to its decision; a wait rolls back, so it returns to `Polling`. */
  function AfterSelect(s: State, t: nat, x: Transaction, now: int, sees: bool, timedOut: bool): State {
    var scope := x.request.scope;
    if scope !in s.records || !sees then
      Moved(s, t, x.(phase := Inserting(now, false)))
    else
      var existing := s.records[scope];
      if existing.expiresAt <= now then
        Moved(s, t, x.(phase := Inserting(now, true)))
      else if existing.hash != Sha256(x.request.payload) then
        Answered(s, t, x, now, Conflict)
      else if existing.status > 0 then
        Answered(s, t, x, now, Replay(existing.status, existing.body))
      else if timedOut then
        Answered(s, t, x, now, InProgress)
      else
        s
  }

  /** The INSERT: refused by the unique constraint exactly when a committed record is still there. */
  function AfterInsert(s: State, t: nat, x: Transaction, timedOut: bool): State
    requires x.phase.Inserting?
  {
    var now := x.phase.now;
    if x.request.scope in s.records && !x.phase.evicts then
      if timedOut then Answered(s, t, x, now, InProgress) else Moved(s, t, x.(phase := Polling))
    else
      Moved(s, t, x.(phase := Claimed(
        Record(Sha256(x.request.payload), 0, "", now, now + x.request.ttl), x.phase.evicts)))
  }

  /** The handler under the list's row lock; an HTTP error rolls the transaction back. */
  function AfterExecute(s: State, t: nat, x: Transaction, operation: Operation): State {
    match Perform(operation, x.request.scope.user, s.lists, s.optimizations)
    case Ok(work) => Moved(s, t, x.(work := Some(work)))
    case Err(_) => Ended(s, t)
  }

  function ListsAfter(lists: map<string, ShoppingList>, work: Option<Work>): map<string, ShoppingList> {
    if work.None? then lists else lists[work.value.list := work.value.row]
  }

  function OptimizationsAfter(stored: seq<Optimization>, work: Option<Work>): seq<Optimization> {
    if work.Some? && work.value.Planned? && !work.value.reused then stored + [work.value.result] else stored
  }

  /** The claim, its response and the mutation become visible together. */
  function AfterCommit(s: State, t: nat, x: Transaction): State
    requires x.phase.Claimed?
  {
    Ended(s, t).(
      records := s.records[x.request.scope := x.phase.record],
      lists := ListsAfter(s.lists, x.work),
      optimizations := OptimizationsAfter(s.optimizations, x.work),
      log := s.log + [Execution(x.request.scope, x.request.ttl, x.phase.record, x.work)])
  }

  function Step(s: State, a: Action): State {
    if !Enabled(s, a) then s
    else
      match a
      case Begin(t, request) => Moved(s, t, Transaction(request, Polling, None))
      case Select(t, now, sees, timedOut) => AfterSelect(s, t, s.transactions[t], now, sees, timedOut)
      case Insert(t, timedOut) => AfterInsert(s, t, s.transactions[t], timedOut)
      case Execute(t, operation) => AfterExecute(s, t, s.transactions[t], operation)
      case Complete(t, status, body) =>
        var x := s.transactions[t];
        Moved(s, t, x.(phase := x.phase.(record := x.phase.record.(status := status, body := body))))
      case Commit(t) => AfterCommit(s, t, s.transactions[t])
      case Close(t) => Ended(s, t)
  }

  function Run(s: State, actions: seq<Action>): State {
    if actions == [] then s else Step(Run(s, actions[..|actions| - 1]), actions[|actions| - 1])
  }

  /** The record the latest committed execution under `scope` left behind. */
  function Latest(log: seq<Execution>, scope: Scope): Option<Record> {
    if log == [] then None
    else if log[|log| - 1].scope == scope then Some(log[|log| - 1].record)
    else Latest(log[..|log| - 1], scope)
  }

  /** Committed, non-replayed mutations of `list`. */
  function Mutations(log: seq<Execution>, list: string): nat {
    if log == [] then 0
    else
      var work := log[|log| - 1].work;
      Mutations(log[..|log| - 1], list) +
      if work.Some? && work.value.Mutated? && work.value.list == list then 1 else 0
  }

  lemma {:induction false} LatestAppend(log: seq<Execution>, e: Execution, scope: Scope)
    ensures Latest(log + [e], scope) == if e.scope == scope then Some(e.record) else Latest(log, scope)
  {
    assert (log + [e])[..|log|] == log;
  }

  lemma {:induction false} MutationsAppend(log: seq<Execution>, e: Execution, list: string)
    ensures Mutations(log + [e], list) ==
      Mutations(log, list) + if e.work.Some? && e.work.value.Mutated? && e.work.value.list == list then 1 else 0
  {
    assert (log + [e])[..|log|] == log;
  }

  // ----- What every reachable state satisfies about claims

  ghost predicate Mirrored(s: State) {
    forall scope: Scope :: Latest(s.log, scope) == if scope in s.records then Some(s.records[scope]) else None
  }

  /** Executions under one scope are apart by at least the lifetime of the earlier claim. */
  ghost predicate Apart(log: seq<Execution>) {
    && (forall i :: 0 <= i < |log| ==>
          log[i].ttl > 0 && log[i].record.expiresAt == log[i].record.claimedAt + log[i].ttl)
    && (forall i, j :: 0 <= i < j < |log| && log[i].scope == log[j].scope ==>
          log[i].record.expiresAt <= log[j].record.claimedAt)
  }

  /** The expired record a transaction is replacing is still the stored one. */
  ghost predicate Tentative(s: State, x: Transaction) {
    && x.request.ttl > 0
    && (x.phase.Inserting? && x.phase.evicts ==>
          x.request.scope in s.records && s.records[x.request.scope].expiresAt <= x.phase.now)
    && (x.phase.Claimed? ==>
          && x.phase.record.hash == Sha256(x.request.payload)
          && x.phase.record.expiresAt == x.phase.record.claimedAt + x.request.ttl
          && (x.phase.evicts <==> x.request.scope in s.records)
          && (x.phase.evicts ==> s.records[x.request.scope].expiresAt <= x.phase.record.claimedAt))
  }

  ghost predicate Exclusive(s: State) {
    forall t, u | t in s.transactions && u in s.transactions && t != u ::
      Owns(s.transactions[t]) && Owns(s.transactions[u]) ==>
        s.transactions[t].request.scope != s.transactions[u].request.scope
  }

  /** An answer is the one the latest execution before it calls for, and that execution was still live. */
  ghost predicate Faithful(log: seq<Execution>, r: Reply) {
    && r.seen <= |log|
    && (!r.answer.InProgress? ==>
          var winner := Latest(log[..r.seen], r.scope);
          && winner.Some?
          && r.now < winner.value.expiresAt
          && match r.answer
             case Replay(status, body) =>
               winner.value.hash == r.hash && winner.value.status == status > 0 && winner.value.body == body
             case _ => winner.value.hash != r.hash)
  }

  ghost predicate ClaimsInv(s: State) {
    && Mirrored(s)
    && Apart(s.log)
    && (forall t :: t in s.transactions ==> Tentative(s, s.transactions[t]))
    && Exclusive(s)
    && (forall k :: 0 <= k < |s.replies| ==> Faithful(s.log, s.replies[k]))
  }

  lemma {:induction false} LatestIsLogged(log: seq<Execution>, scope: Scope) returns (i: nat)
    requires Latest(log, scope).Some?
    ensures i < |log| && log[i].scope == scope && log[i].record == Latest(log, scope).value
    ensures forall j :: i < j < |log| ==> log[j].scope != scope
  {
    if log[|log| - 1].scope == scope {
      i := |log| - 1;
    } else {
      i := LatestIsLogged(log[..|log| - 1], scope);
    }
  }

  lemma {:induction false} LatestAbsent(log: seq<Execution>, scope: Scope)
    requires Latest(log, scope).None?
    ensures forall i :: 0 <= i < |log| ==> log[i].scope != scope
  {
    if log != [] {
      LatestAbsent(log[..|log| - 1], scope);
    }
  }

  /** The log entry a commit appends starts after everything earlier under its scope has expired. */
  lemma {:induction false} CommitKeepsApart(s: State, t: nat)
    requires ClaimsInv(s) && Enabled(s, Commit(t))
    ensures Apart(Step(s, Commit(t)).log)
  {
    var x := s.transactions[t];
    var scope := x.request.scope;
    var log := s.log;
    assert Tentative(s, x);
    assert Latest(log, scope) == if scope in s.records then Some(s.records[scope]) else None;
    if scope in s.records {
      var last := LatestIsLogged(log, scope);
      forall i | 0 <= i < |log| && log[i].scope == scope
        ensures log[i].record.expiresAt <= x.phase.record.claimedAt
      {
        if i < last {
          assert log[i].record.expiresAt <= log[last].record.claimedAt < log[last].record.expiresAt;
        }
      }
    } else {
      LatestAbsent(log, scope);
    }
  }

  lemma {:induction false} CommitKeepsClaims(s: State, t: nat)
    requires ClaimsInv(s) && Enabled(s, Commit(t))
    ensures ClaimsInv(Step(s, Commit(t)))
  {
    var x := s.transactions[t];
    var s' := Step(s, Commit(t));
    CommitKeepsApart(s, t);
    var e := Execution(x.request.scope, x.request.ttl, x.phase.record, x.work);
    assert s'.log == s.log + [e];
    forall scope: Scope
      ensures Latest(s'.log, scope) == if scope in s'.records then Some(s'.records[scope]) else None
    {
      LatestAppend(s.log, e, scope);
    }
    forall u | u in s'.transactions ensures Tentative(s', s'.transactions[u]) {
      assert Tentative(s, s.transactions[u]);
    }
    forall k | 0 <= k < |s'.replies| ensures Faithful(s'.log, s'.replies[k]) {
      assert Faithful(s.log, s.replies[k]);
      assert s'.log[..s.replies[k].seen] == s.log[..s.replies[k].seen];
    }
  }

  lemma {:induction false} AnswerKeepsClaims(s: State, t: nat, now: int, answer: Answer)
    requires ClaimsInv(s) && Open(s, t)
    requires Faithful(s.log, Reply(s.transactions[t].request.scope, Sha256(s.transactions[t].request.payload), now, answer, |s.log|))
    ensures ClaimsInv(Answered(s, t, s.transactions[t], now, answer))
  {
    var s' := Answered(s, t, s.transactions[t], now, answer);
    forall u | u in s'.transactions ensures Tentative(s', s'.transactions[u]) {
      assert Tentative(s, s.transactions[u]);
    }
  }

  lemma {:induction false} MoveKeepsClaims(s: State, t: nat, x: Transaction)
    requires ClaimsInv(s) && Tentative(s, x)
    requires Owns(x) ==> RecordFree(s, t, x.request.scope)
    ensures ClaimsInv(Moved(s, t, x))
  {
    var s' := Moved(s, t, x);
    forall u | u in s'.transactions ensures Tentative(s', s'.transactions[u]) {
      assert u != t ==> Tentative(s, s.transactions[u]);
    }
  }

  lemma {:induction false} SelectKeepsClaims(s: State, t: nat, now: int, sees: bool, timedOut: bool)
    requires ClaimsInv(s) && Enabled(s, Select(t, now, sees, timedOut))
    ensures ClaimsInv(Step(s, Select(t, now, sees, timedOut)))
  {
    var x := s.transactions[t];
    var scope := x.request.scope;
    assert Tentative(s, x);
    if scope !in s.records || !sees {
      MoveKeepsClaims(s, t, x.(phase := Inserting(now, false)));
    } else if s.records[scope].expiresAt <= now {
      MoveKeepsClaims(s, t, x.(phase := Inserting(now, true)));
    } else {
      assert Latest(s.log, scope) == Some(s.records[scope]);
      assert s.log[..|s.log|] == s.log;
      if s.records[scope].hash != Sha256(x.request.payload) {
        AnswerKeepsClaims(s, t, now, Conflict);
      } else if s.records[scope].status > 0 {
        AnswerKeepsClaims(s, t, now, Replay(s.records[scope].status, s.records[scope].body));
      } else if timedOut {
        AnswerKeepsClaims(s, t, now, InProgress);
      }
    }
  }

  lemma {:induction false} InsertKeepsClaims(s: State, t: nat, timedOut: bool)
    requires ClaimsInv(s) && Enabled(s, Insert(t, timedOut))
    ensures ClaimsInv(Step(s, Insert(t, timedOut)))
  {
    var x := s.transactions[t];
    assert Tentative(s, x);
    if x.request.scope in s.records && !x.phase.evicts {
      if timedOut {
        AnswerKeepsClaims(s, t, x.phase.now, InProgress);
      } else {
        MoveKeepsClaims(s, t, x.(phase := Polling));
      }
    } else {
      var record := Record(Sha256(x.request.payload), 0, "", x.phase.now, x.phase.now + x.request.ttl);
      MoveKeepsClaims(s, t, x.(phase := Claimed(record, x.phase.evicts)));
    }
  }

  lemma {:induction false} CloseKeepsClaims(s: State, t: nat)
    requires ClaimsInv(s)
    ensures ClaimsInv(Ended(s, t))
  {
    var s' := Ended(s, t);
    forall u | u in s'.transactions ensures Tentative(s', s'.transactions[u]) {
      assert Tentative(s, s.transactions[u]);
    }
  }

  lemma {:induction false} StepKeepsClaims(s: State, a: Action)
    requires ClaimsInv(s)
    ensures ClaimsInv(Step(s, a))
  {
    if Enabled(s, a) {
      match a {
        case Begin(t, request) => MoveKeepsClaims(s, t, Transaction(request, Polling, None));
        case Select(t, now, sees, timedOut) => SelectKeepsClaims(s, t, now, sees, timedOut);
        case Insert(t, timedOut) => InsertKeepsClaims(s, t, timedOut);
        case Execute(t, operation) =>
          var x := s.transactions[t];
          assert Tentative(s, x);
          match Perform(operation, x.request.scope.user, s.lists, s.optimizations) {
            case Ok(work) =>
              MoveKeepsClaims(s, t, x.(work := Some(work)));
            case Err(_) =>
              CloseKeepsClaims(s, t);
          }
        case Complete(t, status, body) =>
          var x := s.transactions[t];
          assert Tentative(s, x);
          MoveKeepsClaims(s, t, x.(phase := x.phase.(record := x.phase.record.(status := status, body := body))));
        case Commit(t) => CommitKeepsClaims(s, t);
        case Close(t) => CloseKeepsClaims(s, t);
      }
    }
  }

  lemma {:induction false} ClaimsHold(actions: seq<Action>)
    ensures ClaimsInv(Run(Init, actions))
  {
    if actions != [] {
      ClaimsHold(actions[..|actions| - 1]);
      StepKeepsClaims(Run(Init, actions[..|actions| - 1]), actions[|actions| - 1]);
    }
  }

  lemma {:induction false} StoredIsLatest(actions: seq<Action>, scope: Scope)
    ensures var s := Run(Init, actions);
      Latest(s.log, scope) == if scope in s.records then Some(s.records[scope]) else None
  {
    ClaimsHold(actions);
  }

  // ----- The guarantees, over every run

  /**
   * Two committed executions under one (user, operation, key) have claim times
   * at least the earlier one's time to live apart, whatever the interleaving.
   */
  lemma {:induction false} ExecutionsAreApart(actions: seq<Action>, i: nat, j: nat)
    requires i < j < |Run(Init, actions).log|
    requires Run(Init, actions).log[i].scope == Run(Init, actions).log[j].scope
    ensures var log := Run(Init, actions).log;
      0 < log[i].ttl <= log[j].record.claimedAt - log[i].record.claimedAt
  {
    ClaimsHold(actions);
  }

  /**
   * Every answer given in any run is the winner's: a replay carries the status
   * and body of the latest execution committed before it, under the same payload
   * hash; a conflict has another hash; and that winner was live, so that no other
   * execution under the scope was claimed at the answer's time.
   */
  lemma {:induction false} AnswersAreTheWinners(actions: seq<Action>, k: nat) returns (i: nat)
    requires k < |Run(Init, actions).replies| && !Run(Init, actions).replies[k].answer.InProgress?
    ensures var s := Run(Init, actions); var r := s.replies[k];
      && i < r.seen <= |s.log|
      && s.log[i].scope == r.scope
      && r.now < s.log[i].record.expiresAt
      && (r.answer.Conflict? <==> s.log[i].record.hash != r.hash)
      && (r.answer.Replay? ==> s.log[i].record.status == r.answer.status && s.log[i].record.body == r.answer.body)
      && (forall j :: i < j < |s.log| && s.log[j].scope == r.scope ==> j >= r.seen && r.now < s.log[j].record.claimedAt)
  {
    ClaimsHold(actions);
    var s := Run(Init, actions);
    var r := s.replies[k];
    assert Faithful(s.log, r);
    i := LatestIsLogged(s.log[..r.seen], r.scope);
    var before := s.log[..r.seen];
    assert forall j :: 0 <= j < r.seen ==> before[j] == s.log[j];
  }

  /**
   * While the latest committed execution of a scope is live, an unblocked poll
   * that sees its record decides by that execution alone: another payload is
   * refused, the same payload replays the stored response, an incomplete winner
   * makes it wait, and in no case does it go on to insert.
   */
  lemma {:induction false} LiveWinnerDecides(actions: seq<Action>, t: nat, now: int, timedOut: bool)
    requires Enabled(Run(Init, actions), Select(t, now, true, timedOut))
    requires var s := Run(Init, actions); var winner := Latest(s.log, s.transactions[t].request.scope);
      winner.Some? && now < winner.value.expiresAt
    ensures var s := Run(Init, actions); var x := s.transactions[t];
      var winner := Latest(s.log, x.request.scope).value;
      var s' := Step(s, Select(t, now, true, timedOut));
      if winner.hash != Sha256(x.request.payload) then s' == Answered(s, t, x, now, Conflict)
      else if winner.status > 0 then s' == Answered(s, t, x, now, Replay(winner.status, winner.body))
      else s' == s || s' == Answered(s, t, x, now, InProgress)
  {
    StoredIsLatest(actions, Run(Init, actions).transactions[t].request.scope);
  }

  /**
   * While a winner is live no commit under its scope can succeed: whoever still
   * holds a claim read its clock at or after the winner's expiry.
   */
  lemma {:induction false} NoClaimInsideTheWindow(actions: seq<Action>, t: nat)
    requires var s := Run(Init, actions);
      && Open(s, t) && s.transactions[t].phase.Claimed?
      && Latest(s.log, s.transactions[t].request.scope).Some?
    ensures var s := Run(Init, actions); var x := s.transactions[t];
      Latest(s.log, x.request.scope).value.expiresAt <= x.phase.record.claimedAt
  {
    ClaimsHold(actions);
    var s := Run(Init, actions);
    var x := s.transactions[t];
    assert Tentative(s, x);
    assert Latest(s.log, x.request.scope) ==
      if x.request.scope in s.records then Some(s.records[x.request.scope]) else None;
  }
}
