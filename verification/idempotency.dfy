/** Idempotency records: insert-or-read acquisition, takeover after a lease, and fenced completion with stored replay. */
module Idempotency {
  import opened Basics

  type Token = nat

  datatype Scope = Scope(merchant: Id, verb: string, route: string, keyHash: nat)

  datatype Response = Response(status: int, contentType: string, bodyIsObject: bool, body: string, reference: Option<string>)

  datatype Progress = InProgress(owner: Token, leaseExpiresAt: int) | Completed(response: Response, expiresAt: int)

  datatype Row = Row(id: Id, requestHash: nat, progress: Progress)

  /** What a caller that acquired a record goes on with: the ownership, and the hash of its own request. The log also keeps
      the clock of the acquisition, the end of the lease it then has, and whether it inserted or took over the record. */
  datatype Grant = Grant(recordId: Id, owner: Token, requestHash: nat, at: int, until: int, taken: bool)

  /** An operation that committed together with its record. */
  datatype Commit = Commit(scope: Scope, requestHash: nat, response: Response)

  /** `scopes` is the primary-key index of the table. */
  datatype State = State(rows: map<Scope, Row>, scopes: map<Id, Scope>, grants: seq<Grant>, commits: seq<Commit>)

  const EMPTY := State(map[], map[], [], [])

  datatype Acquisition =
    | Acquired | Replay(response: Response)
    | KeyReused | KeyExpired | RequestInProgress | RecordCollision

  datatype AcquireCommand = AcquireCommand(scope: Scope, requestHash: nat, owner: Token, recordId: Id, now: int, lease: nat)

  // ----- acquisition -----

  /** Stored rows of another content type or without an object body cannot be replayed. */
  predicate Replayable(r: Response) {
    (r.contentType == "application/json" || r.contentType == "application/problem+json") && r.bodyIsObject
  }

  function Granted(s: State, id: Id, c: AcquireCommand, until: int, taken: bool): State {
    s.(grants := s.grants + [Grant(id, c.owner, c.requestHash, c.now, until, taken)])
  }

  /** The acquisition transaction: insert or read the row of the scope, then decide on it. */
  function AcquireTx(s: State, c: AcquireCommand): (State, Acquisition) {
    if c.scope !in s.rows then
      if c.recordId in s.scopes then (s, RecordCollision) else
      var row := Row(c.recordId, c.requestHash, InProgress(c.owner, c.now + c.lease));
      (Granted(s.(rows := s.rows[c.scope := row], scopes := s.scopes[c.recordId := c.scope]), c.recordId, c, c.now + c.lease, true),
       Acquired)
    else
      var row := s.rows[c.scope];
      if row.requestHash != c.requestHash then (s, KeyReused) else
      match row.progress
      case Completed(response, expiresAt) =>
        if !Replayable(response) || expiresAt <= c.now then (s, KeyExpired) else (s, Replay(response))
      case InProgress(owner, leaseExpiresAt) =>
        if owner == c.owner then (Granted(s, row.id, c, leaseExpiresAt, false), Acquired)
        else if leaseExpiresAt > c.now then (s, RequestInProgress)
        else
          (Granted(s.(rows := s.rows[c.scope := row.(progress := InProgress(c.owner, c.now + c.lease))]), row.id, c,
                   c.now + c.lease, true),
           Acquired)
  }

  // ----- completion -----

  /** How one attempt of the completing transaction ends, if it finds its row: the operation may fail, the transaction may
      be rolled back by a transient error, and a commit may be reported as such an error. */
  datatype Fate = Commits | CommitsUnreported | RollsBack | OperationFails

  datatype Attempt = Attempt(fate: Fate, response: Response, clock: int)

  datatype Reply = Done(response: Response) | OwnershipLost | Transient | Failed

  predicate Owns(s: State, g: Grant) {
    && g.recordId in s.scopes && s.scopes[g.recordId] in s.rows
    && var row := s.rows[s.scopes[g.recordId]];
       row.id == g.recordId && row.progress.InProgress? && row.progress.owner == g.owner
  }

  function CompleteTx(s: State, g: Grant, a: Attempt, replay: nat): (State, Reply) {
    if !Owns(s, g) then (s, OwnershipLost) else
    var scope := s.scopes[g.recordId];
    var committed := s.(
      rows := s.rows[scope := s.rows[scope].(progress := Completed(a.response, a.clock + replay))],
      commits := s.commits + [Commit(scope, g.requestHash, a.response)]);
    match a.fate
    case Commits => (committed, Done(a.response))
    case CommitsUnreported => (committed, Transient)
    case RollsBack => (s, Transient)
    case OperationFails => (s, Failed)
  }

  // ----- runs: any callers, clocks and tokens, in any interleaving -----

  datatype Step =
    | Acquire(command: AcquireCommand)
    // one attempt of the caller behind a grant, however late
    | Complete(grant: nat, attempt: Attempt, replay: nat)

  function Apply(s: State, step: Step): State {
    match step
    case Acquire(c) => AcquireTx(s, c).0
    case Complete(k, a, replay) => if k < |s.grants| then CompleteTx(s, s.grants[k], a, replay).0 else s
  }

  function Run(s: State, steps: seq<Step>): State {
    if steps == [] then s else Apply(Run(s, steps[..|steps| - 1]), steps[|steps| - 1])
  }

  function Execute(steps: seq<Step>): State { Run(EMPTY, steps) }

  // ----- safety -----

  function CommitsOf(commits: seq<Commit>, scope: Scope): seq<Commit> {
    if commits == [] then [] else
    var n := |commits| - 1;
    CommitsOf(commits[..n], scope) + (if commits[n].scope == scope then [commits[n]] else [])
  }

  lemma CommitsAppend(commits: seq<Commit>, c: Commit, scope: Scope)
    ensures CommitsOf(commits + [c], scope) == CommitsOf(commits, scope) + if c.scope == scope then [c] else []
  {
    assert (commits + [c])[..|commits|] == commits;
  }

  /** The commits of a scope are exactly what its row stores. */
  ghost predicate ScopeOk(s: State, scope: Scope) {
    && (scope in s.rows ==> s.rows[scope].id in s.scopes && s.scopes[s.rows[scope].id] == scope)
    && CommitsOf(s.commits, scope)
         == if scope in s.rows && s.rows[scope].progress.Completed?
            then [Commit(scope, s.rows[scope].requestHash, s.rows[scope].progress.response)] else []
  }

  /** A grant was given for the request hash of its row. */
  ghost predicate GrantOk(s: State, k: nat) {
    k < |s.grants| ==>
      && s.grants[k].recordId in s.scopes && s.scopes[s.grants[k].recordId] in s.rows
      && var row := s.rows[s.scopes[s.grants[k].recordId]];
         row.id == s.grants[k].recordId && row.requestHash == s.grants[k].requestHash
  }

  ghost predicate Consistent(s: State) {
    && (forall scope :: ScopeOk(s, scope)) && (forall k: nat :: GrantOk(s, k))
    && (forall id | id in s.scopes :: s.scopes[id] in s.rows && s.rows[s.scopes[id]].id == id)
  }

  /** What an acquisition may change: its own row, the index, and one grant. */
  ghost predicate AcquireDelta(s: State, c: AcquireCommand, s': State) {
    && s'.commits == s.commits
    && (s'.scopes == s.scopes || (c.scope !in s.rows && c.recordId !in s.scopes && s'.scopes == s.scopes[c.recordId := c.scope]))
    && (s'.rows == s.rows
        || (c.scope in s'.rows && s'.rows == s.rows[c.scope := s'.rows[c.scope]] && s'.rows[c.scope].progress.InProgress?
            && s'.rows[c.scope].requestHash == c.requestHash
            && (if c.scope in s.rows
                then s.rows[c.scope].progress.InProgress? && s.rows[c.scope].id == s'.rows[c.scope].id
                     && s.rows[c.scope].requestHash == c.requestHash && s'.scopes == s.scopes
                else s'.rows[c.scope].id == c.recordId && s'.scopes == s.scopes[c.recordId := c.scope])))
    && (s'.grants == s.grants
        || (c.scope in s'.rows && |s'.grants| == |s.grants| + 1 && s'.grants[..|s.grants|] == s.grants
            && var g := s'.grants[|s.grants|];
               g.recordId == s'.rows[c.scope].id && g.owner == c.owner && g.requestHash == s'.rows[c.scope].requestHash))
    && (c.scope !in s.rows && c.scope !in s'.rows ==> s'.scopes == s.scopes)
  }

  lemma AcquireEffect(s: State, c: AcquireCommand)
    ensures AcquireDelta(s, c, AcquireTx(s, c).0)
  {
  }

  lemma AcquireKeepsScopes(s: State, c: AcquireCommand, s': State)
    requires Consistent(s) && AcquireDelta(s, c, s')
    ensures forall scope :: ScopeOk(s', scope)
    ensures forall id | id in s'.scopes :: s'.scopes[id] in s'.rows && s'.rows[s'.scopes[id]].id == id
  {
    forall scope ensures ScopeOk(s', scope) { assert ScopeOk(s, scope) && ScopeOk(s, c.scope); }
  }

  lemma AcquireKeeps(s: State, c: AcquireCommand)
    requires Consistent(s)
    ensures Consistent(AcquireTx(s, c).0)
  {
    var s' := AcquireTx(s, c).0;
    AcquireEffect(s, c);
    AcquireKeepsScopes(s, c, s');
    assert ScopeOk(s', c.scope);
    forall k: nat ensures GrantOk(s', k) { assert GrantOk(s, k); }
  }

  lemma CompleteKeepsScope(s: State, g: Grant, a: Attempt, replay: nat, scope: Scope)
    requires ScopeOk(s, scope)
    requires Owns(s, g) ==> s.rows[s.scopes[g.recordId]].requestHash == g.requestHash
    ensures ScopeOk(CompleteTx(s, g, a, replay).0, scope)
  {
    if Owns(s, g) { CommitsAppend(s.commits, Commit(s.scopes[g.recordId], g.requestHash, a.response), scope); }
  }

  lemma CompleteKeepsRows(s: State, g: Grant, a: Attempt, replay: nat)
    ensures var s' := CompleteTx(s, g, a, replay).0;
            && s'.scopes == s.scopes && s'.grants == s.grants && s'.rows.Keys == s.rows.Keys
            && forall x | x in s.rows :: s'.rows[x].id == s.rows[x].id && s'.rows[x].requestHash == s.rows[x].requestHash
  {
  }

  lemma CompleteKeeps(s: State, k: nat, a: Attempt, replay: nat)
    requires Consistent(s) && k < |s.grants|
    ensures Consistent(CompleteTx(s, s.grants[k], a, replay).0)
  {
    var s' := CompleteTx(s, s.grants[k], a, replay).0;
    CompleteKeepsRows(s, s.grants[k], a, replay);
    assert GrantOk(s, k);
    forall scope ensures ScopeOk(s', scope) {
      assert ScopeOk(s, scope);
      CompleteKeepsScope(s, s.grants[k], a, replay, scope);
    }
    forall j: nat ensures GrantOk(s', j) { assert GrantOk(s, j); }
  }

  lemma {:induction false} RunIsConsistent(s: State, steps: seq<Step>)
    requires Consistent(s)
    ensures Consistent(Run(s, steps))
    decreases |steps|
  {
    if steps != [] {
      RunIsConsistent(s, steps[..|steps| - 1]);
      var mid := Run(s, steps[..|steps| - 1]);
      match steps[|steps| - 1] {
        case Acquire(c) => AcquireKeeps(mid, c);
        case Complete(k, a, replay) => if k < |mid.grants| { CompleteKeeps(mid, k, a, replay); }
      }
    }
  }

  lemma ExecutionIsConsistent(steps: seq<Step>)
    ensures Consistent(Execute(steps))
  {
    RunIsConsistent(EMPTY, steps);
  }

  /** Per scope at most one operation ever commits, for the request of the record, and the record is completed with
      exactly its response; whatever the clocks, takeovers, retries and late owners. */
  lemma AtMostOneCommit(steps: seq<Step>, scope: Scope)
    ensures var s := Execute(steps);
            && |CommitsOf(s.commits, scope)| <= 1
            && (|CommitsOf(s.commits, scope)| == 1 <==> scope in s.rows && s.rows[scope].progress.Completed?)
            && (forall c | c in CommitsOf(s.commits, scope) ::
                  c.requestHash == s.rows[scope].requestHash && c.response == s.rows[scope].progress.response)
  {
    ExecutionIsConsistent(steps);
    assert ScopeOk(Execute(steps), scope);
  }

  /** A completed record keeps its response and expiry; any record keeps its identity and request hash. */
  ghost predicate RowStays(s: State, s': State, scope: Scope) {
    scope in s.rows ==>
      && scope in s'.rows && s'.rows[scope].id == s.rows[scope].id && s'.rows[scope].requestHash == s.rows[scope].requestHash
      && (s.rows[scope].progress.Completed? ==> s'.rows[scope] == s.rows[scope])
  }

  lemma StepKeepsRow(s: State, step: Step, scope: Scope)
    ensures RowStays(s, Apply(s, step), scope)
  {
  }

  lemma {:induction false} ResponsesAreImmutable(steps: seq<Step>, later: seq<Step>, scope: Scope)
    ensures RowStays(Execute(steps), Execute(steps + later), scope)
    decreases |later|
  {
    if later == [] {
      assert steps + later == steps;
    } else {
      var n := |later| - 1;
      ResponsesAreImmutable(steps, later[..n], scope);
      assert (steps + later)[..|steps| + n] == steps + later[..n];
      assert (steps + later)[|steps| + n] == later[n];
      StepKeepsRow(Execute(steps + later[..n]), later[n], scope);
    }
  }

  /** A replay is the response of the one operation that committed for the scope, for the same request, before its expiry. */
  lemma ReplayIsTheCommit(steps: seq<Step>, c: AcquireCommand, r: Response)
    requires AcquireTx(Execute(steps), c).1 == Replay(r)
    ensures var s := Execute(steps);
            && CommitsOf(s.commits, c.scope) == [Commit(c.scope, c.requestHash, r)]
            && c.scope in s.rows && s.rows[c.scope].progress.Completed? && c.now < s.rows[c.scope].progress.expiresAt
  {
    ExecutionIsConsistent(steps);
    assert ScopeOk(Execute(steps), c.scope);
  }

  /** Once an operation committed, no later acquisition of the scope is granted, however far the clock has moved, and no
      grant of the record completes again: the operation is never executed a second time. */
  lemma NeverExecutedAgain(steps: seq<Step>, later: seq<Step>, scope: Scope, c: AcquireCommand, k: nat, a: Attempt, replay: nat)
    requires |CommitsOf(Execute(steps).commits, scope)| == 1 && c.scope == scope
    ensures var s := Execute(steps + later);
            && scope in s.rows
            && AcquireTx(s, c).1 != Acquired && AcquireTx(s, c).0 == s
            && (k < |s.grants| && s.grants[k].recordId == s.rows[scope].id ==> CompleteTx(s, s.grants[k], a, replay) == (s, OwnershipLost))
  {
    AtMostOneCommit(steps, scope);
    ResponsesAreImmutable(steps, later, scope);
    ExecutionIsConsistent(steps + later);
    assert ScopeOk(Execute(steps + later), scope);
  }

  // ----- who may complete -----

  ghost predicate LastGrant(s: State, id: Id, k: int) {
    && 0 <= k < |s.grants| && s.grants[k].recordId == id
    && forall j | k < j < |s.grants| :: s.grants[j].recordId != id
  }

  /** A record in progress is owned by its latest grant, until the lease end that one logged. */
  ghost predicate OwnedByLatest(s: State, scope: Scope) {
    scope in s.rows && s.rows[scope].progress.InProgress? ==>
      exists k :: LastGrant(s, s.rows[scope].id, k)
        && s.rows[scope].progress == InProgress(s.grants[k].owner, s.grants[k].until)
  }

  lemma AcquireKeepsOwner(s: State, c: AcquireCommand, scope: Scope)
    requires Consistent(s) && OwnedByLatest(s, scope)
    ensures OwnedByLatest(AcquireTx(s, c).0, scope)
  {
    var (s', outcome) := AcquireTx(s, c);
    assert ScopeOk(s, scope) && ScopeOk(s, c.scope);
    if scope == c.scope && outcome == Acquired {
      assert LastGrant(s', s'.rows[scope].id, |s.grants|);
    } else if scope in s.rows && s.rows[scope].progress.InProgress? {
      var k :| LastGrant(s, s.rows[scope].id, k)
        && s.rows[scope].progress == InProgress(s.grants[k].owner, s.grants[k].until);
      assert LastGrant(s', s'.rows[scope].id, k);
    }
  }

  lemma CompleteKeepsOwner(s: State, g: Grant, a: Attempt, replay: nat, scope: Scope)
    requires OwnedByLatest(s, scope)
    ensures OwnedByLatest(CompleteTx(s, g, a, replay).0, scope)
  {
    if scope in s.rows && s.rows[scope].progress.InProgress? {
      var k :| LastGrant(s, s.rows[scope].id, k)
        && s.rows[scope].progress == InProgress(s.grants[k].owner, s.grants[k].until);
      assert LastGrant(CompleteTx(s, g, a, replay).0, s.rows[scope].id, k);
    }
  }

  lemma {:induction false} AlwaysOwnedByLatest(steps: seq<Step>, scope: Scope)
    ensures OwnedByLatest(Execute(steps), scope)
    decreases |steps|
  {
    if steps != [] {
      AlwaysOwnedByLatest(steps[..|steps| - 1], scope);
      var s := Execute(steps[..|steps| - 1]);
      ExecutionIsConsistent(steps[..|steps| - 1]);
      match steps[|steps| - 1] {
        case Acquire(c) => AcquireKeepsOwner(s, c, scope);
        case Complete(k, a, replay) => if k < |s.grants| { CompleteKeepsOwner(s, s.grants[k], a, replay, scope); }
      }
    }
  }

  /** In every reachable state a grant finds its record exactly while the record is in progress and the latest grant of it
      carries the same token: the log of grants alone decides who may still complete. */
  lemma OnlyTheLatestGrantCompletes(steps: seq<Step>, k: nat, a: Attempt, replay: nat)
    requires k < |Execute(steps).grants|
    ensures var s := Execute(steps); var g := s.grants[k];
            && g.recordId in s.scopes && s.scopes[g.recordId] in s.rows
            && (CompleteTx(s, g, a, replay).1 != OwnershipLost <==>
                  && s.rows[s.scopes[g.recordId]].progress.InProgress?
                  && exists j :: LastGrant(s, g.recordId, j) && s.grants[j].owner == g.owner)
  {
    var s := Execute(steps);
    ExecutionIsConsistent(steps);
    assert GrantOk(s, k);
    var scope := s.scopes[s.grants[k].recordId];
    assert ScopeOk(s, scope);
    AlwaysOwnedByLatest(steps, scope);
  }

  // ----- leases -----

  /** The log of one record: leases only move on, and a change of the token happens by an acquisition that took the record
      after every lease logged before. */
  ghost predicate Separated(s: State, i: nat, j: nat) {
    i < j < |s.grants| && s.grants[i].recordId == s.grants[j].recordId ==>
      && s.grants[i].until <= s.grants[j].until
      && (s.grants[i].owner != s.grants[j].owner ==>
            exists k | i < k <= j :: TookAfter(s, k, s.grants[j], s.grants[i].until))
  }

  /** Grant k took the record for the token of g, no earlier than the given time. */
  ghost predicate TookAfter(s: State, k: nat, g: Grant, time: int) {
    && k < |s.grants| && s.grants[k].taken && s.grants[k].recordId == g.recordId && s.grants[k].owner == g.owner
    && s.grants[k].at >= time
  }

  /** The new grant of an acquisition on a record whose latest grant so far is k. */
  lemma NextGrant(s: State, c: AcquireCommand, k: nat)
    requires c.scope in s.rows && LastGrant(s, s.rows[c.scope].id, k)
    requires s.rows[c.scope].progress == InProgress(s.grants[k].owner, s.grants[k].until)
    requires AcquireTx(s, c).1 == Acquired
    ensures var s' := AcquireTx(s, c).0; var n := |s.grants|;
            && |s'.grants| == n + 1 && s'.grants[..n] == s.grants && s'.grants[n].recordId == s.grants[k].recordId
            && s'.grants[n].until >= s.grants[k].until
            && if s'.grants[n].owner == s.grants[k].owner then s'.grants[n].until == s.grants[k].until
               else s'.grants[n].taken && s'.grants[n].at >= s.grants[k].until
  {
  }

  lemma AcquireKeepsSeparated(s: State, c: AcquireCommand, i: nat, j: nat)
    requires Consistent(s) && OwnedByLatest(s, c.scope) && forall x: nat, y: nat :: Separated(s, x, y)
    ensures Separated(AcquireTx(s, c).0, i, j)
  {
    var (s', outcome) := AcquireTx(s, c);
    assert Separated(s, i, j);
    if outcome == Acquired && i < j == |s.grants| && s'.grants[i].recordId == s'.grants[j].recordId {
      assert ScopeOk(s, c.scope) && GrantOk(s, i);
      var k :| LastGrant(s, s.rows[c.scope].id, k)
        && s.rows[c.scope].progress == InProgress(s.grants[k].owner, s.grants[k].until);
      NextGrant(s, c, k);
      SeparatesNext(s, s', i, j, k);
    } else if i < j < |s.grants| && s.grants[i].recordId == s.grants[j].recordId && s.grants[i].owner != s.grants[j].owner {
      var k :| i < k <= j && TookAfter(s, k, s.grants[j], s.grants[i].until);
      assert TookAfter(s', k, s'.grants[j], s'.grants[i].until);
    }
  }

  lemma SeparatesNext(s: State, s': State, i: nat, n: nat, k: nat)
    requires |s'.grants| == n + 1 && n == |s.grants| && s'.grants[..n] == s.grants && i < n
    requires LastGrant(s, s'.grants[n].recordId, k) && s.grants[i].recordId == s'.grants[n].recordId
    requires s'.grants[n].until >= s.grants[k].until
    requires if s'.grants[n].owner == s.grants[k].owner then s'.grants[n].until == s.grants[k].until
             else s'.grants[n].taken && s'.grants[n].at >= s.grants[k].until
    requires Separated(s, i, k)
    ensures Separated(s', i, n)
  {
    if s.grants[i].owner != s'.grants[n].owner {
      if s'.grants[n].owner != s.grants[k].owner {
        assert TookAfter(s', n, s'.grants[n], s'.grants[i].until);
      } else {
        var m :| i < m <= k && TookAfter(s, m, s.grants[k], s.grants[i].until);
        assert TookAfter(s', m, s'.grants[n], s'.grants[i].until);
      }
    }
  }

  /** Over every run, whatever the clocks: two grants of one record with different tokens are separated by a takeover for the
      later token, whose clock is at or after the end of the lease that the earlier grant had. */
  lemma {:induction false} LeasesSeparateGrants(steps: seq<Step>, i: nat, j: nat)
    ensures Separated(Execute(steps), i, j)
    decreases |steps|
  {
    if steps != [] {
      var s := Execute(steps[..|steps| - 1]);
      forall x: nat, y: nat ensures Separated(s, x, y) { LeasesSeparateGrants(steps[..|steps| - 1], x, y); }
      ExecutionIsConsistent(steps[..|steps| - 1]);
      match steps[|steps| - 1] {
        case Acquire(c) =>
          AlwaysOwnedByLatest(steps[..|steps| - 1], c.scope);
          AcquireKeepsSeparated(s, c, i, j);
        case Complete(k, a, replay) => assert Execute(steps).grants == s.grants; SameGrantsSeparated(s, Execute(steps), i, j);
      }
    }
  }

  lemma SameGrantsSeparated(s: State, s': State, i: nat, j: nat)
    requires s'.grants == s.grants && Separated(s, i, j)
    ensures Separated(s', i, j)
  {
    if i < j < |s.grants| && s.grants[i].recordId == s.grants[j].recordId && s.grants[i].owner != s.grants[j].owner {
      var k :| i < k <= j && TookAfter(s, k, s.grants[j], s.grants[i].until);
      assert TookAfter(s', k, s'.grants[j], s'.grants[i].until);
    }
  }

  /** In every reachable state the log of grants decides what the next caller of a scope with a record in progress is told: the
      record, if its token is that of the latest grant or the lease of that grant is over, and otherwise to wait. A scope
      without a record is granted at once. */
  lemma LogDecidesAcquisition(steps: seq<Step>, c: AcquireCommand)
    ensures var s := Execute(steps);
            if c.scope !in s.rows then
              c.recordId !in s.scopes ==>
                AcquireTx(s, c).1 == Acquired && OwnedByLatest(AcquireTx(s, c).0, c.scope)
                && c.scope in AcquireTx(s, c).0.rows && AcquireTx(s, c).0.rows[c.scope].progress == InProgress(c.owner, c.now + c.lease)
            else s.rows[c.scope].requestHash == c.requestHash && s.rows[c.scope].progress.InProgress? ==>
              exists k :: LastGrant(s, s.rows[c.scope].id, k)
                && AcquireTx(s, c).1 ==
                     if s.grants[k].owner == c.owner || s.grants[k].until <= c.now then Acquired else RequestInProgress
  {
    AlwaysOwnedByLatest(steps, c.scope);
    ExecutionIsConsistent(steps);
    AcquireKeepsOwner(Execute(steps), c, c.scope);
  }

  /** The record of the scope is completed, or in progress for this token under this lease. */
  ghost predicate LeasedTo(s: State, scope: Scope, requestHash: nat, token: Token, until: int) {
    && scope in s.rows && s.rows[scope].requestHash == requestHash
    && (s.rows[scope].progress.InProgress? ==> s.rows[scope].progress == InProgress(token, until))
  }

  /** Other callers of the scope come before the lease is over. */
  ghost predicate TooEarly(later: seq<Step>, scope: Scope, token: Token, until: int) {
    forall i | 0 <= i < |later| && later[i].Acquire? && later[i].command.scope == scope && later[i].command.owner != token ::
      later[i].command.now < until
  }

  lemma StepKeepsLease(s: State, step: Step, scope: Scope, requestHash: nat, token: Token, until: int)
    requires LeasedTo(s, scope, requestHash, token, until)
    requires step.Acquire? && step.command.scope == scope && step.command.owner != token ==> step.command.now < until
    ensures LeasedTo(Apply(s, step), scope, requestHash, token, until)
  {
  }

  lemma {:induction false} RunKeepsLease(s: State, later: seq<Step>, scope: Scope, requestHash: nat, token: Token, until: int)
    requires LeasedTo(s, scope, requestHash, token, until) && TooEarly(later, scope, token, until)
    ensures LeasedTo(Run(s, later), scope, requestHash, token, until)
    decreases |later|
  {
    if later != [] {
      var n := |later| - 1;
      RunKeepsLease(s, later[..n], scope, requestHash, token, until);
      StepKeepsLease(Run(s, later[..n]), later[n], scope, requestHash, token, until);
    }
  }

  /** A caller that inserted or took over a record has it to itself for its lease: until then, and whatever happens in
      between, no caller with another token is granted the record, and a repeat of the request is told to wait. */
  lemma LeaseKeepsOthersOut(s: State, c: AcquireCommand, later: seq<Step>, other: AcquireCommand)
    requires AcquireTx(s, c).1 == Acquired && (c.scope in s.rows ==> s.rows[c.scope].progress.owner != c.owner)
    requires TooEarly(later, c.scope, c.owner, c.now + c.lease)
    requires other.scope == c.scope && other.owner != c.owner && other.now < c.now + c.lease
    ensures var t := Run(AcquireTx(s, c).0, later);
            && AcquireTx(t, other).0 == t && AcquireTx(t, other).1 != Acquired
            && c.scope in t.rows
            && (other.requestHash == c.requestHash && t.rows[c.scope].progress.InProgress? ==>
                  AcquireTx(t, other).1 == RequestInProgress)
  {
    RunKeepsLease(AcquireTx(s, c).0, later, c.scope, c.requestHash, c.owner, c.now + c.lease);
  }

  // ----- replays -----

  lemma {:induction false} RunKeepsRow(s: State, later: seq<Step>, scope: Scope)
    ensures RowStays(s, Run(s, later), scope)
    decreases |later|
  {
    if later != [] {
      RunKeepsRow(s, later[..|later| - 1], scope);
      StepKeepsRow(Run(s, later[..|later| - 1]), later[|later| - 1], scope);
    }
  }

  /** After a commit every caller of the scope is answered from the record, whatever happened in between: another request is
      refused, the same one gets the stored response until its expiry, and is refused from then on. */
  lemma CommittedResponseIsReplayed(steps: seq<Step>, k: nat, a: Attempt, replay: nat, later: seq<Step>, c: AcquireCommand)
    requires k < |Execute(steps).grants| && a.fate in {Commits, CommitsUnreported}
    requires CompleteTx(Execute(steps), Execute(steps).grants[k], a, replay).1 != OwnershipLost
    requires Execute(steps).grants[k].recordId in Execute(steps).scopes
    requires c.scope == Execute(steps).scopes[Execute(steps).grants[k].recordId]
    ensures var g := Execute(steps).grants[k]; var t := Run(CompleteTx(Execute(steps), g, a, replay).0, later);
            && AcquireTx(t, c).0 == t
            && var outcome := AcquireTx(t, c).1;
               if c.requestHash != g.requestHash then outcome == KeyReused
               else if a.response.contentType in {"application/json", "application/problem+json"} && a.response.bodyIsObject
                       && c.now < a.clock + replay
               then outcome == Replay(a.response)
               else outcome == KeyExpired
  {
    var s := Execute(steps);
    ExecutionIsConsistent(steps);
    assert GrantOk(s, k);
    RunKeepsRow(CompleteTx(s, s.grants[k], a, replay).0, later, c.scope);
  }

  /** The record of the scope is completed, or in progress for another token. */
  ghost predicate NotOwnedBy(s: State, scope: Scope, id: Id, token: Token) {
    && scope in s.rows && s.rows[scope].id == id && id in s.scopes && s.scopes[id] == scope
    && (s.rows[scope].progress.InProgress? ==> s.rows[scope].progress.owner != token)
  }

  lemma StepKeepsNotOwned(s: State, step: Step, scope: Scope, id: Id, token: Token)
    requires NotOwnedBy(s, scope, id, token)
    requires step.Acquire? && step.command.scope == scope ==> step.command.owner != token
    ensures NotOwnedBy(Apply(s, step), scope, id, token)
  {
  }

  lemma {:induction false} RunKeepsNotOwned(s: State, later: seq<Step>, scope: Scope, id: Id, token: Token)
    requires NotOwnedBy(s, scope, id, token)
    requires forall i | 0 <= i < |later| && later[i].Acquire? && later[i].command.scope == scope ::
               later[i].command.owner != token
    ensures NotOwnedBy(Run(s, later), scope, id, token)
    decreases |later|
  {
    if later != [] {
      var n := |later| - 1;
      RunKeepsNotOwned(s, later[..n], scope, id, token);
      StepKeepsNotOwned(Run(s, later[..n]), later[n], scope, id, token);
    }
  }

  /** In every reachable state a record whose lease is over is granted to any caller with its request hash; and then no
      earlier grant with another token ever completes it, whatever happens later, unless its token is drawn again. */
  lemma TakeoverIsFinal(steps: seq<Step>, c: AcquireCommand, later: seq<Step>, k: nat, a: Attempt, replay: nat)
    requires var s := Execute(steps);
             && c.scope in s.rows && s.rows[c.scope].requestHash == c.requestHash && s.rows[c.scope].progress.InProgress?
             && s.rows[c.scope].progress.leaseExpiresAt <= c.now
             && k < |s.grants| && s.grants[k].recordId == s.rows[c.scope].id && s.grants[k].owner != c.owner
    requires forall i | 0 <= i < |later| && later[i].Acquire? && later[i].command.scope == c.scope ::
               later[i].command.owner != Execute(steps).grants[k].owner
    ensures AcquireTx(Execute(steps), c).1 == Acquired
    ensures var s := Run(AcquireTx(Execute(steps), c).0, later); var g := Execute(steps).grants[k];
            CompleteTx(s, g, a, replay) == (s, OwnershipLost)
  {
    var s := Execute(steps);
    ExecutionIsConsistent(steps);
    assert ScopeOk(s, c.scope);
    RunKeepsNotOwned(AcquireTx(s, c).0, later, c.scope, s.rows[c.scope].id, s.grants[k].owner);
  }

  /** After a takeover by another token the earlier owner's attempts find nothing. */
  lemma StaleOwnerIsFenced(s: State, g: Grant, c: AcquireCommand, a: Attempt, replay: nat)
    requires Consistent(s) && AcquireTx(s, c).1 == Acquired && c.owner != g.owner
    requires c.scope in s.rows && s.rows[c.scope].id == g.recordId
    ensures CompleteTx(AcquireTx(s, c).0, g, a, replay) == (AcquireTx(s, c).0, OwnershipLost)
  {
    assert ScopeOk(s, c.scope);
  }

  // ----- the completion loop -----

  const MAX_TRANSACTION_ATTEMPTS: nat := 3

  /** What other callers do before an attempt, and the attempt. */
  datatype Turn = Turn(others: seq<Step>, attempt: Attempt)

  /** Up to three attempts; only a transient error before the last one is retried. */
  function CompleteLoop(s: State, g: Grant, turns: seq<Turn>, replay: nat): (State, Reply)
    requires turns != []
    decreases |turns|
  {
    var (s', reply) := CompleteTx(Run(s, turns[0].others), g, turns[0].attempt, replay);
    if reply == Transient && |turns| > 1 then CompleteLoop(s', g, turns[1..], replay) else (s', reply)
  }

  /** The loop's caller gets the stored response: if it is told "done", its record is completed with that response. */
  lemma {:induction false} DoneMeansCommitted(s: State, g: Grant, turns: seq<Turn>, replay: nat)
    requires Consistent(s) && turns != [] && exists k: nat :: k < |s.grants| && s.grants[k] == g
    ensures var (s', reply) := CompleteLoop(s, g, turns, replay);
            && Consistent(s')
            && g.recordId in s'.scopes
            && (reply.Done? ==> CommitsOf(s'.commits, s'.scopes[g.recordId]) == [Commit(s'.scopes[g.recordId], g.requestHash, reply.response)])
    decreases |turns|
  {
    var k: nat :| k < |s.grants| && s.grants[k] == g;
    var mid := Run(s, turns[0].others);
    RunIsConsistent(s, turns[0].others);
    GrantsGrow(s, turns[0].others);
    CompleteKeeps(mid, k, turns[0].attempt, replay);
    var (s', reply) := CompleteTx(mid, g, turns[0].attempt, replay);
    assert s'.grants[k] == g && GrantOk(s', k);
    if reply == Transient && |turns| > 1 {
      DoneMeansCommitted(s', g, turns[1..], replay);
    } else {
      assert ScopeOk(s', s'.scopes[g.recordId]);
    }
  }

  /** The first two attempts end the loop unless they meet a transient error; the third ends it in any case. */
  lemma CompletionTriesThrice(s: State, g: Grant, turns: seq<Turn>, replay: nat)
    requires |turns| == MAX_TRANSACTION_ATTEMPTS
    ensures |turns| == 3
    ensures var first := CompleteTx(Run(s, turns[0].others), g, turns[0].attempt, replay);
            CompleteLoop(s, g, turns, replay) ==
              if first.1 != Transient then first else
              var second := CompleteTx(Run(first.0, turns[1].others), g, turns[1].attempt, replay);
              if second.1 != Transient then second else
              CompleteTx(Run(second.0, turns[2].others), g, turns[2].attempt, replay)
  {
    var rest := turns[1..];
    assert rest[0] == turns[1] && rest[1..] == turns[2..];
    var (s1, r1) := CompleteTx(Run(s, turns[0].others), g, turns[0].attempt, replay);
    if r1 == Transient {
      var (s2, r2) := CompleteTx(Run(s1, rest[0].others), g, rest[0].attempt, replay);
      if r2 == Transient { assert CompleteLoop(s1, g, rest, replay) == CompleteLoop(s2, g, turns[2..], replay); }
    }
  }

  lemma {:induction false} GrantsGrow(s: State, steps: seq<Step>)
    ensures s.grants <= Run(s, steps).grants
    decreases |steps|
  {
    if steps != [] { GrantsGrow(s, steps[..|steps| - 1]); }
  }

  class IdempotencyStore {
    var rows: map<Scope, Row>
    var scopes: map<Id, Scope>
    var grants: seq<Grant>
    var commits: seq<Commit>

    constructor ()
      ensures Tables() == EMPTY
    {
      rows, scopes, grants, commits := map[], map[], [], [];
    }

    function Tables(): State
      reads this
    {
      State(rows, scopes, grants, commits)
    }

    method AcquireRecord(c: AcquireCommand) returns (outcome: Acquisition)
      modifies this
      ensures (Tables(), outcome) == AcquireTx(old(Tables()), c)
    {
      if c.scope !in rows {
        if c.recordId in scopes {
          return RecordCollision;
        }
        rows := rows[c.scope := Row(c.recordId, c.requestHash, InProgress(c.owner, c.now + c.lease))];
        scopes := scopes[c.recordId := c.scope];
        grants := grants + [Grant(c.recordId, c.owner, c.requestHash, c.now, c.now + c.lease, true)];
        return Acquired;
      }
      var row := rows[c.scope];
      if row.requestHash != c.requestHash {
        return KeyReused;
      }
      if row.progress.Completed? {
        return if !Replayable(row.progress.response) || row.progress.expiresAt <= c.now then KeyExpired
               else Replay(row.progress.response);
      }
      var until, taken := row.progress.leaseExpiresAt, row.progress.owner != c.owner;
      if taken {
        if until > c.now {
          return RequestInProgress;
        }
        until := c.now + c.lease;
        rows := rows[c.scope := row.(progress := InProgress(c.owner, until))];
      }
      grants := grants + [Grant(row.id, c.owner, c.requestHash, c.now, until, taken)];
      outcome := Acquired;
    }

    /** One transaction of the completion; a rolled-back attempt leaves nothing behind. */
    method CompleteOnce(g: Grant, a: Attempt, replay: nat) returns (reply: Reply)
      modifies `rows, `commits
      ensures (Tables(), reply) == CompleteTx(old(Tables()), g, a, replay)
    {
      if !(g.recordId in scopes && scopes[g.recordId] in rows) {
        return OwnershipLost;
      }
      var scope := scopes[g.recordId];
      var row := rows[scope];
      if row.id != g.recordId || !row.progress.InProgress? || row.progress.owner != g.owner {
        return OwnershipLost;
      }
      match a.fate {
        case OperationFails => return Failed;
        case RollsBack => return Transient;
        case Commits => reply := Done(a.response);
        case CommitsUnreported => reply := Transient;
      }
      rows := rows[scope := row.(progress := Completed(a.response, a.clock + replay))];
      commits := commits + [Commit(scope, g.requestHash, a.response)];
    }

    /** Everything other callers do meanwhile. */
    method Interleave(steps: seq<Step>)
      modifies this
      ensures Tables() == Run(old(Tables()), steps)
    {
      for i := 0 to |steps|
        invariant Tables() == Run(old(Tables()), steps[..i])
      {
        assert steps[..i + 1][..i] == steps[..i];
        match steps[i] {
          case Acquire(c) => var _ := AcquireRecord(c);
          case Complete(k, a, replay) =>
            if k < |grants| {
              var _ := CompleteOnce(grants[k], a, replay);
            }
        }
      }
      assert steps[..|steps|] == steps;
    }

    /** The retry loop of a completion, between which other callers run. */
    method CompleteRecord(g: Grant, turns: seq<Turn>, replay: nat) returns (reply: Reply)
      requires |turns| == MAX_TRANSACTION_ATTEMPTS
      modifies this
      ensures (Tables(), reply) == CompleteLoop(old(Tables()), g, turns, replay)
    {
      var i := 0;
      while true
        invariant 0 <= i < |turns|
        invariant CompleteLoop(old(Tables()), g, turns, replay) == CompleteLoop(Tables(), g, turns[i..], replay)
        decreases |turns| - i
      {
        assert turns[i..][0] == turns[i] && turns[i..][1..] == turns[i + 1..];
        Interleave(turns[i].others);
        reply := CompleteOnce(g, turns[i].attempt, replay);
        if reply != Transient || i + 1 == |turns| {
          return;
        }
        i := i + 1;
      }
    }
  }
}
