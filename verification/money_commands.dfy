/** Money commands behind idempotency keys: an operation commits in the transaction that completes its record. */
module MoneyCommands {
  import opened Basics
  import Idempotency
  import Ledger
  import MoneyInvariant
  import MoneySettlement
  import MoneyState
  import MoneyTheorems

  type Key = Idempotency.Scope

  /** The canonical request behind a request hash; the merchant is part of the key. */
  datatype Request =
    | Create(externalRef: string, initial: Amount, currency: Currency)
    | Capture(paymentId: Id, amount: int, currency: Currency)
    | Refund(paymentId: Id, externalRef: string, amount: int, currency: Currency)
    | Settle(currency: Currency, cutoff: int)

  /** What one attempt draws and meets: identifiers, the clock of its transaction, the rows a settlement run selects beside
      what others keep locked, and the rendered result. */
  datatype Draw = Draw(objectId: Id, batchId: Id, ledgerId: Id, eventId: Id, time: int,
                       locked: set<Id>, rows: seq<Id>, adjustmentRows: seq<Id>, body: string, reference: string)

  function StepOf(merchant: Id, r: Request, d: Draw): MoneyState.Step {
    match r
    case Create(externalRef, initial, currency) =>
      MoneyState.Create(MoneyState.CreateCommand(merchant, externalRef, initial, currency, d.objectId, d.eventId))
    case Capture(paymentId, amount, currency) =>
      MoneyState.Step.Capture(MoneyState.CaptureCommand(merchant, paymentId, amount, currency, d.ledgerId, d.eventId, d.time))
    case Refund(paymentId, externalRef, amount, currency) =>
      MoneyState.Step.Refund(MoneyState.RefundCommand(merchant, paymentId, externalRef, amount, currency,
                                                      d.objectId, d.ledgerId, d.eventId, d.time))
    case Settle(currency, cutoff) =>
      MoneyState.Settle(MoneyState.RunCommand(merchant, currency, cutoff, d.objectId, d.batchId, d.ledgerId, d.eventId),
                        d.locked, d.rows, d.adjustmentRows)
  }

  function Answer(r: Request, d: Draw): Idempotency.Response {
    Idempotency.Response(if r.Capture? then 200 else 201, "application/json", true, d.body, Some(d.reference))
  }

  /** The stored problem of a business failure, or of a declined provider execution. */
  function Problem(failure: Option<MoneyState.Failure>, body: string): Idempotency.Response {
    var status :=
      match failure
      case None => 422
      case Some(f) => if f.PaymentIntentNotFound? then 404 else if f.CurrencyMismatch? then 422 else 409;
    Idempotency.Response(status, "application/problem+json", true, body, None)
  }

  /** The failures that the operation itself answers with a stored problem; all others roll the transaction back. */
  predicate AnsweredInPlace(f: MoneyState.Failure) {
    || f.PaymentIntentNotFound? || f.CurrencyMismatch? || f.PaymentIntentNotCapturable? || f.CaptureAmountMismatch?
    || f.PaymentIntentNotRefundable? || f.RefundAmountExceedsAvailable?
  }

  /** A transaction that changed the money tables, with the key of its command unless it is the worker's. */
  datatype Entry = Entry(key: Option<Key>, step: MoneyState.Step)

  /** `posted` names, for every posting of the journal, the key under which it was made. */
  datatype State = State(money: MoneyState.State, keys: Idempotency.State, trace: seq<Entry>, posted: seq<Key>)

  const EMPTY := State(MoneyState.EMPTY_STATE, Idempotency.EMPTY, [], [])

  datatype Step =
    // provisioning and the projection, which no key guards
    | Background(step: MoneyState.Step)
    | Acquire(command: Idempotency.AcquireCommand)
    // one attempt of the caller behind a grant, with its own draw, however late and however often
    | Attempt(grant: nat, draw: Draw, fate: Idempotency.Fate, clock: int, replay: nat)
    // the separate transaction that stores a problem
    | Reject(grant: nat, failure: Option<MoneyState.Failure>, body: string, fate: Idempotency.Fate, clock: int, replay: nat)

  predicate Commits(fate: Idempotency.Fate) { fate.Commits? || fate.CommitsUnreported? }

  /** Completes the record of a grant without touching money. */
  function Store(s: State, g: Idempotency.Grant, response: Idempotency.Response, fate: Idempotency.Fate,
                 clock: int, replay: nat): State
  {
    s.(keys := Idempotency.CompleteTx(s.keys, g, Idempotency.Attempt(fate, response, clock), replay).0)
  }

  /** The operation and the completion of its record in one transaction. */
  ghost function Operate(s: State, g: Idempotency.Grant, r: Request, d: Draw, fate: Idempotency.Fate,
                         clock: int, replay: nat): State
  {
    if !Idempotency.Owns(s.keys, g) then s else
    var key := s.keys.scopes[g.recordId];
    var step := StepOf(key.merchant, r, d);
    match MoneyState.Attempt(s.money, step)
    case Err(f) => if AnsweredInPlace(f) then Store(s, g, Problem(Some(f), d.body), fate, clock, replay) else s
    case Ok(money) =>
      if !Commits(fate) then s else
      State(money, Store(s, g, Answer(r, d), fate, clock, replay).keys, s.trace + [Entry(Some(key), step)],
            s.posted + if |money.journal| > |s.money.journal| then [key] else [])
  }

  /** `meaning` gives the canonical request of a request hash. */
  ghost function Apply(s: State, step: Step, meaning: nat -> Request): State {
    match step
    case Background(m) =>
      if (m.Provision? || m.Deliver?) && MoneyState.Attempt(s.money, m).Ok?
      then s.(money := MoneyState.Apply(s.money, m), trace := s.trace + [Entry(None, m)])
      else s
    case Acquire(c) => s.(keys := Idempotency.AcquireTx(s.keys, c).0)
    case Attempt(k, d, fate, clock, replay) =>
      if k < |s.keys.grants|
      then Operate(s, s.keys.grants[k], meaning(s.keys.grants[k].requestHash), d, fate, clock, replay)
      else s
    case Reject(k, failure, body, fate, clock, replay) =>
      if k < |s.keys.grants| then Store(s, s.keys.grants[k], Problem(failure, body), fate, clock, replay) else s
  }

  ghost function Run(s: State, steps: seq<Step>, meaning: nat -> Request): State {
    if steps == [] then s else Apply(Run(s, steps[..|steps| - 1], meaning), steps[|steps| - 1], meaning)
  }

  ghost function Execute(steps: seq<Step>, meaning: nat -> Request): State { Run(EMPTY, steps, meaning) }

  // ----- both halves run as they do alone -----

  /** Every step is at most one step of the idempotency records. */
  lemma KeysStep(s: State, step: Step, meaning: nat -> Request) returns (ks: seq<Idempotency.Step>)
    ensures Apply(s, step, meaning).keys == Idempotency.Run(s.keys, ks)
  {
    ks := [];
    if Apply(s, step, meaning).keys != s.keys {
      match step
      case Acquire(c) => ks := [Idempotency.Acquire(c)];
      case Attempt(k, d, fate, clock, replay) =>
        var g := s.keys.grants[k];
        var r := meaning(g.requestHash);
        var outcome := MoneyState.Attempt(s.money, StepOf(s.keys.scopes[g.recordId].merchant, r, d));
        var response := if outcome.Ok? then Answer(r, d) else Problem(Some(outcome.error), d.body);
        ks := [Idempotency.Complete(k, Idempotency.Attempt(fate, response, clock), replay)];
      case Reject(k, failure, body, fate, clock, replay) =>
        ks := [Idempotency.Complete(k, Idempotency.Attempt(fate, Problem(failure, body), clock), replay)];
      assert ks[..0] == [] && Idempotency.Run(s.keys, ks) == Idempotency.Apply(s.keys, ks[0]);
    }
  }

  lemma {:induction false} KeysAppend(s: Idempotency.State, a: seq<Idempotency.Step>, b: seq<Idempotency.Step>)
    ensures Idempotency.Run(s, a + b) == Idempotency.Run(Idempotency.Run(s, a), b)
    decreases |b|
  {
    if b == [] {
      assert a + b == a;
    } else {
      assert (a + b)[..|a + b| - 1] == a + b[..|b| - 1];
      KeysAppend(s, a, b[..|b| - 1]);
    }
  }

  lemma {:induction false} KeysRun(s: State, steps: seq<Step>, meaning: nat -> Request) returns (ks: seq<Idempotency.Step>)
    ensures Run(s, steps, meaning).keys == Idempotency.Run(s.keys, ks)
    decreases |steps|
  {
    ks := [];
    if steps != [] {
      var n := |steps| - 1;
      var before := KeysRun(s, steps[..n], meaning);
      var last := KeysStep(Run(s, steps[..n], meaning), steps[n], meaning);
      KeysAppend(s.keys, before, last);
      ks := before + last;
    }
  }

  function StepsOf(trace: seq<Entry>): (r: seq<MoneyState.Step>)
    ensures |r| == |trace|
  {
    seq(|trace|, i requires 0 <= i < |trace| => trace[i].step)
  }

  lemma TraceAppend(trace: seq<Entry>, e: Entry)
    ensures MoneyState.Execute(StepsOf(trace + [e])) == MoneyState.Apply(MoneyState.Execute(StepsOf(trace)), e.step)
  {
    assert StepsOf(trace + [e]) == StepsOf(trace) + [e.step] && StepsOf(trace) + [] == StepsOf(trace);
    MoneyState.LastStep(StepsOf(trace), [e.step], 0);
  }

  // ----- what a money transaction posts -----

  /** The posting of a request: its kind, its currency, and for a capture or refund its amount. */
  ghost predicate Answers(r: Request, merchant: Id, p: Ledger.Posting) {
    && p.merchant == merchant
    && match r
       case Create(_, _, _) => false
       case Capture(paymentId, amount, currency) =>
         p.business == Ledger.Capture && p.reference == paymentId && p.currency == currency
         && Ledger.BuildCaptureEntries(amount, currency) == Ok(p.entries)
       case Refund(_, _, amount, currency) =>
         p.business == Ledger.Refund && p.currency == currency && Ledger.BuildRefundEntries(amount, currency) == Ok(p.entries)
       case Settle(currency, _) => p.business == Ledger.Settlement && p.currency == currency
  }

  ghost predicate PostsFor(r: Request, merchant: Id, before: Ledger.Journal, after: Ledger.Journal) {
    after == before || exists p :: after == before + [p] && Answers(r, merchant, p)
  }

  lemma CapturePosts(s: MoneyState.State, merchant: Id, r: Request, d: Draw, s': MoneyState.State)
    requires r.Capture? && MoneyState.Attempt(s, StepOf(merchant, r, d)) == Ok(s')
    ensures PostsFor(r, merchant, s.journal, s'.journal)
  {
    var c := StepOf(merchant, r, d).capture;
    MoneyInvariant.CaptureEffect(s, c);
    assert Answers(r, merchant, MoneyInvariant.CapturePosting(c, r.currency));
  }

  lemma RefundPosts(s: MoneyState.State, merchant: Id, r: Request, d: Draw, s': MoneyState.State)
    requires MoneyInvariant.PaymentsOk(s) && r.Refund? && MoneyState.Attempt(s, StepOf(merchant, r, d)) == Ok(s')
    ensures PostsFor(r, merchant, s.journal, s'.journal)
  {
    var c := StepOf(merchant, r, d).refund;
    MoneyInvariant.RefundEffect(s, c);
    assert Answers(r, merchant, MoneyInvariant.RefundPosting(c, r.currency));
  }

  lemma SettlePosts(s: MoneyState.State, merchant: Id, r: Request, d: Draw, s': MoneyState.State)
    requires r.Settle? && MoneyState.Attempt(s, StepOf(merchant, r, d)) == Ok(s')
    ensures PostsFor(r, merchant, s.journal, s'.journal)
  {
    var c := StepOf(merchant, r, d).run;
    var plan := MoneyState.PlanRun(s, c, d.rows, d.adjustmentRows).value;
    if !plan.Noop() {
      MoneySettlement.SettlePlanEffect(s, c, plan);
      assert Answers(r, merchant, MoneySettlement.SettlementPosting(c, plan));
    }
  }

  lemma CommandPosts(s: MoneyState.State, merchant: Id, r: Request, d: Draw, s': MoneyState.State)
    requires MoneyInvariant.PaymentsOk(s) && MoneyState.Attempt(s, StepOf(merchant, r, d)) == Ok(s')
    ensures PostsFor(r, merchant, s.journal, s'.journal)
  {
    match r
    case Create(_, _, _) =>
    case Capture(_, _, _) => CapturePosts(s, merchant, r, d, s');
    case Refund(_, _, _, _) => RefundPosts(s, merchant, r, d, s');
    case Settle(_, _) => SettlePosts(s, merchant, r, d, s');
  }

  // ----- what every step keeps -----

  predicate Succeeded(keys: Idempotency.State, key: Key) {
    key in keys.rows && keys.rows[key].progress.Completed? && keys.rows[key].progress.response.status < 400
  }

  ghost predicate InTrace(s: State, key: Key, i: nat) { i < |s.trace| && s.trace[i].key == Some(key) }

  /** A key has its one effect exactly if its record is completed with a success. */
  ghost predicate KeyOk(s: State, key: Key) {
    && (Succeeded(s.keys, key) <==> exists i: nat :: InTrace(s, key, i))
    && (forall i: nat, j: nat | InTrace(s, key, i) && InTrace(s, key, j) :: i == j)
  }

  /** Posting i answers the request of the key it was made under, which has no other posting. */
  ghost predicate PostingOk(s: State, i: nat, meaning: nat -> Request) {
    i < |s.posted| && i < |s.money.journal| ==>
      && Succeeded(s.keys, s.posted[i])
      && Answers(meaning(s.keys.rows[s.posted[i]].requestHash), s.posted[i].merchant, s.money.journal[i])
      && (forall j | 0 <= j < |s.posted| && j != i :: s.posted[j] != s.posted[i])
  }

  ghost predicate Consistent(s: State, meaning: nat -> Request) {
    && Idempotency.Consistent(s.keys) && s.money == MoneyState.Execute(StepsOf(s.trace))
    && |s.posted| == |s.money.journal|
    && (forall key :: KeyOk(s, key)) && (forall i: nat :: PostingOk(s, i, meaning))
  }

  lemma KeysKept(s: State, s': State, meaning: nat -> Request)
    requires Consistent(s, meaning) && Idempotency.Consistent(s'.keys)
    requires s'.money == s.money && s'.trace == s.trace && s'.posted == s.posted
    requires forall key :: Succeeded(s'.keys, key) == Succeeded(s.keys, key)
    requires forall key :: Idempotency.RowStays(s.keys, s'.keys, key)
    ensures Consistent(s', meaning)
  {
    forall key ensures KeyOk(s', key) {
      assert KeyOk(s, key);
      forall i: nat ensures InTrace(s', key, i) == InTrace(s, key, i) {}
    }
    forall i: nat ensures PostingOk(s', i, meaning) {
      assert PostingOk(s, i, meaning);
      if i < |s.posted| { assert Idempotency.RowStays(s.keys, s'.keys, s.posted[i]); }
    }
  }

  lemma AcquireKeeps(s: State, c: Idempotency.AcquireCommand, meaning: nat -> Request)
    requires Consistent(s, meaning)
    ensures Consistent(Apply(s, Acquire(c), meaning), meaning)
  {
    var s' := Apply(s, Acquire(c), meaning);
    Idempotency.AcquireKeeps(s.keys, c);
    forall key ensures Idempotency.RowStays(s.keys, s'.keys, key) {
      Idempotency.StepKeepsRow(s.keys, Idempotency.Acquire(c), key);
    }
    KeysKept(s, s', meaning);
  }

  lemma StoreKeeps(s: State, k: nat, response: Idempotency.Response, fate: Idempotency.Fate, clock: int, replay: nat,
                   meaning: nat -> Request)
    requires Consistent(s, meaning) && k < |s.keys.grants| && response.status >= 400
    ensures Consistent(Store(s, s.keys.grants[k], response, fate, clock, replay), meaning)
  {
    var s' := Store(s, s.keys.grants[k], response, fate, clock, replay);
    var a := Idempotency.Attempt(fate, response, clock);
    Idempotency.CompleteKeeps(s.keys, k, a, replay);
    forall key ensures Idempotency.RowStays(s.keys, s'.keys, key) {
      Idempotency.StepKeepsRow(s.keys, Idempotency.Complete(k, a, replay), key);
    }
    KeysKept(s, s', meaning);
  }

  lemma BackgroundKeeps(s: State, m: MoneyState.Step, meaning: nat -> Request)
    requires Consistent(s, meaning)
    ensures Consistent(Apply(s, Background(m), meaning), meaning)
  {
    var s' := Apply(s, Background(m), meaning);
    if s' != s {
      TraceAppend(s.trace, Entry(None, m));
      MoneySettlement.ExecutionKeepsRows(StepsOf(s.trace));
      if m.Deliver? { MoneySettlement.ProjectionAlwaysCommits(s.money, m.event); }
      forall key ensures KeyOk(s', key) {
        assert KeyOk(s, key);
        forall i: nat ensures InTrace(s', key, i) == InTrace(s, key, i) {}
      }
      forall i: nat ensures PostingOk(s', i, meaning) { assert PostingOk(s, i, meaning); }
    }
  }

  /** What a committing operation changes. */
  ghost predicate OperateDelta(s: State, k: nat, r: Request, d: Draw, s': State) {
    && k < |s.keys.grants| && Idempotency.Owns(s.keys, s.keys.grants[k])
    && var key := s.keys.scopes[s.keys.grants[k].recordId];
       && MoneyState.Attempt(s.money, StepOf(key.merchant, r, d)) == Ok(s'.money)
       && s'.trace == s.trace + [Entry(Some(key), StepOf(key.merchant, r, d))]
       && s'.posted == s.posted + (if |s'.money.journal| > |s.money.journal| then [key] else [])
       && !Succeeded(s.keys, key) && key in s.keys.rows
       && s'.keys.rows.Keys == s.keys.rows.Keys && Succeeded(s'.keys, key)
       && s'.keys.rows[key].requestHash == s.keys.rows[key].requestHash
       && (forall x | x in s.keys.rows && x != key :: s'.keys.rows[x] == s.keys.rows[x])
  }

  lemma OperateEffect(s: State, k: nat, r: Request, d: Draw, fate: Idempotency.Fate, clock: int, replay: nat)
    requires k < |s.keys.grants| && Idempotency.Owns(s.keys, s.keys.grants[k]) && Commits(fate)
    requires MoneyState.Attempt(s.money, StepOf(s.keys.scopes[s.keys.grants[k].recordId].merchant, r, d)).Ok?
    ensures OperateDelta(s, k, r, d, Operate(s, s.keys.grants[k], r, d, fate, clock, replay))
  {
  }

  lemma OperateKeepsKeys(s: State, k: nat, r: Request, d: Draw, s': State)
    requires OperateDelta(s, k, r, d, s') && forall key :: KeyOk(s, key)
    ensures forall key :: KeyOk(s', key)
  {
    var own := s.keys.scopes[s.keys.grants[k].recordId];
    forall key ensures KeyOk(s', key) {
      assert KeyOk(s, key);
      var n: nat := |s.trace|;
      forall i: nat ensures InTrace(s', key, i) <==> InTrace(s, key, i) || (key == own && i == n) {}
      if key == own { assert InTrace(s', key, n); } else { assert Succeeded(s'.keys, key) == Succeeded(s.keys, key); }
    }
  }

  lemma OperateKeepsPostings(s: State, k: nat, r: Request, d: Draw, s': State, meaning: nat -> Request)
    requires OperateDelta(s, k, r, d, s') && |s.posted| == |s.money.journal| && forall i: nat :: PostingOk(s, i, meaning)
    requires var key := s.keys.scopes[s.keys.grants[k].recordId];
             PostsFor(r, key.merchant, s.money.journal, s'.money.journal) && r == meaning(s.keys.rows[key].requestHash)
    ensures |s'.posted| == |s'.money.journal| && forall i: nat :: PostingOk(s', i, meaning)
  {
    var key := s.keys.scopes[s.keys.grants[k].recordId];
    forall i | 0 <= i < |s.posted| ensures s.posted[i] != key { assert PostingOk(s, i, meaning); }
    forall i: nat ensures PostingOk(s', i, meaning) { assert PostingOk(s, i, meaning); }
  }

  lemma AttemptKeeps(s: State, k: nat, d: Draw, fate: Idempotency.Fate, clock: int, replay: nat, meaning: nat -> Request)
    requires Consistent(s, meaning) && k < |s.keys.grants|
    ensures Consistent(Operate(s, s.keys.grants[k], meaning(s.keys.grants[k].requestHash), d, fate, clock, replay), meaning)
  {
    var g := s.keys.grants[k];
    var r := meaning(g.requestHash);
    var s' := Operate(s, g, r, d, fate, clock, replay);
    if s' != s {
      var key := s.keys.scopes[g.recordId];
      var step := StepOf(key.merchant, r, d);
      match MoneyState.Attempt(s.money, step) {
        case Err(f) => StoreKeeps(s, k, Problem(Some(f), d.body), fate, clock, replay, meaning);
        case Ok(money) =>
          OperateEffect(s, k, r, d, fate, clock, replay);
          Idempotency.CompleteKeeps(s.keys, k, Idempotency.Attempt(fate, Answer(r, d), clock), replay);
          TraceAppend(s.trace, Entry(Some(key), step));
          MoneySettlement.ExecutionKeepsRows(StepsOf(s.trace));
          CommandPosts(s.money, key.merchant, r, d, money);
          assert Idempotency.GrantOk(s.keys, k);
          OperateKeepsKeys(s, k, r, d, s');
          OperateKeepsPostings(s, k, r, d, s', meaning);
      }
    }
  }

  lemma ApplyKeeps(s: State, step: Step, meaning: nat -> Request)
    requires Consistent(s, meaning)
    ensures Consistent(Apply(s, step, meaning), meaning)
  {
    match step
    case Background(m) => BackgroundKeeps(s, m, meaning);
    case Acquire(c) => AcquireKeeps(s, c, meaning);
    case Attempt(k, d, fate, clock, replay) => if k < |s.keys.grants| { AttemptKeeps(s, k, d, fate, clock, replay, meaning); }
    case Reject(k, failure, body, fate, clock, replay) =>
      if k < |s.keys.grants| { StoreKeeps(s, k, Problem(failure, body), fate, clock, replay, meaning); }
  }

  lemma {:induction false} AlwaysConsistent(steps: seq<Step>, meaning: nat -> Request)
    ensures Consistent(Execute(steps, meaning), meaning)
    decreases |steps|
  {
    if steps == [] {
      forall key ensures KeyOk(EMPTY, key) {}
      forall i: nat ensures PostingOk(EMPTY, i, meaning) {}
      assert StepsOf([]) == [];
    } else {
      AlwaysConsistent(steps[..|steps| - 1], meaning);
      ApplyKeeps(Execute(steps[..|steps| - 1], meaning), steps[|steps| - 1], meaning);
    }
  }

  // ----- results -----

  /** One key, at most one effect: over every interleaving of callers, retries, takeovers, collisions and crashes, the money
      tables are those of a run of the money core in which no key appears twice, and a key appears exactly if its record is
      completed with a success. */
  lemma OneKeyOneEffect(steps: seq<Step>, meaning: nat -> Request, key: Key)
    ensures var s := Execute(steps, meaning);
            && s.money == MoneyState.Execute(StepsOf(s.trace))
            && (Succeeded(s.keys, key) <==> exists i: nat :: InTrace(s, key, i))
            && (forall i: nat, j: nat | InTrace(s, key, i) && InTrace(s, key, j) :: i == j)
  {
    AlwaysConsistent(steps, meaning);
    assert KeyOk(Execute(steps, meaning), key);
  }

  /** One key, at most one posting: the postings of the journal belong to different keys, each completed with a success, and
      each posting has the merchant, kind, currency and amount of its key's request. */
  lemma OneKeyOnePosting(steps: seq<Step>, meaning: nat -> Request)
    ensures var s := Execute(steps, meaning);
            && |s.posted| == |s.money.journal|
            && (forall i, j | 0 <= i < j < |s.posted| :: s.posted[i] != s.posted[j])
            && (forall i | 0 <= i < |s.posted| ::
                  && Succeeded(s.keys, s.posted[i])
                  && Answers(meaning(s.keys.rows[s.posted[i]].requestHash), s.posted[i].merchant, s.money.journal[i]))
  {
    var s := Execute(steps, meaning);
    AlwaysConsistent(steps, meaning);
    forall i | 0 <= i < |s.posted|
      ensures Succeeded(s.keys, s.posted[i])
      ensures Answers(meaning(s.keys.rows[s.posted[i]].requestHash), s.posted[i].merchant, s.money.journal[i])
      ensures forall j | 0 <= j < |s.posted| && j != i :: s.posted[j] != s.posted[i]
    {
      assert PostingOk(s, i, meaning);
    }
  }

  lemma {:induction false} RunAppend(s: State, a: seq<Step>, b: seq<Step>, meaning: nat -> Request)
    ensures Run(s, a + b, meaning) == Run(Run(s, a, meaning), b, meaning)
    decreases |b|
  {
    if b == [] {
      assert a + b == a;
    } else {
      assert (a + b)[..|a + b| - 1] == a + b[..|b| - 1];
      RunAppend(s, a, b[..|b| - 1], meaning);
    }
  }

  lemma {:induction false} TraceGrows(s: State, steps: seq<Step>, meaning: nat -> Request)
    ensures s.trace <= Run(s, steps, meaning).trace
    decreases |steps|
  {
    if steps != [] { TraceGrows(s, steps[..|steps| - 1], meaning); }
  }

  /** Once a key is answered, with a success or with a problem, no later step ever moves money under it. */
  lemma AnsweredKeyIsClosed(steps: seq<Step>, later: seq<Step>, meaning: nat -> Request, key: Key)
    requires var keys := Execute(steps, meaning).keys; key in keys.rows && keys.rows[key].progress.Completed?
    ensures var s, s' := Execute(steps, meaning), Execute(steps + later, meaning);
            && s.trace <= s'.trace && key in s'.keys.rows && s'.keys.rows[key] == s.keys.rows[key]
            && forall i: nat | |s.trace| <= i :: !InTrace(s', key, i)
  {
    var s, s' := Execute(steps, meaning), Execute(steps + later, meaning);
    RunAppend(EMPTY, steps, later, meaning);
    TraceGrows(s, later, meaning);
    var before := KeysRun(EMPTY, steps, meaning);
    var more := KeysRun(s, later, meaning);
    KeysAppend(Idempotency.EMPTY, before, more);
    Idempotency.ResponsesAreImmutable(before, more, key);
    OneKeyOneEffect(steps, meaning, key);
    OneKeyOneEffect(steps + later, meaning, key);
    if Succeeded(s.keys, key) {
      var i: nat :| InTrace(s, key, i);
      assert InTrace(s', key, i);
    }
  }

  // ----- what a key is answered with -----

  /** The problem that the tables call for, if any: an unknown payment, another currency, or an amount that cannot be captured
      or refunded. */
  ghost function ProblemStatus(s: MoneyState.State, merchant: Id, r: Request): Option<int> {
    if r.Create? || r.Settle? then None
    else if !MoneyTheorems.Known(s, merchant, r.paymentId) then Some(404)
    else
      var x := s.payments[r.paymentId];
      if x.currency != r.currency then Some(422)
      else if r.Capture? then if x.captured > 0 || x.amount != r.amount then Some(409) else None
      else if x.captured <= x.refunded || r.amount > x.captured - x.refunded then Some(409) else None
  }

  /** An outcome is a problem to be answered exactly if the tables call for one, and with that status. */
  ghost predicate AnswersProblem(status: Option<int>, outcome: Result<MoneyState.State, MoneyState.Failure>) {
    match status
    case Some(n) => outcome.Err? && AnsweredInPlace(outcome.error) && Problem(Some(outcome.error), "").status == n
    case None => outcome.Err? ==> !AnsweredInPlace(outcome.error)
  }

  lemma CaptureProblems(s: MoneyState.State, merchant: Id, r: Request, d: Draw)
    requires r.Capture? && MoneyInvariant.PaymentsOk(s)
    ensures AnswersProblem(ProblemStatus(s, merchant, r), MoneyState.CaptureTx(s, StepOf(merchant, r, d).capture))
  {
    assert MoneyInvariant.PaymentRow(s, r.paymentId);
  }

  lemma RefundProblems(s: MoneyState.State, merchant: Id, r: Request, d: Draw)
    requires r.Refund? && MoneyInvariant.PaymentsOk(s)
    ensures AnswersProblem(ProblemStatus(s, merchant, r), MoneyState.RefundTx(s, StepOf(merchant, r, d).refund))
  {
    assert MoneyInvariant.PaymentRow(s, r.paymentId);
  }

  lemma CreateProblems(s: MoneyState.State, c: MoneyState.CreateCommand)
    ensures AnswersProblem(None, MoneyState.CreateTx(s, c))
  {
  }

  lemma SettlePlanProblems(s: MoneyState.State, c: MoneyState.RunCommand, plan: MoneyState.Plan)
    requires MoneyState.Open(s, plan.items)
    ensures AnswersProblem(None, MoneyState.SettlePlan(s, c, plan))
  {
    var entries := Ledger.BuildSettlementEntries(plan.Gross(), plan.fee, plan.Net(), c.currency);
    if entries.Ok? {
      var posted := MoneyState.Post(s, Ledger.Posting(c.ledgerId, c.merchant, c.currency, Ledger.Settlement, c.batchId, entries.value, None));
      assert posted.Err? ==> posted.error.LedgerFailure?;
      if posted.Ok? { PersistProblems(posted.value, c, plan); }
    }
  }

  lemma PersistProblems(s: MoneyState.State, c: MoneyState.RunCommand, plan: MoneyState.Plan)
    requires MoneyState.Open(s, plan.items)
    ensures AnswersProblem(None, MoneyState.Persist(s, c, plan))
  {
  }

  lemma SettleProblems(s: MoneyState.State, c: MoneyState.RunCommand, rows: seq<Id>, adjustmentRows: seq<Id>)
    requires forall a | a in adjustmentRows :: a in s.adjustments
    ensures AnswersProblem(None, MoneyState.RunTx(s, c, rows, adjustmentRows))
  {
    var plan := MoneyState.PlanRun(s, c, rows, adjustmentRows);
    if plan.Ok? { SettlePlanProblems(s, c, plan.value); }
  }

  lemma OtherProblems(s: MoneyState.State, merchant: Id, r: Request, d: Draw)
    requires r.Create? || r.Settle?
    ensures AnswersProblem(None, MoneyState.Attempt(s, StepOf(merchant, r, d)))
  {
    match StepOf(merchant, r, d)
    case Create(c) => CreateProblems(s, c);
    case Settle(c, locked, rows, adjustmentRows) =>
      if MoneySettlement.Selected(s, c, locked, rows, adjustmentRows) { SettleProblems(s, c, rows, adjustmentRows); }
    case _ =>
  }

  lemma ProblemsAreAnswered(s: MoneyState.State, merchant: Id, r: Request, d: Draw)
    requires MoneyInvariant.PaymentsOk(s)
    ensures AnswersProblem(ProblemStatus(s, merchant, r), MoneyState.Attempt(s, StepOf(merchant, r, d)))
  {
    if r.Capture? { CaptureProblems(s, merchant, r, d); } else if r.Refund? { RefundProblems(s, merchant, r, d); }
    else { OtherProblems(s, merchant, r, d); }
  }

  /** Over every interleaving, an attempt whose caller still owns its record and whose transaction commits completes the record
      exactly if the tables call for a problem, which is stored with its status while no money moves, or if the command
      commits, which is stored as 200 for a capture and 201 otherwise; else nothing changes and the record stays open. */
  lemma AttemptIsAnswered(steps: seq<Step>, meaning: nat -> Request, k: nat, d: Draw, fate: Idempotency.Fate, clock: int, replay: nat)
    requires var s := Execute(steps, meaning);
             k < |s.keys.grants| && Idempotency.Owns(s.keys, s.keys.grants[k]) && Commits(fate)
    ensures var s := Execute(steps, meaning); var s' := Apply(s, Attempt(k, d, fate, clock, replay), meaning);
            var key, r := s.keys.scopes[s.keys.grants[k].recordId], meaning(s.keys.grants[k].requestHash);
            && key in s'.keys.rows
            && match ProblemStatus(s.money, key.merchant, r)
               case Some(status) =>
                 && s'.money == s.money && s'.posted == s.posted
                 && s'.keys.rows[key].progress
                      == Idempotency.Completed(Idempotency.Response(status, "application/problem+json", true, d.body, None), clock + replay)
               case None =>
                 if MoneyState.Attempt(s.money, StepOf(key.merchant, r, d)).Ok? then
                   && s'.money == MoneyState.Apply(s.money, StepOf(key.merchant, r, d))
                   && s'.keys.rows[key].progress
                        == Idempotency.Completed(Idempotency.Response(if r.Capture? then 200 else 201, "application/json", true,
                                                                      d.body, Some(d.reference)), clock + replay)
                 else s' == s
  {
    var s := Execute(steps, meaning);
    AlwaysConsistent(steps, meaning);
    var key := s.keys.scopes[s.keys.grants[k].recordId];
    MoneySettlement.ExecutionKeepsRows(StepsOf(s.trace));
    ProblemsAreAnswered(s.money, key.merchant, meaning(s.keys.grants[k].requestHash), d);
  }

  /** The separate transaction stores the problem of a used reference or of a declined execution, and moves no money. */
  lemma RejectionIsAnswered(steps: seq<Step>, meaning: nat -> Request, k: nat, failure: Option<MoneyState.Failure>, body: string,
                            fate: Idempotency.Fate, clock: int, replay: nat)
    requires failure in {None, Some(MoneyState.ExternalReferenceConflict), Some(MoneyState.RefundExternalReferenceConflict)}
    requires var s := Execute(steps, meaning);
             k < |s.keys.grants| && Idempotency.Owns(s.keys, s.keys.grants[k]) && Commits(fate)
    ensures var s := Execute(steps, meaning); var s' := Apply(s, Reject(k, failure, body, fate, clock, replay), meaning);
            var key := s.keys.scopes[s.keys.grants[k].recordId];
            && s'.money == s.money && s'.posted == s.posted && key in s'.keys.rows
            && s'.keys.rows[key].progress
                 == Idempotency.Completed(Idempotency.Response(if failure.None? then 422 else 409, "application/problem+json",
                                                               true, body, None), clock + replay)
  {
  }

  /** The scope has no record, or one in progress for the request whose lease is over. */
  ghost predicate OpenFor(keys: Idempotency.State, c: Idempotency.AcquireCommand) {
    if c.scope in keys.rows then
      && keys.rows[c.scope].requestHash == c.requestHash && keys.rows[c.scope].progress.InProgress?
      && keys.rows[c.scope].progress.leaseExpiresAt <= c.now
    else c.recordId !in keys.scopes
  }

  lemma OpenKeyIsGranted(keys: Idempotency.State, c: Idempotency.AcquireCommand)
    requires Idempotency.ScopeOk(keys, c.scope) && OpenFor(keys, c)
    ensures var keys', k := Idempotency.AcquireTx(keys, c).0, |keys.grants|;
            && |keys'.grants| == k + 1 && Idempotency.Owns(keys', keys'.grants[k])
            && keys'.scopes[keys'.grants[k].recordId] == c.scope && keys'.grants[k].requestHash == c.requestHash
            && c.scope in keys'.rows && keys'.rows[c.scope].progress.InProgress?
  {
  }

  lemma LastSteps(steps: seq<Step>, a: Step, b: Step, meaning: nat -> Request)
    ensures Execute(steps + [a], meaning) == Apply(Execute(steps, meaning), a, meaning)
    ensures Execute(steps + [a, b], meaning) == Apply(Execute(steps + [a], meaning), b, meaning)
  {
    assert (steps + [a])[..|steps|] == steps;
    assert (steps + [a, b])[..|steps| + 1] == steps + [a];
  }

  /** No key is stuck: in every reachable state a caller of a key that is not answered and not leased is granted it, and its
      first undisturbed attempt answers it for good, with the problem the tables call for or with the effect of the command
      if it commits; otherwise the key stays open. */
  lemma OpenKeyCanBeAnswered(steps: seq<Step>, meaning: nat -> Request, c: Idempotency.AcquireCommand, d: Draw, clock: int, replay: nat)
    requires OpenFor(Execute(steps, meaning).keys, c)
    ensures var s := Execute(steps, meaning); var k, r := |s.keys.grants|, meaning(c.requestHash);
            var t := Execute(steps + [Acquire(c), Attempt(k, d, Idempotency.Commits, clock, replay)], meaning);
            && c.scope in t.keys.rows
            && match ProblemStatus(s.money, c.scope.merchant, r)
               case Some(status) =>
                 && t.money == s.money
                 && t.keys.rows[c.scope].progress
                      == Idempotency.Completed(Idempotency.Response(status, "application/problem+json", true, d.body, None), clock + replay)
               case None =>
                 if MoneyState.Attempt(s.money, StepOf(c.scope.merchant, r, d)).Ok? then
                   && t.money == MoneyState.Apply(s.money, StepOf(c.scope.merchant, r, d)) && Succeeded(t.keys, c.scope)
                 else t.money == s.money && t.keys.rows[c.scope].progress.InProgress?
  {
    var s := Execute(steps, meaning);
    var k := |s.keys.grants|;
    AlwaysConsistent(steps, meaning);
    assert Idempotency.ScopeOk(s.keys, c.scope);
    OpenKeyIsGranted(s.keys, c);
    LastSteps(steps, Acquire(c), Attempt(k, d, Idempotency.Commits, clock, replay), meaning);
    AttemptIsAnswered(steps + [Acquire(c)], meaning, k, d, Idempotency.Commits, clock, replay);
  }
}
