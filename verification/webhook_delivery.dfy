/** One webhook delivery: claims with leases, at most seven attempts with evidence, recovery of expired leases. */
module WebhookDelivery {
  import opened Basics
  import opened FullJitter

  // ----- retry schedule and classification -----

  const MAX_ATTEMPTS: nat := 7

  const LEASE: nat := 30000

  function RetryCeiling(nextAttempt: int): Option<nat> {
    match nextAttempt
    case 2 => Some(60000)
    case 3 => Some(300000)
    case 4 => Some(900000)
    case 5 => Some(3600000)
    case 6 => Some(21600000)
    case 7 => Some(86400000)
    case _ => None
  }

  /** Full jitter over the ceiling of the next attempt; nothing after the last attempt. */
  function RetryDelay(nextAttempt: int, sample: real): Option<int> {
    match RetryCeiling(nextAttempt)
    case None => None
    case Some(ceiling) => Some(Jitter(sample, ceiling))
  }

  /** Exactly attempts two to seven have a delay, and it lies between zero and the ceiling whatever the sample. */
  lemma DelayWithinCeiling(nextAttempt: int, sample: real)
    ensures RetryDelay(nextAttempt, sample).Some? <==> 2 <= nextAttempt <= MAX_ATTEMPTS
    ensures RetryDelay(nextAttempt, sample).Some? ==> 0 <= RetryDelay(nextAttempt, sample).value <= RetryCeiling(nextAttempt).value
  {
  }

  datatype TransportCode =
    | ConnectionRefused | ConnectionReset | DestinationProhibited | DnsUnavailable
    | DnsUnresolvable | NetworkError | RequestTimeout | TlsVerificationFailed

  datatype HttpResult = TransportFailure(code: TransportCode) | HttpResponse(statusCode: int)

  datatype Outcome = Delivered | RetryableFailure | NonRetryableFailure | Unknown

  datatype Status = Pending | Retrying | DeliveredStatus | DeadLettered

  predicate RetryableTransport(c: TransportCode) {
    c.ConnectionRefused? || c.ConnectionReset? || c.DnsUnavailable? || c.NetworkError? || c.RequestTimeout?
  }

  function TerminalOrRetrying(attempt: int): Status {
    if attempt >= MAX_ATTEMPTS then DeadLettered else Retrying
  }

  /** The evidence outcome and the status the dispatcher expects for a result. */
  function ClassifyResult(attempt: int, r: HttpResult): (Outcome, Status) {
    match r
    case TransportFailure(code) =>
      if RetryableTransport(code) then (RetryableFailure, TerminalOrRetrying(attempt)) else (NonRetryableFailure, DeadLettered)
    case HttpResponse(status) =>
      if 200 <= status <= 299 then (Delivered, DeliveredStatus)
      else if status == 408 || status == 429 || status >= 500 then (RetryableFailure, TerminalOrRetrying(attempt))
      else (NonRetryableFailure, DeadLettered)
  }

  /** The status the repository writes for an outcome. */
  function FinalStatus(attempt: int, outcome: Outcome): Status {
    if outcome == Delivered then DeliveredStatus
    else if outcome == RetryableFailure && attempt < MAX_ATTEMPTS then Retrying
    else DeadLettered
  }

  predicate Success(result: HttpResult) { result.HttpResponse? && 200 <= result.statusCode <= 299 }

  /** The results that may go away: a request that should be repeated, a failing server, or a connection that broke. */
  predicate Transient(result: HttpResult) {
    match result
    case HttpResponse(status) => status in {408, 429} || status >= 500
    case TransportFailure(code) => code in {ConnectionRefused, ConnectionReset, DnsUnavailable, NetworkError, RequestTimeout}
  }

  /** What attempt n of seven with this result makes of the delivery. */
  function Verdict(n: int, result: HttpResult): Status {
    if Success(result) then DeliveredStatus else if Transient(result) && n < 7 then Retrying else DeadLettered
  }

  /** Dispatcher and repository agree on what a result leads to. */
  lemma ClassificationAgrees(attempt: int, r: HttpResult)
    ensures ClassifyResult(attempt, r).1 == FinalStatus(attempt, ClassifyResult(attempt, r).0) == Verdict(attempt, r)
    ensures ClassifyResult(attempt, r).0 != Unknown
    ensures ClassifyResult(attempt, r).0.Delivered? <==> Success(r)
    ensures ClassifyResult(attempt, r).0.RetryableFailure? <==> Transient(r)
  {
  }

  // ----- the delivery row, its evidence and what workers hold -----

  datatype Lease = Lease(token: nat, expiresAt: int)

  datatype Active = Active(number: nat, startedAt: int, signature: int, current: nat, previous: Option<nat>)

  datatype Evidence = Evidence(number: nat, outcome: Outcome, inactive: bool)

  /** What claimDue returned to a worker. */
  datatype ClaimGrant = ClaimGrant(token: nat, attemptCount: nat)

  /** What startAttempt returned to a worker; it sends at most once for each. */
  datatype StartGrant = StartGrant(token: nat, active: Active, nextAttemptAt: Option<int>)

  datatype Delivery = Delivery(
    status: Status, attemptCount: nat, nextAttemptAt: Option<int>, lease: Option<Lease>, active: Option<Active>,
    evidence: seq<Evidence>, claims: seq<ClaimGrant>, starts: seq<StartGrant>)

  function NewDelivery(now: int): Delivery {
    Delivery(Pending, 0, Some(now), None, None, [], [], [])
  }

  predicate Terminal(d: Delivery) { d.status == DeliveredStatus || d.status == DeadLettered }

  function ClearClaim(d: Delivery): Delivery { d.(lease := None) }

  predicate Due(d: Delivery, now: int) {
    (d.status == Pending || d.status == Retrying) && d.nextAttemptAt.Some? && d.nextAttemptAt.value <= now && d.lease.None?
  }

  /** gen_random_uuid(): a token no earlier claim of the delivery had. */
  function FreshToken(d: Delivery): nat { |d.claims| }

  function ClaimTx(d: Delivery, now: int): Delivery {
    if !Due(d, now) then d else
    d.(lease := Some(Lease(FreshToken(d), now + LEASE)), claims := d.claims + [ClaimGrant(FreshToken(d), d.attemptCount)])
  }

  /** The endpoint as the attempt's transaction sees it, and as the worker loaded it before. */
  datatype EndpointView = EndpointView(active: bool, current: nat, previous: Option<nat>)

  datatype StartReply = OwnershipLost | Inactive(number: nat) | Started(grant: StartGrant)

  /** The argument check in front of the transaction. */
  predicate StartArgumentsInvalid(attemptCount: nat, delay: Option<int>) {
    var expected := attemptCount + 1;
    expected < 1 || expected > MAX_ATTEMPTS || (expected < MAX_ATTEMPTS && delay.None?) || (expected == MAX_ATTEMPTS && delay.Some?)
  }

  predicate Holds(d: Delivery, token: nat, now: int) {
    d.lease.Some? && d.lease.value.token == token && now < d.lease.value.expiresAt
  }

  function StartTx(d: Delivery, g: ClaimGrant, loaded: EndpointView, delay: Option<int>, seen: EndpointView, now: int, later: int)
    : (Delivery, StartReply)
  {
    var expected := g.attemptCount + 1;
    if !(Holds(d, g.token, now) && (d.status == Pending || d.status == Retrying) && d.active.None?) then (d, OwnershipLost)
    else if d.attemptCount != g.attemptCount then (d, OwnershipLost)
    else if !seen.active then
      (d.(attemptCount := expected, lease := None, nextAttemptAt := None, status := DeadLettered,
          evidence := d.evidence + [Evidence(expected, NonRetryableFailure, true)]),
       Inactive(expected))
    else if !loaded.active then (ClearClaim(d), OwnershipLost)
    else if seen.current != loaded.current || (seen.previous.Some? && seen.previous != loaded.previous) then
      (ClearClaim(d), OwnershipLost)
    else if later >= d.lease.value.expiresAt then (d, OwnershipLost)
    else
      var active := Active(expected, later, later / 1000, loaded.current, seen.previous);
      var next := if delay.None? then None else Some(later + delay.value);
      var grant := StartGrant(g.token, active, next);
      (d.(attemptCount := expected, active := Some(active), nextAttemptAt := next, starts := d.starts + [grant]), Started(grant))
  }

  /** Closes the active attempt with evidence. */
  function Close(d: Delivery, outcome: Outcome, status: Status, next: Option<int>): Delivery
    requires d.active.Some?
  {
    d.(active := None, lease := None, status := status, nextAttemptAt := next,
       evidence := d.evidence + [Evidence(d.active.value.number, outcome, false)])
  }

  datatype FinalizeReply = NotUpdated | Updated(status: Status) | RetryWithoutTime

  function FinalizeTx(d: Delivery, g: StartGrant, outcome: Outcome, now: int): (Delivery, FinalizeReply) {
    if !(Holds(d, g.token, now) && d.active.Some? && d.active.value.number == g.active.number) then (d, NotUpdated)
    else if d.attemptCount != g.active.number || d.active.value != g.active then (d, NotUpdated)
    else
      var status := FinalStatus(g.active.number, outcome);
      if status == Retrying && g.nextAttemptAt.None? then (d, RetryWithoutTime) else
      (Close(d, outcome, status, if status == Retrying then g.nextAttemptAt else None), Updated(status))
  }

  function ReleaseTx(d: Delivery, g: ClaimGrant): Delivery {
    if d.lease.Some? && d.lease.value.token == g.token && d.active.None? then ClearClaim(d) else d
  }

  predicate Expired(d: Delivery, now: int) { d.lease.Some? && d.lease.value.expiresAt <= now }

  function RecoverTx(d: Delivery, now: int): Delivery {
    if !Expired(d, now) then d
    else if d.active.None? then ClearClaim(d)
    else if d.active.value.number >= MAX_ATTEMPTS then Close(d, Unknown, DeadLettered, None)
    else Close(d, Unknown, Retrying, d.nextAttemptAt)
  }

  // ----- runs: any clocks, crashes between steps, and late workers -----

  datatype Step =
    | Claim(now: int)
    | Start(claim: nat, loaded: EndpointView, sample: real, seen: EndpointView, now: int, later: int)
    | Finalize(start: nat, result: HttpResult, now: int)
    | Release(claim: nat)
    | Recover(now: int)

  function Apply(d: Delivery, step: Step): Delivery {
    match step
    case Claim(now) => ClaimTx(d, now)
    case Start(k, loaded, sample, seen, now, later) =>
      if k >= |d.claims| then d else
      StartTx(d, d.claims[k], loaded, RetryDelay(d.claims[k].attemptCount + 2, sample), seen, now, later).0
    case Finalize(k, result, now) =>
      if k >= |d.starts| then d else
      FinalizeTx(d, d.starts[k], ClassifyResult(d.starts[k].active.number, result).0, now).0
    case Release(k) => if k >= |d.claims| then d else ReleaseTx(d, d.claims[k])
    case Recover(now) => RecoverTx(d, now)
  }

  function Run(d: Delivery, steps: seq<Step>): Delivery {
    if steps == [] then d else Apply(Run(d, steps[..|steps| - 1]), steps[|steps| - 1])
  }

  // ----- what every step keeps -----

  ghost predicate Numbered(d: Delivery) {
    && (forall i | 0 <= i < |d.evidence| :: d.evidence[i].number == i + 1)
    && (forall i | 0 <= i < |d.starts| :: d.starts[i].active.number == i + 1)
  }

  ghost predicate Counted(d: Delivery) {
    && d.attemptCount == |d.evidence| + (if d.active.Some? then 1 else 0)
    && d.attemptCount <= MAX_ATTEMPTS
    && |d.starts| == d.attemptCount - (if d.evidence != [] && d.evidence[|d.evidence| - 1].inactive then 1 else 0)
  }

  /** Only the last evidence can be final, and it decides the status. */
  ghost predicate Decided(d: Delivery) {
    && (forall i | 0 <= i < |d.evidence| :: (d.evidence[i].inactive ==> d.evidence[i].outcome == NonRetryableFailure)
          && (i < |d.evidence| - 1 || !Terminal(d) ==> d.evidence[i].outcome == RetryableFailure || d.evidence[i].outcome == Unknown))
    && (d.status == Pending ==> d.evidence == [])
    && (d.status == Retrying ==> d.evidence != [])
    && (Terminal(d) ==> d.evidence != [] && (d.status == DeliveredStatus <==> d.evidence[|d.evidence| - 1].outcome == Delivered))
  }

  /** The legal shapes of a row: terminal rows are at rest, waiting rows can be claimed later, active rows are leased. */
  ghost predicate Shaped(d: Delivery) {
    && (Terminal(d) ==> d.lease.None? && d.active.None? && d.nextAttemptAt.None?)
    && (!Terminal(d) && d.active.None? ==> d.nextAttemptAt.Some? && d.attemptCount < MAX_ATTEMPTS)
    && (d.active.Some? ==>
          && d.lease.Some? && d.active.value.number == d.attemptCount >= 1
          && (d.nextAttemptAt.Some? <==> d.attemptCount < MAX_ATTEMPTS)
          && d.starts != [] && d.starts[|d.starts| - 1] == StartGrant(d.lease.value.token, d.active.value, d.nextAttemptAt))
  }

  ghost predicate ClaimsOk(d: Delivery) {
    && (forall k | 0 <= k < |d.claims| :: d.claims[k].token == k && d.claims[k].attemptCount < MAX_ATTEMPTS)
    && (forall k | 0 <= k < |d.starts| :: d.starts[k].nextAttemptAt.Some? <==> d.starts[k].active.number < MAX_ATTEMPTS)
    && (d.lease.Some? ==> d.lease.value.token < |d.claims|)
  }

  ghost predicate DeliveryOk(d: Delivery) {
    Numbered(d) && Counted(d) && Decided(d) && Shaped(d) && ClaimsOk(d)
  }

  /** An inactive endpoint ends the delivery with evidence but without a send. */
  lemma InactiveKeepsOk(d: Delivery, r: Delivery)
    requires DeliveryOk(d) && !Terminal(d) && d.active.None?
    requires r == d.(attemptCount := d.attemptCount + 1, lease := None, nextAttemptAt := None, status := DeadLettered,
                     evidence := d.evidence + [Evidence(d.attemptCount + 1, NonRetryableFailure, true)])
    ensures DeliveryOk(r)
  {
  }

  lemma StartedKeepsOk(d: Delivery, active: Active, next: Option<int>, r: Delivery)
    requires DeliveryOk(d) && !Terminal(d) && d.active.None? && d.lease.Some? && active.number == d.attemptCount + 1
    requires next.Some? <==> active.number < MAX_ATTEMPTS
    requires r == d.(attemptCount := active.number, active := Some(active), nextAttemptAt := next,
                     starts := d.starts + [StartGrant(d.lease.value.token, active, next)])
    ensures DeliveryOk(r)
  {
  }

  lemma StartKeepsOk(d: Delivery, k: nat, loaded: EndpointView, sample: real, seen: EndpointView, now: int, later: int)
    requires DeliveryOk(d) && k < |d.claims|
    ensures DeliveryOk(StartTx(d, d.claims[k], loaded, RetryDelay(d.claims[k].attemptCount + 2, sample), seen, now, later).0)
  {
    DelayWithinCeiling(d.claims[k].attemptCount + 2, sample);
    var (r, reply) := StartTx(d, d.claims[k], loaded, RetryDelay(d.claims[k].attemptCount + 2, sample), seen, now, later);
    match reply
    case Inactive(_) => InactiveKeepsOk(d, r);
    case Started(grant) => StartedKeepsOk(d, grant.active, grant.nextAttemptAt, r);
    case OwnershipLost => assert r == d || r == ClearClaim(d);
  }

  lemma CloseKeepsOk(d: Delivery, outcome: Outcome, status: Status, next: Option<int>)
    requires DeliveryOk(d) && d.active.Some?
    requires if status == Retrying then (outcome == RetryableFailure || outcome == Unknown) && next.Some? && d.attemptCount < MAX_ATTEMPTS
             else next.None? && (status == DeliveredStatus || status == DeadLettered) && (status == DeliveredStatus <==> outcome == Delivered)
    ensures DeliveryOk(Close(d, outcome, status, next))
  {
  }

  lemma ClaimKeepsOk(d: Delivery, now: int)
    requires DeliveryOk(d)
    ensures DeliveryOk(ClaimTx(d, now))
  {
  }

  lemma ReleaseKeepsOk(d: Delivery, g: ClaimGrant)
    requires DeliveryOk(d)
    ensures DeliveryOk(ReleaseTx(d, g))
  {
  }

  lemma ApplyKeepsOk(d: Delivery, step: Step)
    requires DeliveryOk(d)
    ensures DeliveryOk(Apply(d, step))
  {
    match step
    case Claim(now) => ClaimKeepsOk(d, now);
    case Start(k, loaded, sample, seen, now, later) =>
      if k < |d.claims| { StartKeepsOk(d, k, loaded, sample, seen, now, later); }
    case Finalize(k, result, now) =>
      if k < |d.starts| { FinalizeKeepsOk(d, d.starts[k], ClassifyResult(d.starts[k].active.number, result).0, now); }
    case Release(k) => if k < |d.claims| { ReleaseKeepsOk(d, d.claims[k]); }
    case Recover(now) => RecoverKeepsOk(d, now);
  }

  lemma FinalizeKeepsOk(d: Delivery, g: StartGrant, outcome: Outcome, now: int)
    requires DeliveryOk(d) && outcome != Unknown
    ensures DeliveryOk(FinalizeTx(d, g, outcome, now).0)
  {
    var status := FinalStatus(g.active.number, outcome);
    if FinalizeTx(d, g, outcome, now).1.Updated? {
      CloseKeepsOk(d, outcome, status, if status == Retrying then g.nextAttemptAt else None);
    }
  }

  lemma RecoverKeepsOk(d: Delivery, now: int)
    requires DeliveryOk(d)
    ensures DeliveryOk(RecoverTx(d, now))
  {
    if Expired(d, now) && d.active.Some? {
      CloseKeepsOk(d, Unknown, if d.active.value.number >= MAX_ATTEMPTS then DeadLettered else Retrying,
                   if d.active.value.number >= MAX_ATTEMPTS then None else d.nextAttemptAt);
    }
  }

  /** Over any run with crashes and late workers: evidence is numbered 1 to k, the attempt count is k plus one if an attempt
      is active, at most seven sends start, and no row is ever stuck. */
  lemma {:induction false} DeliveryAlwaysOk(created: int, steps: seq<Step>)
    ensures DeliveryOk(Run(NewDelivery(created), steps))
    decreases |steps|
  {
    if steps != [] {
      DeliveryAlwaysOk(created, steps[..|steps| - 1]);
      ApplyKeepsOk(Run(NewDelivery(created), steps[..|steps| - 1]), steps[|steps| - 1]);
    }
  }

  lemma ClaimHasRoom(d: Delivery, k: nat, sample: real)
    requires ClaimsOk(d) && k < |d.claims|
    ensures !StartArgumentsInvalid(d.claims[k].attemptCount, RetryDelay(d.claims[k].attemptCount + 2, sample))
  {
    DelayWithinCeiling(d.claims[k].attemptCount + 2, sample);
  }

  /** A worker that starts an attempt for any claim it was ever given, with the delay of the schedule, passes the check. */
  lemma StartArgumentsAlwaysValid(created: int, steps: seq<Step>, k: nat, sample: real)
    requires k < |Run(NewDelivery(created), steps).claims|
    ensures var count := Run(NewDelivery(created), steps).claims[k].attemptCount;
            !StartArgumentsInvalid(count, RetryDelay(count + 2, sample))
  {
    var d := Run(NewDelivery(created), steps);
    assert ClaimsOk(d) by { DeliveryAlwaysOk(created, steps); }
    ClaimHasRoom(d, k, sample);
  }

  /** Sends: at most seven attempts start, with the distinct numbers 1 to 7. */
  lemma AtMostSevenSends(created: int, steps: seq<Step>)
    ensures var d := Run(NewDelivery(created), steps);
            |d.starts| <= MAX_ATTEMPTS && forall i, j | 0 <= i < j < |d.starts| :: d.starts[i].active.number < d.starts[j].active.number
  {
    DeliveryAlwaysOk(created, steps);
  }

  lemma LastStep(d: Delivery, steps: seq<Step>, later: seq<Step>, n: nat)
    requires |later| == n + 1
    ensures Run(d, steps + later) == Apply(Run(d, steps + later[..n]), later[n])
  {
    assert (steps + later)[..|steps| + n] == steps + later[..n];
  }

  lemma TerminalRests(d: Delivery, step: Step)
    requires Shaped(d) && Terminal(d)
    ensures Apply(d, step) == d
  {
  }

  /** A delivered or dead-lettered row never changes again, whatever late workers do. */
  lemma {:induction false} TerminalIsAbsorbing(created: int, steps: seq<Step>, later: seq<Step>)
    requires Terminal(Run(NewDelivery(created), steps))
    ensures Run(NewDelivery(created), steps + later) == Run(NewDelivery(created), steps)
    decreases |later|
  {
    if later == [] {
      assert steps + later == steps;
    } else {
      var n := |later| - 1;
      TerminalIsAbsorbing(created, steps, later[..n]);
      LastStep(NewDelivery(created), steps, later, n);
      DeliveryAlwaysOk(created, steps);
      TerminalRests(Run(NewDelivery(created), steps), later[n]);
    }
  }

  /** A finalization never finds a retry without a time, and evidence of an attempt that was superseded is never written. */
  lemma FinalizeOnlyOwn(created: int, steps: seq<Step>, k: nat, outcome: Outcome, now: int)
    requires k < |Run(NewDelivery(created), steps).starts|
    ensures var d := Run(NewDelivery(created), steps);
            && !FinalizeTx(d, d.starts[k], outcome, now).1.RetryWithoutTime?
            && (FinalizeTx(d, d.starts[k], outcome, now).1.Updated? <==>
                  k == |d.starts| - 1 && d.active.Some? && d.lease.Some? && now < d.lease.value.expiresAt)
  {
    DeliveryAlwaysOk(created, steps);
  }

  // ----- progress -----

  /** From every row that is not terminal a step leads on: a waiting row can be claimed once it is due, a claimed row can be
      recovered once its lease is over, and a recovered row is terminal or waits with a time again. */
  lemma NoStuckState(created: int, steps: seq<Step>)
    requires !Terminal(Run(NewDelivery(created), steps))
    ensures var d := Run(NewDelivery(created), steps);
            if d.lease.None? then
              && d.nextAttemptAt.Some? && d.attemptCount <= 6
              && forall now | now >= d.nextAttemptAt.value :: ClaimTx(d, now).lease.Some?
            else forall now | now >= d.lease.value.expiresAt ::
              var r := RecoverTx(d, now);
              r.lease.None? && (Terminal(r) || (r.nextAttemptAt.Some? && r.attemptCount <= 6))
              && (d.active.Some? ==> |r.evidence| == |d.evidence| + 1)
  {
    DeliveryAlwaysOk(created, steps);
  }

  /** The starts and the evidence a delivery can still get. */
  function Remaining(d: Delivery): int {
    2 * (MAX_ATTEMPTS - |d.evidence|) - (if d.active.Some? then 1 else 0)
  }

  /** A step that starts an attempt or writes evidence. */
  predicate Progresses(d: Delivery, step: Step) {
    |Apply(d, step).starts| > |d.starts| || |Apply(d, step).evidence| > |d.evidence|
  }

  function ProgressIn(d: Delivery, steps: seq<Step>): nat {
    if steps == [] then 0 else
    var n := |steps| - 1;
    ProgressIn(d, steps[..n]) + (if Progresses(Run(d, steps[..n]), steps[n]) then 1 else 0)
  }

  lemma StepCountsDown(d: Delivery, step: Step)
    requires DeliveryOk(d)
    ensures Remaining(Apply(d, step)) + (if Progresses(d, step) then 1 else 0) <= Remaining(d)
  {
  }

  lemma RemainingIsBounded(d: Delivery)
    requires DeliveryOk(d)
    ensures 0 <= Remaining(d) <= 2 * MAX_ATTEMPTS
    ensures Remaining(d) == 0 ==> Terminal(d)
  {
  }

  /** Along every run, whatever the schedule, each start and each closed attempt uses up one of the fourteen that remain at
      first; when none remains, the delivery is delivered or dead-lettered. */
  lemma {:induction false} EveryRunCountsDown(created: int, steps: seq<Step>, later: seq<Step>)
    ensures var d := Run(NewDelivery(created), steps); var d' := Run(d, later);
            && 0 <= Remaining(d') && Remaining(d') + ProgressIn(d, later) <= Remaining(d) <= 2 * MAX_ATTEMPTS
            && (Remaining(d') == 0 ==> Terminal(d'))
    decreases |later|
  {
    var d := Run(NewDelivery(created), steps);
    DeliveryAlwaysOk(created, steps);
    RemainingIsBounded(d);
    if later != [] {
      var n := |later| - 1;
      var mid := Run(d, later[..n]);
      EveryRunCountsDown(created, steps, later[..n]);
      RunAppend(NewDelivery(created), steps, later[..n]);
      DeliveryAlwaysOk(created, steps + later[..n]);
      StepCountsDown(mid, later[n]);
      ApplyKeepsOk(mid, later[n]);
      RemainingIsBounded(Apply(mid, later[n]));
    }
  }

  /** One round of a crashing worker: due, claimed, started against an unchanged endpoint, never finalized, recovered. */
  function CrashRound(d: Delivery, view: EndpointView): seq<Step>
    requires d.nextAttemptAt.Some?
  {
    var t := d.nextAttemptAt.value;
    [Claim(t), Start(|d.claims|, view, 0.5, view, t, t), Recover(t + LEASE)]
  }

  lemma RunThree(d: Delivery, a: Step, b: Step, c: Step)
    ensures Run(d, [a, b, c]) == Apply(Apply(Apply(d, a), b), c)
  {
    assert [a, b, c][..2] == [a, b] && [a, b][..1] == [a] && [a][..0] == [];
    assert Run(d, [a, b]) == Apply(Run(d, [a]), b);
    assert Run(d, [a]) == Apply(d, a);
  }

  lemma {:induction false} RunAppend(d: Delivery, a: seq<Step>, b: seq<Step>)
    ensures Run(d, a + b) == Run(Run(d, a), b)
    decreases |b|
  {
    if b == [] {
      assert a + b == a;
    } else {
      assert (a + b)[..|a + b| - 1] == a + b[..|b| - 1];
      RunAppend(d, a, b[..|b| - 1]);
    }
  }

  /** The claim and the start of a crashing round. */
  lemma CrashRoundStarts(d: Delivery, view: EndpointView)
    requires DeliveryOk(d) && !Terminal(d) && d.lease.None? && view.active
    ensures d.nextAttemptAt.Some?
    ensures var round := CrashRound(d, view); var b := Apply(Apply(d, round[0]), round[1]);
            DeliveryOk(b) && b.active.Some? && b.attemptCount == d.attemptCount + 1 && |b.starts| == |d.starts| + 1
            && b.lease.Some? && b.lease.value.expiresAt == d.nextAttemptAt.value + LEASE
            && b.active.value.number == b.attemptCount
  {
    var t := d.nextAttemptAt.value;
    var a := ClaimTx(d, t);
    assert Due(d, t);
    assert a.claims[|d.claims|] == ClaimGrant(|d.claims|, d.attemptCount);
    assert DeliveryOk(Apply(a, CrashRound(d, view)[1])) by {
      ApplyKeepsOk(d, CrashRound(d, view)[0]);
      ApplyKeepsOk(a, CrashRound(d, view)[1]);
    }
  }

  lemma RecoveryCounts(b: Delivery, now: int)
    requires DeliveryOk(b) && b.active.Some? && Expired(b, now)
    ensures var r := RecoverTx(b, now);
            DeliveryOk(r) && r.lease.None? && r.attemptCount == b.attemptCount && r.starts == b.starts
            && (Terminal(r) <==> r.attemptCount == MAX_ATTEMPTS)
  {
    RecoverKeepsOk(b, now);
  }

  lemma CrashRoundAdvances(d: Delivery, view: EndpointView)
    requires DeliveryOk(d) && !Terminal(d) && d.lease.None? && view.active
    ensures d.nextAttemptAt.Some?
    ensures var r := Run(d, CrashRound(d, view));
            DeliveryOk(r) && r.lease.None? && r.attemptCount == d.attemptCount + 1 && |r.starts| == |d.starts| + 1
            && (Terminal(r) <==> r.attemptCount == MAX_ATTEMPTS)
  {
    CrashRoundStarts(d, view);
    var round := CrashRound(d, view);
    var b := Apply(Apply(d, round[0]), round[1]);
    RunThree(d, round[0], round[1], round[2]);
    RecoveryCounts(b, d.nextAttemptAt.value + LEASE);
    assert Apply(b, round[2]) == RecoverTx(b, d.nextAttemptAt.value + LEASE);
  }

  /** Even a worker that crashes in every attempt brings the delivery to dead_lettered after the remaining attempts. */
  lemma {:induction false} CrashingWorkerTerminates(d: Delivery, view: EndpointView) returns (steps: seq<Step>)
    requires DeliveryOk(d) && !Terminal(d) && d.lease.None? && view.active
    ensures Terminal(Run(d, steps)) && |Run(d, steps).evidence| == MAX_ATTEMPTS
    decreases MAX_ATTEMPTS - d.attemptCount
  {
    CrashRoundAdvances(d, view);
    steps := CrashRound(d, view);
    var r := Run(d, steps);
    if !Terminal(r) {
      var rest := CrashingWorkerTerminates(r, view);
      RunAppend(d, steps, rest);
      steps := steps + rest;
    }
  }

  // ----- signing -----

  datatype Signing = Sign(current: nat, previous: Option<nat>) | DependencyUnavailable

  /** What the dispatcher signs with after a start, from the secrets it decrypted before. */
  function ChooseSigning(loaded: EndpointView, attempt: Active): Signing {
    var current := if loaded.active then Some(loaded.current) else None;
    var previous := if loaded.active then loaded.previous else None;
    if current != Some(attempt.current) then DependencyUnavailable
    else
      var selected := if previous == attempt.previous then previous else None;
      if attempt.previous.Some? && selected.None? then DependencyUnavailable
      else Sign(attempt.current, selected)
  }

  /** Once an attempt has started, the dispatcher signs with exactly the recorded versions: both branches that give up after
      a start are unreachable. */
  lemma StartedIsSignable(d: Delivery, g: ClaimGrant, loaded: EndpointView, delay: Option<int>, seen: EndpointView, now: int, later: int)
    requires StartTx(d, g, loaded, delay, seen, now, later).1.Started?
    ensures var attempt := StartTx(d, g, loaded, delay, seen, now, later).1.grant.active;
            && ChooseSigning(loaded, attempt) == Sign(attempt.current, attempt.previous)
            && attempt.current == seen.current && attempt.previous == seen.previous
  {
  }

  // ----- the dispatcher -----

  datatype ClaimResult = LostOwnership | DependencyMissing | Finished(status: Status)

  /** What a worker meets while it processes one claim: the context it loads (if it still can), whether the keyring decrypts,
      the jitter sample, the endpoint and clocks of the start, the HTTP result and the clock of the finalization. */
  datatype Circumstances = Circumstances(
    loaded: Option<EndpointView>, keyringWorks: bool, sample: real, seen: EndpointView, startNow: int, startLater: int,
    result: HttpResult, finalizeNow: int)

  function ProcessTx(d: Delivery, g: ClaimGrant, w: Circumstances): (Delivery, ClaimResult) {
    if w.loaded.None? then (d, LostOwnership)
    else if w.loaded.value.active && !w.keyringWorks then (ReleaseTx(d, g), DependencyMissing)
    else
      var (s, reply) := StartTx(d, g, w.loaded.value, RetryDelay(g.attemptCount + 2, w.sample), w.seen, w.startNow, w.startLater);
      match reply
      case OwnershipLost => (s, LostOwnership)
      case Inactive(_) => (s, Finished(DeadLettered))
      case Started(grant) =>
        if ChooseSigning(w.loaded.value, grant.active) == DependencyUnavailable then (s, DependencyMissing) else
        var (f, updated) := FinalizeTx(s, grant, ClassifyResult(grant.active.number, w.result).0, w.finalizeNow);
        match updated
        case Updated(status) => (f, Finished(status))
        case _ => (f, LostOwnership)
  }

  lemma StartShows(d: Delivery, g: ClaimGrant, loaded: EndpointView, delay: Option<int>, seen: EndpointView, now: int, later: int)
    ensures var (s, reply) := StartTx(d, g, loaded, delay, seen, now, later);
            && (reply.Started? ==> s.evidence == d.evidence)
            && (reply.Inactive? ==> s.status == DeadLettered && s.lease.None? && |s.evidence| == |d.evidence| + 1)
  {
  }

  lemma FinalizeShows(s: Delivery, g: StartGrant, outcome: Outcome, now: int)
    requires DeliveryOk(s) && outcome != Unknown
    ensures DeliveryOk(FinalizeTx(s, g, outcome, now).0)
    ensures var (f, updated) := FinalizeTx(s, g, outcome, now);
            updated.Updated? ==> f.status == updated.status && f.lease.None? && |f.evidence| == |s.evidence| + 1
  {
    FinalizeKeepsOk(s, g, outcome, now);
  }

  /** Processing a genuine claim keeps the row legal, reports a missing dependency only for a failed decryption before the
      start, and reports the status the row then has. */
  lemma ProcessingIsSound(d: Delivery, k: nat, w: Circumstances)
    requires DeliveryOk(d) && k < |d.claims|
    ensures var (r, result) := ProcessTx(d, d.claims[k], w);
            && DeliveryOk(r)
            && (result == DependencyMissing <==> w.loaded.Some? && w.loaded.value.active && !w.keyringWorks)
            && (result.Finished? ==> r.status == result.status && r.lease.None? && |r.evidence| == |d.evidence| + 1)
  {
    if w.loaded.Some? && !(w.loaded.value.active && !w.keyringWorks) {
      var delay := RetryDelay(d.claims[k].attemptCount + 2, w.sample);
      var (s, reply) := StartTx(d, d.claims[k], w.loaded.value, delay, w.seen, w.startNow, w.startLater);
      assert DeliveryOk(s) by { StartKeepsOk(d, k, w.loaded.value, w.sample, w.seen, w.startNow, w.startLater); }
      StartShows(d, d.claims[k], w.loaded.value, delay, w.seen, w.startNow, w.startLater);
      if reply.Started? {
        StartedIsSignable(d, d.claims[k], w.loaded.value, delay, w.seen, w.startNow, w.startLater);
        FinalizeShows(s, reply.grant, ClassifyResult(reply.grant.active.number, w.result).0, w.finalizeNow);
      }
    }
  }

  // ----- the table in place -----

  class DeliveryStore {
    var deliveries: map<Id, Delivery>

    constructor ()
      ensures deliveries == map[]
    {
      deliveries := map[];
    }

    method Schedule(id: Id, now: int)
      requires id !in deliveries
      modifies this
      ensures deliveries == old(deliveries)[id := NewDelivery(now)]
    {
      deliveries := deliveries[id := NewDelivery(now)];
    }

    /** Claims the due rows its query locked, each with a fresh token. */
    method ClaimDue(ids: seq<Id>, now: int) returns (grants: seq<ClaimGrant>)
      requires forall i | 0 <= i < |ids| :: ids[i] in deliveries && Due(deliveries[ids[i]], now)
      requires forall i, j | 0 <= i < j < |ids| :: ids[i] != ids[j]
      modifies this
      ensures deliveries.Keys == old(deliveries).Keys
      ensures forall id | id in deliveries ::
                deliveries[id] == if id in ids then ClaimTx(old(deliveries)[id], now) else old(deliveries)[id]
      ensures |grants| == |ids| && forall i | 0 <= i < |ids| :: deliveries[ids[i]].claims == old(deliveries)[ids[i]].claims + [grants[i]]
    {
      grants := [];
      ghost var before := deliveries;
      for k := 0 to |ids|
        invariant deliveries.Keys == before.Keys
        invariant forall id | id in deliveries ::
                    deliveries[id] == if id in ids[..k] then ClaimTx(before[id], now) else before[id]
        invariant |grants| == k && forall i | 0 <= i < k :: ClaimTx(before[ids[i]], now).claims == before[ids[i]].claims + [grants[i]]
      {
        var id := ids[k];
        assert ids[..k + 1] == ids[..k] + [id] && id !in ids[..k];
        deliveries := deliveries[id := ClaimTx(deliveries[id], now)];
        grants := grants + [deliveries[id].claims[|deliveries[id].claims| - 1]];
      }
      assert ids[..|ids|] == ids;
    }

    method ReleaseUnstarted(id: Id, g: ClaimGrant)
      requires id in deliveries
      modifies this
      ensures deliveries == old(deliveries)[id := ReleaseTx(old(deliveries)[id], g)]
    {
      var d := deliveries[id];
      if d.lease.Some? && d.lease.value.token == g.token && d.active.None? {
        deliveries := deliveries[id := ClearClaim(d)];
      }
    }

    /** One claim from load to finalization. */
    method ProcessClaim(id: Id, k: nat, w: Circumstances) returns (result: ClaimResult)
      requires id in deliveries && DeliveryOk(deliveries[id]) && k < |deliveries[id].claims|
      modifies this
      ensures id in deliveries
      ensures (deliveries[id], result) == ProcessTx(old(deliveries)[id], old(deliveries)[id].claims[k], w)
      ensures deliveries == old(deliveries)[id := deliveries[id]]
    {
      var claim := deliveries[id].claims[k];
      if w.loaded.None? {
        return LostOwnership;
      }
      if w.loaded.value.active && !w.keyringWorks {
        ReleaseUnstarted(id, claim);
        return DependencyMissing;
      }
      DelayWithinCeiling(claim.attemptCount + 2, w.sample);
      var reply := StartAttempt(id, claim, w.loaded.value, RetryDelay(claim.attemptCount + 2, w.sample), w.seen, w.startNow, w.startLater);
      match reply {
        case OwnershipLost => return LostOwnership;
        case Inactive(_) => return Finished(DeadLettered);
        case Started(grant) =>
          var signing := ChooseSigning(w.loaded.value, grant.active);
          assert signing != DependencyUnavailable;
          var outcome := ClassifyResult(grant.active.number, w.result).0;
          var finalized := FinalizeAttempt(id, grant, outcome, w.finalizeNow);
          return if finalized.Updated? then Finished(finalized.status) else LostOwnership;
      }
    }

    method StartAttempt(id: Id, g: ClaimGrant, loaded: EndpointView, delay: Option<int>, seen: EndpointView, now: int, later: int)
      returns (reply: StartReply)
      requires id in deliveries && !StartArgumentsInvalid(g.attemptCount, delay)
      modifies this
      ensures id in deliveries
      ensures (deliveries[id], reply) == StartTx(old(deliveries)[id], g, loaded, delay, seen, now, later)
      ensures deliveries == old(deliveries)[id := deliveries[id]]
    {
      var d := deliveries[id];
      if !Holds(d, g.token, now) || Terminal(d) || d.active.Some? || d.attemptCount != g.attemptCount {
        return OwnershipLost;
      }
      var expected := g.attemptCount + 1;
      if !seen.active {
        d := d.(attemptCount := expected, lease := None, nextAttemptAt := None, status := DeadLettered,
                evidence := d.evidence + [Evidence(expected, NonRetryableFailure, true)]);
        deliveries := deliveries[id := d];
        return Inactive(expected);
      }
      if !loaded.active || seen.current != loaded.current || (seen.previous.Some? && seen.previous != loaded.previous) {
        deliveries := deliveries[id := ClearClaim(d)];
        return OwnershipLost;
      }
      if later >= d.lease.value.expiresAt {
        return OwnershipLost;
      }
      var active := Active(expected, later, later / 1000, loaded.current, seen.previous);
      var next := if delay.None? then None else Some(later + delay.value);
      var grant := StartGrant(g.token, active, next);
      deliveries := deliveries[id := d.(attemptCount := expected, active := Some(active), nextAttemptAt := next,
                                        starts := d.starts + [grant])];
      reply := Started(grant);
    }

    method FinalizeAttempt(id: Id, g: StartGrant, outcome: Outcome, now: int) returns (reply: FinalizeReply)
      requires id in deliveries
      modifies this
      ensures id in deliveries
      ensures (deliveries[id], reply) == FinalizeTx(old(deliveries)[id], g, outcome, now)
      ensures deliveries == old(deliveries)[id := deliveries[id]]
    {
      var d := deliveries[id];
      if !Holds(d, g.token, now) || d.active.None? || d.attemptCount != g.active.number || d.active.value != g.active {
        return NotUpdated;
      }
      var status := FinalStatus(g.active.number, outcome);
      if status == Retrying && g.nextAttemptAt.None? {
        return RetryWithoutTime;
      }
      deliveries := deliveries[id := Close(d, outcome, status, if status == Retrying then g.nextAttemptAt else None)];
      reply := Updated(status);
    }

    /** Recovers the expired leases its query locked, counting what it did. */
    method RecoverExpired(ids: seq<Id>, now: int) returns (clearedUnstarted: nat, deadLettered: nat, recoveredUnknown: nat)
      requires forall i | 0 <= i < |ids| :: ids[i] in deliveries && Expired(deliveries[ids[i]], now)
      requires forall i, j | 0 <= i < j < |ids| :: ids[i] != ids[j]
      modifies this
      ensures deliveries.Keys == old(deliveries).Keys
      ensures forall id | id in deliveries ::
                deliveries[id] == if id in ids then RecoverTx(old(deliveries)[id], now) else old(deliveries)[id]
      ensures clearedUnstarted + recoveredUnknown == |ids|
      ensures recoveredUnknown == CountActive(old(deliveries), ids, 1)
      ensures deadLettered == CountActive(old(deliveries), ids, MAX_ATTEMPTS)
    {
      clearedUnstarted, deadLettered, recoveredUnknown := 0, 0, 0;
      ghost var before := deliveries;
      for k := 0 to |ids|
        invariant deliveries.Keys == before.Keys
        invariant forall id | id in deliveries ::
                    deliveries[id] == if id in ids[..k] then RecoverTx(before[id], now) else before[id]
        invariant clearedUnstarted + recoveredUnknown == k
        invariant recoveredUnknown == CountActive(before, ids[..k], 1)
        invariant deadLettered == CountActive(before, ids[..k], MAX_ATTEMPTS)
      {
        var id := ids[k];
        assert ids[..k + 1] == ids[..k] + [id] && id !in ids[..k];
        var d := deliveries[id];
        deliveries := deliveries[id := RecoverTx(d, now)];
        if d.active.None? {
          clearedUnstarted := clearedUnstarted + 1;
        } else {
          recoveredUnknown := recoveredUnknown + 1;
          if d.active.value.number >= MAX_ATTEMPTS {
            deadLettered := deadLettered + 1;
          }
        }
      }
      assert ids[..|ids|] == ids;
    }
  }

  /** How many of the rows have an active attempt numbered at least n. */
  function CountActive(deliveries: map<Id, Delivery>, ids: seq<Id>, n: nat): nat {
    if ids == [] then 0 else
    var k := |ids| - 1;
    CountActive(deliveries, ids[..k], n)
    + (if ids[k] in deliveries && deliveries[ids[k]].active.Some? && (n <= 1 || deliveries[ids[k]].active.value.number >= n) then 1 else 0)
  }
}
