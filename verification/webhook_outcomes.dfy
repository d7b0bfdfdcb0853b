/** What becomes of a webhook delivery: who may start an attempt and when, and what each result leads to. */
module WebhookOutcomes {
  import opened Basics
  import opened FullJitter
  import opened WebhookDelivery

  // ----- results -----

  lemma FinalizeMeans(d: Delivery, k: nat, result: HttpResult, now: int)
    requires DeliveryOk(d) && k < |d.starts| && Apply(d, Finalize(k, result, now)) != d
    ensures var d', n := Apply(d, Finalize(k, result, now)), d.starts[k].active.number;
            && d'.status == Verdict(n, result) && d'.lease.None? && d'.active.None?
            && d'.nextAttemptAt == (if Verdict(n, result) == Retrying then d.starts[k].nextAttemptAt else None)
            && d'.attemptCount == d.attemptCount == n && d'.starts == d.starts && d'.claims == d.claims
            && d'.evidence == d.evidence + [Evidence(n, if Success(result) then Delivered else
                                                        if Transient(result) then RetryableFailure else NonRetryableFailure, false)]
  {
  }

  /** Over every run: a finalization that closes attempt n makes the delivery delivered exactly for the statuses 200 to 299,
      retrying at the time its start planned exactly for a transient result before the seventh attempt, and dead-lettered
      otherwise; the evidence says which. */
  lemma ResultDecides(created: int, steps: seq<Step>, k: nat, result: HttpResult, now: int)
    requires k < |Run(NewDelivery(created), steps).starts|
    requires Apply(Run(NewDelivery(created), steps), Finalize(k, result, now)) != Run(NewDelivery(created), steps)
    ensures var d := Run(NewDelivery(created), steps); var d', n := Apply(d, Finalize(k, result, now)), k + 1;
            && d.starts[k].active.number == n == |d.starts| && d'.status == Verdict(n, result)
            && (Verdict(n, result) == Retrying ==> d.starts[k].nextAttemptAt.Some? && d'.nextAttemptAt == d.starts[k].nextAttemptAt)
            && |d'.evidence| == n && d'.evidence[..n - 1] == d.evidence
            && d'.evidence[n - 1] == Evidence(n, if Success(result) then Delivered else
                                                 if Transient(result) then RetryableFailure else NonRetryableFailure, false)
  {
    DeliveryAlwaysOk(created, steps);
    FinalizeMeans(Run(NewDelivery(created), steps), k, result, now);
  }

  // ----- the schedule -----

  /** The longest wait before attempts two to seven, in milliseconds. */
  const SCHEDULE: seq<nat> := [60000, 300000, 900000, 3600000, 21600000, 86400000]

  /** The delays before an attempt are exactly those from zero to the schedule's longest: none is longer, and each occurs for
      some sample. */
  lemma DelaysAreTheSchedule(n: int, v: int)
    ensures (exists sample :: RetryDelay(n, sample) == Some(v)) <==> 2 <= n <= 7 && 0 <= v <= SCHEDULE[n - 2]
    ensures !(2 <= n <= 7) ==> forall sample :: RetryDelay(n, sample) == None
  {
    if 2 <= n <= 7 {
      assert RetryCeiling(n) == Some(SCHEDULE[n - 2]);
      var longest := SCHEDULE[n - 2];
      JitterReaches(longest, v);
      forall sample ensures RetryDelay(n, sample) == Some(Jitter(sample, longest)) {}
      if sample :| Jitter(sample, longest) == v { assert RetryDelay(n, sample) == Some(v); }
    }
  }

  // ----- starting an attempt -----

  /** A claim that is still held was made for the next attempt. */
  ghost predicate ClaimIsCurrent(d: Delivery) {
    d.lease.Some? && d.active.None? ==>
      d.lease.value.token < |d.claims| && d.claims[d.lease.value.token].attemptCount == d.attemptCount
  }

  lemma StepKeepsCurrent(d: Delivery, step: Step)
    requires DeliveryOk(d) && ClaimIsCurrent(d)
    ensures ClaimIsCurrent(Apply(d, step))
  {
  }

  lemma {:induction false} AlwaysCurrent(created: int, steps: seq<Step>)
    ensures ClaimIsCurrent(Run(NewDelivery(created), steps))
    decreases |steps|
  {
    if steps != [] {
      AlwaysCurrent(created, steps[..|steps| - 1]);
      DeliveryAlwaysOk(created, steps[..|steps| - 1]);
      StepKeepsCurrent(Run(NewDelivery(created), steps[..|steps| - 1]), steps[|steps| - 1]);
    }
  }

  /** Claim k holds the delivery and has not started its attempt. */
  ghost predicate HeldBy(d: Delivery, k: nat, now: int) {
    d.lease.Some? && d.lease.value.token == k && now < d.lease.value.expiresAt && d.active.None?
  }

  /** The versions the worker loaded are those of the attempt's own transaction. */
  ghost predicate SameSecrets(loaded: EndpointView, seen: EndpointView) {
    loaded.current == seen.current && (seen.previous.None? || seen.previous == loaded.previous)
  }

  /** The attempt that claim k starts. */
  ghost predicate StartedAs(d: Delivery, d': Delivery, k: nat, loaded: EndpointView, sample: real, seen: EndpointView, later: int) {
    var n := d.attemptCount + 1;
    && |d'.starts| == |d.starts| + 1 && d'.starts[..|d.starts|] == d.starts && d'.lease == d.lease && d'.attemptCount == n
    && d'.evidence == d.evidence && d'.claims == d.claims && d'.status == d.status
    && var g := d'.starts[|d.starts|];
       && g.token == k && d'.active == Some(g.active) && g.active.number == n && g.active.startedAt == later
       && 1000 * g.active.signature <= later < 1000 * g.active.signature + 1000
       && g.active.current == seen.current && g.active.previous == seen.previous
       && g.nextAttemptAt == d'.nextAttemptAt
       && g.nextAttemptAt == (match RetryDelay(n + 1, sample) case None => None case Some(delay) => Some(later + delay))
       && (n < 7 ==> g.nextAttemptAt.Some? && later <= g.nextAttemptAt.value <= later + SCHEDULE[n - 1])
  }

  lemma StartMeans(d: Delivery, k: nat, loaded: EndpointView, sample: real, seen: EndpointView, now: int, later: int)
    requires DeliveryOk(d) && ClaimIsCurrent(d) && k < |d.claims|
    ensures var d' := Apply(d, Start(k, loaded, sample, seen, now, later));
            if !HeldBy(d, k, now) then d' == d
            else if !seen.active then
              d' == d.(attemptCount := d.attemptCount + 1, lease := None, nextAttemptAt := None, status := DeadLettered,
                       evidence := d.evidence + [Evidence(d.attemptCount + 1, NonRetryableFailure, true)])
            else if !(loaded.active && SameSecrets(loaded, seen)) then d' == d.(lease := None)
            else if later >= d.lease.value.expiresAt then d' == d
            else StartedAs(d, d', k, loaded, sample, seen, later)
  {
    if HeldBy(d, k, now) {
      DelayWithinCeiling(d.attemptCount + 2, sample);
      assert d.attemptCount < 6 ==> RetryCeiling(d.attemptCount + 2) == Some(SCHEDULE[d.attemptCount]);
    }
  }

  /** Over every run: a worker's start changes the delivery exactly if its claim still holds it. Then an inactive endpoint ends
      the delivery with evidence and without a send; secrets that changed since the load give the claim up; and otherwise
      the next attempt starts within the lease, with its retry planned inside the schedule. */
  lemma StartDecides(created: int, steps: seq<Step>, k: nat, loaded: EndpointView, sample: real, seen: EndpointView, now: int, later: int)
    requires k < |Run(NewDelivery(created), steps).claims|
    ensures var d := Run(NewDelivery(created), steps); var d' := Apply(d, Start(k, loaded, sample, seen, now, later));
            if !HeldBy(d, k, now) then d' == d
            else if !seen.active then
              && d'.status == DeadLettered && d'.lease.None? && d'.starts == d.starts
              && d'.evidence == d.evidence + [Evidence(d.attemptCount + 1, NonRetryableFailure, true)]
            else if !(loaded.active && SameSecrets(loaded, seen)) then d' == d.(lease := None)
            else if later >= d.lease.value.expiresAt then d' == d
            else StartedAs(d, d', k, loaded, sample, seen, later)
  {
    DeliveryAlwaysOk(created, steps);
    AlwaysCurrent(created, steps);
    StartMeans(Run(NewDelivery(created), steps), k, loaded, sample, seen, now, later);
  }

  // ----- waiting, claiming and recovering -----

  /** All claims of a run come before the time. */
  ghost predicate ClaimsBefore(later: seq<Step>, time: int) {
    forall i | 0 <= i < |later| && later[i].Claim? :: later[i].now < time
  }

  lemma {:induction false} WaitingRests(d: Delivery, later: seq<Step>)
    requires DeliveryOk(d) && d.lease.None? && (d.nextAttemptAt.Some? ==> ClaimsBefore(later, d.nextAttemptAt.value))
    ensures Run(d, later) == d
    decreases |later|
  {
    if later != [] {
      var n := |later| - 1;
      WaitingRests(d, later[..n]);
      assert Apply(d, later[n]) == d;
    }
  }

  /** Over every run: a delivery that nobody holds is not touched before its next time, whatever late workers do; from that
      time on a claim gets it, with a lease of 30 seconds. */
  lemma NotBeforeItsTime(created: int, steps: seq<Step>, later: seq<Step>, now: int)
    requires var d := Run(NewDelivery(created), steps);
             !Terminal(d) && d.lease.None? && (d.nextAttemptAt.Some? ==> ClaimsBefore(later, d.nextAttemptAt.value))
    ensures var d := Run(NewDelivery(created), steps);
            && d.nextAttemptAt.Some? && Run(d, later) == d
            && var d' := Apply(d, Claim(now));
               if now < d.nextAttemptAt.value then d' == d
               else d' == d.(lease := Some(Lease(|d.claims|, now + 30000)), claims := d'.claims)
                    && d'.claims == d.claims + [ClaimGrant(|d.claims|, d.attemptCount)]
  {
    DeliveryAlwaysOk(created, steps);
    WaitingRests(Run(NewDelivery(created), steps), later);
  }

  /** Steps of others: claims, workers of earlier claims and starts, and recoveries before the time. */
  ghost predicate ByOthers(later: seq<Step>, claims: nat, time: int) {
    forall i | 0 <= i < |later| ::
      match later[i]
      case Claim(_) => true
      case Start(k, _, _, _, _, _) => k < claims
      case Release(k) => k < claims
      case Finalize(_, _, _) => true
      case Recover(now) => now < time
  }

  lemma {:induction false} HeldRests(d: Delivery, k: nat, later: seq<Step>)
    requires DeliveryOk(d) && d.active.None? && d.lease.Some? && d.lease.value.token == k
    requires ByOthers(later, k, d.lease.value.expiresAt)
    ensures Run(d, later) == d
    decreases |later|
  {
    if later != [] {
      var n := |later| - 1;
      HeldRests(d, k, later[..n]);
      assert Apply(d, later[n]) == d;
    }
  }

  /** Over every run: for 30 seconds after its claim a worker has the delivery to itself; no other claim, late worker or
      recovery changes the row before that. */
  lemma ClaimHoldsForItsLease(created: int, steps: seq<Step>, now: int, later: seq<Step>)
    requires var d := Run(NewDelivery(created), steps); Apply(d, Claim(now)) != d && ByOthers(later, |d.claims|, now + 30000)
    ensures var d := Run(NewDelivery(created), steps); Run(Apply(d, Claim(now)), later) == Apply(d, Claim(now))
  {
    var d := Run(NewDelivery(created), steps);
    DeliveryAlwaysOk(created, steps);
    ApplyKeepsOk(d, Claim(now));
    HeldRests(Apply(d, Claim(now)), |d.claims|, later);
  }

  /** Over every run: a recovery changes exactly a row whose lease is over. It closes an attempt that was started with an
      unknown outcome, at the time its start planned for the next attempt, or for good after the seventh. */
  lemma RecoveryDecides(created: int, steps: seq<Step>, now: int)
    ensures var d := Run(NewDelivery(created), steps); var d' := Apply(d, Recover(now));
            if d.lease.None? || now < d.lease.value.expiresAt then d' == d
            else if d.active.None? then d' == d.(lease := None)
            else
              var n := d.attemptCount;
              && d.starts != [] && d'.lease.None? && d'.active.None? && d'.starts == d.starts
              && d'.evidence == d.evidence + [Evidence(n, Unknown, false)]
              && if n < 7 then d'.status == Retrying && d'.nextAttemptAt == d.starts[|d.starts| - 1].nextAttemptAt
                 else d'.status == DeadLettered && d'.nextAttemptAt.None?
  {
    DeliveryAlwaysOk(created, steps);
  }

  /** Over every run: a worker that gives its claim back clears it exactly while the claim holds the delivery and has not started
      an attempt, its lease over or not; the delivery can then be claimed at the time it had. */
  lemma ReleaseDecides(created: int, steps: seq<Step>, k: nat)
    requires k < |Run(NewDelivery(created), steps).claims|
    ensures var d := Run(NewDelivery(created), steps);
            Apply(d, Release(k)) == if d.lease.Some? && d.lease.value.token == k && d.active.None? then d.(lease := None) else d
  {
    DeliveryAlwaysOk(created, steps);
  }

  // ----- the dispatcher -----

  /** The worker loads an active endpoint whose secrets do not change, and finalizes within its lease. */
  ghost predicate Undisturbed(d: Delivery, k: nat, w: Circumstances) {
    && w.loaded.Some? && w.loaded.value.active && w.keyringWorks && HeldBy(d, k, w.startNow)
    && w.seen.active && SameSecrets(w.loaded.value, w.seen)
    && w.startLater < d.lease.value.expiresAt && w.finalizeNow < d.lease.value.expiresAt
  }

  /** The worker gets as far as its start. */
  ghost predicate Attempts(w: Circumstances) {
    w.loaded.Some? && (w.loaded.value.active ==> w.keyringWorks)
  }

  function StartOf(k: nat, w: Circumstances): Step
    requires w.loaded.Some?
  {
    Start(k, w.loaded.value, w.sample, w.seen, w.startNow, w.startLater)
  }

  /** Processing a claim is its start, followed by the finalization of that start if it started an attempt. */
  lemma ProcessingIsTwoSteps(d: Delivery, k: nat, w: Circumstances)
    requires DeliveryOk(d) && ClaimIsCurrent(d) && k < |d.claims| && Attempts(w)
    ensures var s := Apply(d, StartOf(k, w)); var (r, result) := ProcessTx(d, d.claims[k], w);
            if |s.starts| == |d.starts| then
              r == s && result == if |s.evidence| > |d.evidence| then Finished(DeadLettered) else LostOwnership
            else
              && |s.starts| == |d.starts| + 1
              && var (f, updated) := FinalizeTx(s, s.starts[|d.starts|], ClassifyResult(d.attemptCount + 1, w.result).0, w.finalizeNow);
                 r == f == Apply(s, Finalize(|d.starts|, w.result, w.finalizeNow))
                 && result == if updated.Updated? then Finished(updated.status) else LostOwnership
  {
    StartMeans(d, k, w.loaded.value, w.sample, w.seen, w.startNow, w.startLater);
    var delay := RetryDelay(d.claims[k].attemptCount + 2, w.sample);
    if StartTx(d, d.claims[k], w.loaded.value, delay, w.seen, w.startNow, w.startLater).1.Started? {
      StartedIsSignable(d, d.claims[k], w.loaded.value, delay, w.seen, w.startNow, w.startLater);
    }
  }

  lemma OwnFinalizationUpdates(s: Delivery, k: nat, outcome: Outcome, now: int)
    requires DeliveryOk(s) && s.starts != [] && k == |s.starts| - 1 && s.active.Some?
    requires s.lease.Some? && now < s.lease.value.expiresAt
    ensures var (f, updated) := FinalizeTx(s, s.starts[k], outcome, now); updated == Updated(f.status) && f != s
  {
  }

  /** An undisturbed worker reports the verdict on its result and leaves the row with it. */
  lemma ProcessingReportsVerdict(d: Delivery, k: nat, w: Circumstances)
    requires DeliveryOk(d) && ClaimIsCurrent(d) && k < |d.claims| && Undisturbed(d, k, w)
    ensures var (r, result) := ProcessTx(d, d.claims[k], w);
            && result == Finished(Verdict(d.attemptCount + 1, w.result)) && r.status == Verdict(d.attemptCount + 1, w.result)
            && |r.starts| == |d.starts| + 1 && |r.evidence| == |d.evidence| + 1
  {
    var s := Apply(d, StartOf(k, w));
    ApplyKeepsOk(d, StartOf(k, w));
    StartMeans(d, k, w.loaded.value, w.sample, w.seen, w.startNow, w.startLater);
    ProcessingIsTwoSteps(d, k, w);
    OwnFinalizationUpdates(s, |d.starts|, ClassifyResult(d.attemptCount + 1, w.result).0, w.finalizeNow);
    FinalizeMeans(s, |d.starts|, w.result, w.finalizeNow);
  }

  /** Over every run the dispatcher ends an undisturbed claim as the result calls for. Without a context, or with secrets that
      cannot be decrypted, it sends nothing, and in the second case gives the claim back; in every other case it does its
      start, and the finalization of the attempt if there is one. */
  lemma DispatcherDecides(created: int, steps: seq<Step>, k: nat, w: Circumstances)
    requires k < |Run(NewDelivery(created), steps).claims|
    ensures var d := Run(NewDelivery(created), steps); var (r, result) := ProcessTx(d, d.claims[k], w);
            && (w.loaded.None? ==> r == d && result == LostOwnership)
            && (w.loaded.Some? && w.loaded.value.active && !w.keyringWorks ==>
                  && result == DependencyMissing
                  && r == if d.lease.Some? && d.lease.value.token == k && d.active.None? then d.(lease := None) else d)
            && (Attempts(w) ==>
                  var s := Apply(d, StartOf(k, w));
                  if |s.starts| == |d.starts| then
                    r == s && result == if |s.evidence| > |d.evidence| then Finished(DeadLettered) else LostOwnership
                  else r == Apply(s, Finalize(|d.starts|, w.result, w.finalizeNow)))
            && (Undisturbed(d, k, w) ==>
                  && result == Finished(Verdict(d.attemptCount + 1, w.result)) && r.status == Verdict(d.attemptCount + 1, w.result)
                  && |r.starts| == |d.starts| + 1 && |r.evidence| == |d.evidence| + 1)
  {
    var d := Run(NewDelivery(created), steps);
    DeliveryAlwaysOk(created, steps);
    AlwaysCurrent(created, steps);
    if Attempts(w) { ProcessingIsTwoSteps(d, k, w); }
    if Undisturbed(d, k, w) { ProcessingReportsVerdict(d, k, w); }
  }
}
