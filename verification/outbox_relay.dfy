/** The outbox relay: claims under a lease, one publish per claim, and finalizations fenced by the worker. */
module OutboxRelay {
  import opened Basics
  import opened FullJitter
  import opened Sums

  type Worker = string

  datatype Row = Row(availableAt: int, published: bool, lockedBy: Option<Worker>, leaseExpiresAt: Option<int>, attemptCount: nat)

  datatype Code =
    | BackpressureTimeout | ConfirmNack | ConfirmTimeout | ContractInvalid | MandatoryReturn | PublisherUnavailable

  datatype Outcome = Confirmed(eventId: Id) | Retry(eventId: Id, code: Code)

  datatype Finalization = Publish(eventId: Id) | Postpone(eventId: Id, delay: nat)

  // ----- backoff -----

  function Pow2(n: nat): (r: int)
    ensures r >= 1
  {
    if n == 0 then 1 else 2 * Pow2(n - 1)
  }

  function Min(a: int, b: int): int { if a <= b then a else b }

  function Exponent(attemptCount: int): (r: nat) {
    if attemptCount - 1 < 0 then 0 else if attemptCount - 1 > 30 then 30 else attemptCount - 1
  }

  /** Full jitter up to an exponential ceiling. */
  function Backoff(attemptCount: int, baseMs: nat, maxMs: nat, sample: real): (r: int)
    ensures 0 <= r <= maxMs
  {
    assert baseMs * Pow2(Exponent(attemptCount)) >= 0;
    Jitter(sample, Min(maxMs, baseMs * Pow2(Exponent(attemptCount))))
  }

  /** The longest delay after an attempt: the base, doubled with each attempt up to the thirty-first, and at most the maximum. */
  function Longest(attemptCount: nat, baseMs: nat, maxMs: nat): (r: nat)
    decreases attemptCount
  {
    if attemptCount > 31 then Longest(31, baseMs, maxMs) else
    var doubled := if attemptCount <= 1 then baseMs else 2 * Longest(attemptCount - 1, baseMs, maxMs);
    if doubled < maxMs then doubled else maxMs
  }

  lemma {:induction false} LongestIsCeiling(n: nat, baseMs: nat, maxMs: nat)
    requires 1 <= n <= 31
    ensures Longest(n, baseMs, maxMs) == Min(maxMs, baseMs * Pow2(n - 1))
  {
    if n == 1 {
      assert Pow2(0) == 1;
    } else {
      LongestIsCeiling(n - 1, baseMs, maxMs);
      Doubling(baseMs, n - 2);
    }
  }

  lemma Doubling(b: nat, n: nat)
    ensures b * Pow2(n + 1) == 2 * (b * Pow2(n))
  {
    var power := Pow2(n);
    assert Pow2(n + 1) == 2 * power;
  }

  lemma BackoffIsJitter(attemptCount: nat, baseMs: nat, maxMs: nat, sample: real)
    ensures Backoff(attemptCount, baseMs, maxMs, sample) == Jitter(sample, Longest(attemptCount, baseMs, maxMs))
  {
    LongestIsCeiling(if attemptCount <= 1 then 1 else if attemptCount > 31 then 31 else attemptCount, baseMs, maxMs);
  }

  /** The delays after an attempt are exactly those from zero to the longest: none is longer, and each occurs for some sample,
      for maxima below 400 million milliseconds. */
  lemma DelaysReachTheLongest(attemptCount: nat, baseMs: nat, maxMs: nat, v: nat)
    requires maxMs < 400000000
    ensures (exists sample :: Backoff(attemptCount, baseMs, maxMs, sample) == v) <==> v <= Longest(attemptCount, baseMs, maxMs)
  {
    LongestAtMost(attemptCount, baseMs, maxMs);
    JitterReaches(Longest(attemptCount, baseMs, maxMs), v);
    forall sample ensures Backoff(attemptCount, baseMs, maxMs, sample) == Jitter(sample, Longest(attemptCount, baseMs, maxMs)) {
      BackoffIsJitter(attemptCount, baseMs, maxMs, sample);
    }
    if sample :| Jitter(sample, Longest(attemptCount, baseMs, maxMs)) == v {
      assert Backoff(attemptCount, baseMs, maxMs, sample) == v;
    }
  }

  lemma LongestAtMost(attemptCount: nat, baseMs: nat, maxMs: nat)
    ensures Longest(attemptCount, baseMs, maxMs) <= maxMs
  {
  }

  // ----- transactions -----

  predicate Claimable(r: Row, now: int) {
    && !r.published && r.availableAt <= now
    && (r.leaseExpiresAt.None? || r.leaseExpiresAt.value <= now)
  }

  function ClaimRow(r: Row, worker: Worker, now: int, lease: nat): Row {
    r.(lockedBy := Some(worker), leaseExpiresAt := Some(now + lease), attemptCount := r.attemptCount + 1)
  }

  /** A finalization finds its row only while it is unpublished and locked by the worker. */
  predicate Owns(r: Row, worker: Worker) {
    !r.published && r.lockedBy == Some(worker)
  }

  function FinalizeRow(r: Row, f: Finalization, now: int): Row {
    match f
    case Publish(_) => r.(published := true, lockedBy := None, leaseExpiresAt := None)
    case Postpone(_, delay) => r.(availableAt := now + delay, lockedBy := None, leaseExpiresAt := None)
  }

  predicate Hits(rows: map<Id, Row>, worker: Worker, f: Finalization) {
    f.eventId in rows && Owns(rows[f.eventId], worker)
  }

  function FinalizeOne(rows: map<Id, Row>, worker: Worker, f: Finalization, now: int): map<Id, Row> {
    if Hits(rows, worker, f) then rows[f.eventId := FinalizeRow(rows[f.eventId], f, now)] else rows
  }

  /** The finalizations of a batch in one transaction, and how many of them found their row. */
  function FinalizeAll(rows: map<Id, Row>, worker: Worker, fs: seq<Finalization>, now: int): (map<Id, Row>, nat) {
    if fs == [] then (rows, 0) else
    var n := |fs| - 1;
    var (before, updated) := FinalizeAll(rows, worker, fs[..n], now);
    (FinalizeOne(before, worker, fs[n], now), updated + if Hits(before, worker, fs[n]) then 1 else 0)
  }

  function ClaimAll(rows: map<Id, Row>, worker: Worker, ids: seq<Id>, now: int, lease: nat): (r: map<Id, Row>)
    requires forall id | id in ids :: id in rows
    ensures r.Keys == rows.Keys
  {
    map id | id in rows :: if id in ids then ClaimRow(rows[id], worker, now, lease) else rows[id]
  }

  /** The events of a batch whose rows are unpublished and locked by the worker. */
  ghost function Owned(rows: map<Id, Row>, worker: Worker, fs: seq<Finalization>): set<Id> {
    set f | f in fs && f.eventId in rows && !rows[f.eventId].published && rows[f.eventId].lockedBy == Some(worker) :: f.eventId
  }

  /** The updates that a batch counts are the distinct events that the worker owned, however often an event occurs in it,
      and no other row changes. */
  lemma {:induction false} UpdatesAreOwned(rows: map<Id, Row>, worker: Worker, fs: seq<Finalization>, now: int)
    ensures var (after, updated) := FinalizeAll(rows, worker, fs, now);
            && updated == |Owned(rows, worker, fs)| && after.Keys == rows.Keys
            && forall id | id in rows :: if id in Owned(rows, worker, fs) then after[id].lockedBy.None? else after[id] == rows[id]
    decreases |fs|
  {
    if fs != [] {
      var n := |fs| - 1;
      UpdatesAreOwned(rows, worker, fs[..n], now);
      OwnedGrows(rows, worker, fs);
      var before, id := FinalizeAll(rows, worker, fs[..n], now).0, fs[n].eventId;
      assert Hits(before, worker, fs[n]) <==> Hits(rows, worker, fs[n]) && id !in Owned(rows, worker, fs[..n]);
    }
  }

  lemma OwnedGrows(rows: map<Id, Row>, worker: Worker, fs: seq<Finalization>)
    requires fs != []
    ensures var n := |fs| - 1;
            Owned(rows, worker, fs) == Owned(rows, worker, fs[..n]) + if Hits(rows, worker, fs[n]) then {fs[n].eventId} else {}
  {
    var n := |fs| - 1;
    assert fs == fs[..n] + [fs[n]];
    assert fs[n] in fs && forall f | f in fs[..n] :: f in fs;
  }

  // ----- from publish outcomes to finalizations -----

  /** new Map(outcomes...): a later outcome of the same event replaces an earlier one. */
  function LastOutcome(outcomes: seq<Outcome>, id: Id): Option<Outcome> {
    if outcomes == [] then None else
    var last := outcomes[|outcomes| - 1];
    if last.eventId == id then Some(last) else LastOutcome(outcomes[..|outcomes| - 1], id)
  }

  function FinalizationOf(outcomes: seq<Outcome>, id: Id, delay: nat): Finalization {
    match LastOutcome(outcomes, id)
    case Some(Confirmed(_)) => Publish(id)
    case _ => Postpone(id, delay)
  }

  function Finalizations(claimed: seq<Id>, outcomes: seq<Outcome>, delays: seq<nat>): (r: seq<Finalization>)
    requires |delays| == |claimed|
    ensures |r| == |claimed|
  {
    seq(|claimed|, i requires 0 <= i < |claimed| => FinalizationOf(outcomes, claimed[i], delays[i]))
  }

  /** Every claimed event gets exactly one finalization, in order: published exactly if its last outcome is a confirmation. */
  lemma OneFinalizationEach(claimed: seq<Id>, outcomes: seq<Outcome>, delays: seq<nat>, i: nat)
    requires |delays| == |claimed| && i < |claimed|
    ensures var fs := Finalizations(claimed, outcomes, delays);
            && fs[i].eventId == claimed[i]
            && (fs[i].Publish? <==> LastOutcome(outcomes, claimed[i]) == Some(Confirmed(claimed[i])))
            && (fs[i].Publish? ==> Confirmed(claimed[i]) in outcomes)
            && ((forall o | o in outcomes :: o.eventId != claimed[i]) ==> fs[i] == Postpone(claimed[i], delays[i]))
  {
    LastIsMember(outcomes, claimed[i]);
  }

  lemma {:induction false} LastIsMember(outcomes: seq<Outcome>, id: Id)
    ensures LastOutcome(outcomes, id).Some? <==> exists o :: o in outcomes && o.eventId == id
    ensures LastOutcome(outcomes, id).Some? ==> LastOutcome(outcomes, id).value in outcomes && LastOutcome(outcomes, id).value.eventId == id
  {
    if outcomes != [] {
      var n := |outcomes| - 1;
      LastIsMember(outcomes[..n], id);
      assert outcomes == outcomes[..n] + [outcomes[n]];
    }
  }

  predicate IsRetryOf(c: Code, o: Outcome) { o.Retry? && o.code == c }

  function CountRetries(outcomes: seq<Outcome>, c: Code): nat {
    if outcomes == [] then 0 else
    CountRetries(outcomes[..|outcomes| - 1], c) + (if IsRetryOf(c, outcomes[|outcomes| - 1]) then 1 else 0)
  }

  function CountMissing(claimed: seq<Id>, outcomes: seq<Outcome>): nat {
    if claimed == [] then 0 else
    CountMissing(claimed[..|claimed| - 1], outcomes)
    + (if LastOutcome(outcomes, claimed[|claimed| - 1]).None? then 1 else 0)
  }

  function CountPublished(fs: seq<Finalization>): nat {
    if fs == [] then 0 else CountPublished(fs[..|fs| - 1]) + (if fs[|fs| - 1].Publish? then 1 else 0)
  }

  function FailureCount(claimed: seq<Id>, outcomes: seq<Outcome>, c: Code): nat {
    CountRetries(outcomes, c) + if c == PublisherUnavailable then CountMissing(claimed, outcomes) else 0
  }

  datatype RunResult = RunResult(claimed: nat, ownershipLost: int, published: nat, publisherReady: bool, retryScheduled: int)

  class Relay {
    var rows: map<Id, Row>

    constructor ()
      ensures rows == map[]
    {
      rows := map[];
    }

    method Emit(id: Id, now: int)
      requires id !in rows
      modifies this
      ensures rows == old(rows)[id := Row(now, false, None, None, 0)]
    {
      rows := rows[id := Row(now, false, None, None, 0)];
    }

    /** The claim statement on the rows its query picked. */
    method ClaimPending(worker: Worker, ids: seq<Id>, now: int, lease: nat)
      requires forall id | id in ids :: id in rows && Claimable(rows[id], now)
      modifies this
      ensures rows == ClaimAll(old(rows), worker, ids, now, lease)
    {
      rows := ClaimAll(rows, worker, ids, now, lease);
    }

    method FinalizeEvents(worker: Worker, events: seq<Finalization>, now: int) returns (ownershipLost: int, updated: nat)
      modifies this
      ensures (rows, updated) == FinalizeAll(old(rows), worker, events, now)
      ensures ownershipLost + updated == |events|
    {
      updated := 0;
      for i := 0 to |events|
        invariant (rows, updated) == FinalizeAll(old(rows), worker, events[..i], now)
      {
        assert events[..i + 1][..i] == events[..i];
        var event := events[i];
        if event.eventId in rows && Owns(rows[event.eventId], worker) {
          rows := rows[event.eventId := FinalizeRow(rows[event.eventId], event, now)];
          updated := updated + 1;
        }
      }
      assert events[..|events|] == events;
      ownershipLost := |events| - updated;
    }

    /** Counts failures per code as the signals report them. */
    method CountFailures(claimed: seq<Id>, outcomes: seq<Outcome>) returns (failureCounts: map<Code, nat>)
      ensures forall c :: (if c in failureCounts then failureCounts[c] else 0) == FailureCount(claimed, outcomes, c)
    {
      failureCounts := map[];
      for i := 0 to |outcomes|
        invariant forall c :: (if c in failureCounts then failureCounts[c] else 0) == CountRetries(outcomes[..i], c)
      {
        assert outcomes[..i + 1][..i] == outcomes[..i];
        if outcomes[i].Retry? {
          var code := outcomes[i].code;
          failureCounts := failureCounts[code := (if code in failureCounts then failureCounts[code] else 0) + 1];
        }
      }
      assert outcomes[..|outcomes|] == outcomes;
      var missing := CountMissing(claimed, outcomes);
      if missing > 0 {
        failureCounts := failureCounts[PublisherUnavailable :=
          (if PublisherUnavailable in failureCounts then failureCounts[PublisherUnavailable] else 0) + missing];
      }
    }

    /** One relay run over the rows its claim picked, with the outcomes the publisher reported. */
    method RunOnce(worker: Worker, ready: bool, ids: seq<Id>, claimNow: int, lease: nat, outcomes: seq<Outcome>,
                   samples: seq<real>, baseMs: nat, maxMs: nat, finalizeNow: int)
      returns (result: RunResult, failureCounts: map<Code, nat>)
      requires |samples| == |ids| && forall id | id in ids :: id in rows && Claimable(rows[id], claimNow)
      modifies this
      ensures !ready || ids == [] ==> rows == old(rows) && result == RunResult(0, 0, 0, ready, 0) && failureCounts == map[]
      ensures ready && ids != [] ==>
        var delays := Delays(old(rows), ids, samples, baseMs, maxMs);
        var fs := Finalizations(ids, outcomes, delays);
        && rows == FinalizeAll(ClaimAll(old(rows), worker, ids, claimNow, lease), worker, fs, finalizeNow).0
        && result.claimed == |ids| == result.published + result.retryScheduled
        && result.published == CountPublished(fs)
        && result.ownershipLost == |ids| - FinalizeAll(ClaimAll(old(rows), worker, ids, claimNow, lease), worker, fs, finalizeNow).1
        && forall c :: (if c in failureCounts then failureCounts[c] else 0) == FailureCount(ids, outcomes, c)
    {
      failureCounts := map[];
      if !ready || ids == [] {
        return RunResult(0, 0, 0, ready, 0), failureCounts;
      }
      var delays := Delays(rows, ids, samples, baseMs, maxMs);
      ClaimPending(worker, ids, claimNow, lease);
      failureCounts := CountFailures(ids, outcomes);
      var finalizations := Finalizations(ids, outcomes, delays);
      var ownershipLost, updated := FinalizeEvents(worker, finalizations, finalizeNow);
      var published := CountPublished(finalizations);
      result := RunResult(|ids|, ownershipLost, published, ready, |finalizations| - published);
    }
  }

  /** The backoff of each claimed event, from the attempt count its claim returned. */
  function Delays(rows: map<Id, Row>, ids: seq<Id>, samples: seq<real>, baseMs: nat, maxMs: nat): (r: seq<nat>)
    requires |samples| == |ids| && forall id | id in ids :: id in rows
    ensures |r| == |ids| && forall i | 0 <= i < |r| :: r[i] <= maxMs
  {
    seq(|ids|, i requires 0 <= i < |ids| => assert ids[i] in ids; Backoff(rows[ids[i]].attemptCount + 1, baseMs, maxMs, samples[i]))
  }

  /** The delay of a claimed event follows the attempt count that its claim leaves in the row. */
  lemma DelaysFollowTheClaim(rows: map<Id, Row>, worker: Worker, ids: seq<Id>, now: int, lease: nat, samples: seq<real>,
                             baseMs: nat, maxMs: nat, i: nat)
    requires |samples| == |ids| && i < |ids| && forall id | id in ids :: id in rows
    ensures ids[i] in ids && Delays(rows, ids, samples, baseMs, maxMs)[i]
              == Jitter(samples[i], Longest(ClaimAll(rows, worker, ids, now, lease)[ids[i]].attemptCount, baseMs, maxMs))
  {
    assert ids[i] in ids;
    BackoffIsJitter(rows[ids[i]].attemptCount + 1, baseMs, maxMs, samples[i]);
  }

  /** The reported failures, summed over all codes. */
  function FailureTotal(claimed: seq<Id>, outcomes: seq<Outcome>): nat {
    FailureCount(claimed, outcomes, BackpressureTimeout) + FailureCount(claimed, outcomes, ConfirmNack)
    + FailureCount(claimed, outcomes, ConfirmTimeout) + FailureCount(claimed, outcomes, ContractInvalid)
    + FailureCount(claimed, outcomes, MandatoryReturn) + FailureCount(claimed, outcomes, PublisherUnavailable)
  }

  /** If the publisher reports each claimed event at most once and nothing else, the failures reported over all codes are
      exactly the events scheduled for a retry. */
  lemma FailuresAreRetries(claimed: seq<Id>, outcomes: seq<Outcome>, delays: seq<nat>)
    requires |delays| == |claimed| && Distinct(claimed)
    requires forall o | o in outcomes :: o.eventId in claimed
    requires forall i, j | 0 <= i < j < |outcomes| :: outcomes[i].eventId != outcomes[j].eventId
    ensures FailureTotal(claimed, outcomes) == |claimed| - CountPublished(Finalizations(claimed, outcomes, delays))
  {
    RetriesByCode(outcomes);
    PublishedAreConfirmed(claimed, outcomes, delays, |claimed|);
    ConfirmedCount(claimed, outcomes);
  }

  function TotalRetries(outcomes: seq<Outcome>): nat {
    if outcomes == [] then 0 else TotalRetries(outcomes[..|outcomes| - 1]) + (if outcomes[|outcomes| - 1].Retry? then 1 else 0)
  }

  lemma {:induction false} RetriesByCode(outcomes: seq<Outcome>)
    ensures TotalRetries(outcomes)
         == CountRetries(outcomes, BackpressureTimeout) + CountRetries(outcomes, ConfirmNack) + CountRetries(outcomes, ConfirmTimeout)
            + CountRetries(outcomes, ContractInvalid) + CountRetries(outcomes, MandatoryReturn) + CountRetries(outcomes, PublisherUnavailable)
  {
    if outcomes != [] { RetriesByCode(outcomes[..|outcomes| - 1]); }
  }

  /** How many of the ids have a last outcome that is a retry. */
  function CountLastRetries(ids: seq<Id>, outcomes: seq<Outcome>): nat {
    if ids == [] then 0 else
    var last := LastOutcome(outcomes, ids[|ids| - 1]);
    CountLastRetries(ids[..|ids| - 1], outcomes) + (if last.Some? && last.value.Retry? then 1 else 0)
  }

  lemma {:induction false} PublishedAreConfirmed(claimed: seq<Id>, outcomes: seq<Outcome>, delays: seq<nat>, n: nat)
    requires |delays| == |claimed| && n <= |claimed|
    ensures n == CountPublished(Finalizations(claimed, outcomes, delays)[..n]) + CountLastRetries(claimed[..n], outcomes)
                 + CountMissing(claimed[..n], outcomes)
    ensures n == |claimed| ==> Finalizations(claimed, outcomes, delays)[..n] == Finalizations(claimed, outcomes, delays) && claimed[..n] == claimed
  {
    if n > 0 {
      PublishedAreConfirmed(claimed, outcomes, delays, n - 1);
      var fs := Finalizations(claimed, outcomes, delays);
      assert fs[..n][..n - 1] == fs[..n - 1] && claimed[..n][..n - 1] == claimed[..n - 1];
    }
  }

  /** Counting retries by outcome or by claimed event is the same. */
  lemma {:induction false} ConfirmedCount(claimed: seq<Id>, outcomes: seq<Outcome>)
    requires Distinct(claimed) && forall o | o in outcomes :: o.eventId in claimed
    requires forall i, j | 0 <= i < j < |outcomes| :: outcomes[i].eventId != outcomes[j].eventId
    ensures CountLastRetries(claimed, outcomes) == TotalRetries(outcomes)
    decreases |outcomes|
  {
    if outcomes == [] {
      NoneRetried(claimed);
    } else {
      var n := |outcomes| - 1;
      var init := outcomes[..n];
      assert outcomes == init + [outcomes[n]];
      assert forall o | o in init :: o in outcomes;
      ConfirmedCount(claimed, init);
      LastIsMember(init, outcomes[n].eventId);
      OneMore(claimed, init, outcomes[n]);
    }
  }

  lemma {:induction false} NoneRetried(ids: seq<Id>)
    ensures CountLastRetries(ids, []) == 0
  {
    if ids != [] { NoneRetried(ids[..|ids| - 1]); }
  }

  lemma {:induction false} OneMore(ids: seq<Id>, init: seq<Outcome>, o: Outcome)
    requires Distinct(ids) && LastOutcome(init, o.eventId).None?
    ensures CountLastRetries(ids, init + [o]) == CountLastRetries(ids, init) + if o.eventId in ids && o.Retry? then 1 else 0
    decreases |ids|
  {
    if ids != [] {
      var n := |ids| - 1;
      assert ids == ids[..n] + [ids[n]];
      OneMore(ids[..n], init, o);
      assert (init + [o])[..|init|] == init;
      if ids[n] == o.eventId { assert o.eventId !in ids[..n]; }
    }
  }
}
