/** End to end: outbox rows, relay workers that may crash, a broker that may drop before its confirmation, duplicate and
    reorder, and consumers behind the inbox. */
module EventDelivery {
  import opened Basics
  import opened OutboxRelay
  import Inbox

  /** A batch a worker claimed, with what the publisher reported for it, if it got that far. */
  datatype Batch = Batch(worker: Worker, ids: seq<Id>, outcomes: Option<seq<Outcome>>)

  datatype State = State(
    events: map<Id, Inbox.Identity>,
    rows: map<Id, Row>,
    batches: seq<Batch>,
    accepted: set<Id>,
    confirmed: set<Id>,
    inbox: Inbox.State)

  const EMPTY := State(map[], map[], [], {}, {}, Inbox.EMPTY)

  /** A publisher reports a confirmation only for an event it was given and the broker confirmed. What it reports as a
      retry may have reached the broker all the same. */
  ghost predicate HonestReport(ids: seq<Id>, outcomes: seq<Outcome>, confirmed: set<Id>) {
    forall o | o in outcomes && o.Confirmed? :: o.eventId in confirmed && o.eventId in ids
  }

  datatype Step =
    | Emit(id: Id, identity: Inbox.Identity, now: int)
    | Claim(worker: Worker, ids: seq<Id>, now: int, lease: nat)
    // the broker accepts some of a batch, confirms some of what it accepted, and the publisher reports
    | PublishBatch(batch: nat, accepts: set<Id>, confirms: set<Id>, outcomes: seq<Outcome>)
    | Finalize(batch: nat, delays: seq<nat>, now: int)
    // any accepted message, any number of times, in any order
    | Deliver(consumer: Inbox.Consumer, id: Id, fate: Inbox.Fate)

  ghost function Apply(s: State, step: Step): State {
    match step
    case Emit(id, identity, now) =>
      if id in s.events then s else
      s.(events := s.events[id := identity], rows := s.rows[id := Row(now, false, None, None, 0)])
    case Claim(worker, ids, now, lease) =>
      if (forall id | id in ids :: id in s.rows && Claimable(s.rows[id], now)) then
        s.(rows := ClaimAll(s.rows, worker, ids, now, lease), batches := s.batches + [Batch(worker, ids, None)])
      else s
    case PublishBatch(k, accepts, confirms, outcomes) =>
      if k < |s.batches| && s.batches[k].outcomes.None?
         && (forall id | id in accepts :: id in s.batches[k].ids) && confirms <= accepts
         && HonestReport(s.batches[k].ids, outcomes, confirms)
      then s.(accepted := s.accepted + accepts, confirmed := s.confirmed + confirms,
              batches := s.batches[k := s.batches[k].(outcomes := Some(outcomes))])
      else s
    case Finalize(k, delays, now) =>
      if k < |s.batches| && s.batches[k].outcomes.Some? && |delays| == |s.batches[k].ids| then
        s.(rows := FinalizeAll(s.rows, s.batches[k].worker,
                               Finalizations(s.batches[k].ids, s.batches[k].outcomes.value, delays), now).0)
      else s
    case Deliver(consumer, id, fate) =>
      if id in s.accepted && id in s.events then
        s.(inbox := Inbox.ProcessTx(s.inbox, Inbox.Message(Inbox.Key(consumer, id), s.events[id]), fate).0)
      else s
  }

  ghost function Execute(steps: seq<Step>): State {
    if steps == [] then EMPTY else Apply(Execute(steps[..|steps| - 1]), steps[|steps| - 1])
  }

  // ----- what every step keeps -----

  ghost predicate BatchOk(s: State, k: int) {
    0 <= k < |s.batches| ==>
      && (forall id | id in s.batches[k].ids :: id in s.rows)
      && (s.batches[k].outcomes.Some? ==> HonestReport(s.batches[k].ids, s.batches[k].outcomes.value, s.confirmed))
  }

  /** A published row was confirmed and is at rest; an unpublished one has a lease exactly while it is locked. */
  ghost predicate RowOk(s: State, id: Id) {
    && (id in s.rows <==> id in s.events)
    && (id in s.accepted ==> id in s.rows)
    && (id in s.rows ==>
          && (s.rows[id].published ==> id in s.confirmed && s.rows[id].lockedBy.None?)
          && (s.rows[id].lockedBy.Some? <==> s.rows[id].leaseExpiresAt.Some?))
  }

  /** What a consumer recorded is a genuine, accepted event. */
  ghost predicate KeyOk(s: State, key: Inbox.Key) {
    key in s.inbox.rows ==> key.messageId in s.accepted && key.messageId in s.events && s.inbox.rows[key] == s.events[key.messageId]
  }

  ghost predicate Consistent(s: State) {
    && (forall k :: BatchOk(s, k)) && (forall id :: RowOk(s, id)) && (forall key :: KeyOk(s, key))
    && s.confirmed <= s.accepted && Inbox.OncePerKey(s.inbox)
  }

  lemma {:induction false} FinalizeAllRow(rows: map<Id, Row>, worker: Worker, fs: seq<Finalization>, now: int, confirmed: set<Id>)
    requires forall i | 0 <= i < |fs| && fs[i].Publish? :: fs[i].eventId in confirmed
    ensures var r := FinalizeAll(rows, worker, fs, now).0;
            && r.Keys == rows.Keys
            && forall id | id in rows ::
                 && (r[id].published ==> rows[id].published || id in confirmed)
                 && (r[id] == rows[id] || (r[id].lockedBy.None? && r[id].leaseExpiresAt.None?))
                 && (rows[id].published ==> r[id] == rows[id])
    decreases |fs|
  {
    if fs != [] {
      FinalizeAllRow(rows, worker, fs[..|fs| - 1], now, confirmed);
    }
  }

  lemma FinalizeKeeps(s: State, k: nat, delays: seq<nat>, now: int)
    requires Consistent(s) && k < |s.batches| && s.batches[k].outcomes.Some? && |delays| == |s.batches[k].ids|
    ensures Consistent(Apply(s, Finalize(k, delays, now)))
  {
    var s' := Apply(s, Finalize(k, delays, now));
    var b := s.batches[k];
    var fs := Finalizations(b.ids, b.outcomes.value, delays);
    assert BatchOk(s, k);
    forall i | 0 <= i < |fs| && fs[i].Publish? ensures fs[i].eventId in s.confirmed {
      OneFinalizationEach(b.ids, b.outcomes.value, delays, i);
    }
    FinalizeAllRow(s.rows, b.worker, fs, now, s.confirmed);
    forall id ensures RowOk(s', id) { assert RowOk(s, id); }
    forall j ensures BatchOk(s', j) { assert BatchOk(s, j); }
    forall key ensures KeyOk(s', key) { assert KeyOk(s, key); }
  }

  lemma PublishKeeps(s: State, k: nat, accepts: set<Id>, confirms: set<Id>, outcomes: seq<Outcome>)
    requires Consistent(s)
    ensures Consistent(Apply(s, PublishBatch(k, accepts, confirms, outcomes)))
  {
    var s' := Apply(s, PublishBatch(k, accepts, confirms, outcomes));
    assert BatchOk(s, k);
    forall id ensures RowOk(s', id) { assert RowOk(s, id); }
    forall j ensures BatchOk(s', j) { assert BatchOk(s, j); }
    forall key ensures KeyOk(s', key) { assert KeyOk(s, key); }
  }

  lemma ClaimKeeps(s: State, worker: Worker, ids: seq<Id>, now: int, lease: nat)
    requires Consistent(s)
    ensures Consistent(Apply(s, Claim(worker, ids, now, lease)))
  {
    var s' := Apply(s, Claim(worker, ids, now, lease));
    forall id ensures RowOk(s', id) { assert RowOk(s, id); }
    forall j ensures BatchOk(s', j) { assert BatchOk(s, j); }
    forall key ensures KeyOk(s', key) { assert KeyOk(s, key); }
  }

  lemma DeliverKeeps(s: State, consumer: Inbox.Consumer, id: Id, fate: Inbox.Fate)
    requires Consistent(s) && id in s.accepted && id in s.events
    ensures Consistent(Apply(s, Deliver(consumer, id, fate)))
    ensures Inbox.ProcessTx(s.inbox, Inbox.Message(Inbox.Key(consumer, id), s.events[id]), fate).1 != Inbox.IdentityConflict
  {
    var s' := Apply(s, Deliver(consumer, id, fate));
    Inbox.ProcessKeepsOnce(s.inbox, Inbox.Message(Inbox.Key(consumer, id), s.events[id]), fate);
    assert KeyOk(s, Inbox.Key(consumer, id));
    forall x ensures RowOk(s', x) { assert RowOk(s, x); }
    forall j ensures BatchOk(s', j) { assert BatchOk(s, j); }
    forall key ensures KeyOk(s', key) { assert KeyOk(s, key); }
  }

  lemma EmitKeeps(s: State, id: Id, identity: Inbox.Identity, now: int)
    requires Consistent(s)
    ensures Consistent(Apply(s, Emit(id, identity, now)))
  {
    var s' := Apply(s, Emit(id, identity, now));
    forall x ensures RowOk(s', x) { assert RowOk(s, x); }
    forall j ensures BatchOk(s', j) { assert BatchOk(s, j); }
    forall key ensures KeyOk(s', key) { assert KeyOk(s, key); }
  }

  lemma {:induction false} AlwaysConsistent(steps: seq<Step>)
    ensures Consistent(Execute(steps))
  {
    if steps == [] {
      forall id ensures RowOk(EMPTY, id) {}
      forall k ensures BatchOk(EMPTY, k) {}
      forall key ensures KeyOk(EMPTY, key) {}
    } else {
      var s := Execute(steps[..|steps| - 1]);
      AlwaysConsistent(steps[..|steps| - 1]);
      match steps[|steps| - 1] {
        case Emit(id, identity, now) => EmitKeeps(s, id, identity, now);
        case Claim(worker, ids, now, lease) => ClaimKeeps(s, worker, ids, now, lease);
        case PublishBatch(k, accepts, confirms, outcomes) => PublishKeeps(s, k, accepts, confirms, outcomes);
        case Finalize(k, delays, now) =>
          if k < |s.batches| && s.batches[k].outcomes.Some? && |delays| == |s.batches[k].ids| { FinalizeKeeps(s, k, delays, now); }
        case Deliver(consumer, id, fate) => if id in s.accepted && id in s.events { DeliverKeeps(s, consumer, id, fate); }
      }
    }
  }

  /** A row marked published was confirmed by the broker, and every unpublished row can be claimed again from the time its
      delay and its lease are over: no event is lost and none is stuck. */
  lemma PublishedOrClaimable(steps: seq<Step>, id: Id)
    requires id in Execute(steps).rows
    ensures var s := Execute(steps); var r := s.rows[id];
            if r.published then id in s.confirmed && id in s.accepted
            else forall now | now >= r.availableAt && (r.leaseExpiresAt.Some? ==> now >= r.leaseExpiresAt.value) ::
                   Claimable(r, now) && Apply(s, Claim("any", [id], now, 1)).rows[id].lockedBy == Some("any")
  {
    AlwaysConsistent(steps);
    assert RowOk(Execute(steps), id);
  }

  /** Per consumer and event the effect commits at most once, together with its inbox row, and only for an event that was
      emitted and accepted by the broker; redeliveries never run into an identity conflict. */
  lemma EffectAtMostOnce(steps: seq<Step>, consumer: Inbox.Consumer, id: Id, fate: Inbox.Fate)
    ensures var s := Execute(steps); var key := Inbox.Key(consumer, id);
            && Inbox.EffectsOf(s.inbox.effects, key) == (if key in s.inbox.rows then 1 else 0)
            && (key in s.inbox.rows ==> id in s.accepted && id in s.events)
            && (id in s.accepted ==>
                  && id in s.events
                  && Inbox.ProcessTx(s.inbox, Inbox.Message(key, s.events[id]), fate).1 != Inbox.IdentityConflict)
  {
    var s := Execute(steps);
    AlwaysConsistent(steps);
    assert KeyOk(s, Inbox.Key(consumer, id)) && RowOk(s, id);
    if id in s.accepted { DeliverKeeps(s, consumer, id, fate); }
  }

  /** Published rows and recorded effects are never taken back. */
  lemma StepKeepsPublished(s: State, step: Step, id: Id)
    requires Consistent(s) && id in s.rows && s.rows[id].published
    ensures id in Apply(s, step).rows && Apply(s, step).rows[id] == s.rows[id]
  {
    assert RowOk(s, id);
    match step
    case Finalize(k, delays, now) =>
      if k < |s.batches| && s.batches[k].outcomes.Some? && |delays| == |s.batches[k].ids| {
        var fs := Finalizations(s.batches[k].ids, s.batches[k].outcomes.value, delays);
        assert BatchOk(s, k);
        forall i | 0 <= i < |fs| && fs[i].Publish? ensures fs[i].eventId in s.confirmed {
          OneFinalizationEach(s.batches[k].ids, s.batches[k].outcomes.value, delays, i);
        }
        FinalizeAllRow(s.rows, s.batches[k].worker, fs, now, s.confirmed);
      }
    case _ =>
  }

  lemma {:induction false} PublishedForever(steps: seq<Step>, later: seq<Step>, id: Id)
    requires id in Execute(steps).rows && Execute(steps).rows[id].published
    ensures id in Execute(steps + later).rows && Execute(steps + later).rows[id] == Execute(steps).rows[id]
    decreases |later|
  {
    if later == [] {
      assert steps + later == steps;
    } else {
      var n := |later| - 1;
      PublishedForever(steps, later[..n], id);
      assert (steps + later)[..|steps| + n] == steps + later[..n];
      AlwaysConsistent(steps + later[..n]);
      StepKeepsPublished(Execute(steps + later[..n]), later[n], id);
    }
  }

  // ----- leases, delays and attempts -----

  lemma LastStep(steps: seq<Step>, later: seq<Step>, n: nat)
    requires |later| == n + 1
    ensures Execute(steps + later) == Apply(Execute(steps + later[..n]), later[n])
  {
    var all := steps + later;
    assert all[..|all| - 1] == steps + later[..n] && all[|all| - 1] == later[n];
  }

  /** The claims of a run that name the event come before the time. */
  ghost predicate ClaimsBefore(later: seq<Step>, id: Id, time: int) {
    forall i | 0 <= i < |later| && later[i].Claim? && id in later[i].ids :: later[i].now < time
  }

  /** No batch of the worker is finalized in the run. */
  ghost predicate WorkerIsSilent(steps: seq<Step>, later: seq<Step>, worker: Worker) {
    forall i | 0 <= i < |later| && later[i].Finalize? ::
      var s := Execute(steps + later[..i]);
      later[i].batch < |s.batches| ==> s.batches[later[i].batch].worker != worker
  }

  lemma {:induction false} OthersHitNothing(rows: map<Id, Row>, worker: Worker, fs: seq<Finalization>, now: int, id: Id)
    requires id in rows && !Owns(rows[id], worker)
    ensures var r := FinalizeAll(rows, worker, fs, now).0; id in r && r[id] == rows[id]
    decreases |fs|
  {
    if fs != [] { OthersHitNothing(rows, worker, fs[..|fs| - 1], now, id); }
  }

  /** A row that is locked for a worker, or for nobody, is changed only by a claim or by a finalization of that worker. */
  lemma RowRests(s: State, step: Step, id: Id)
    requires id in s.rows && id in s.events
    requires step.Claim? && id in step.ids ==> !Claimable(s.rows[id], step.now)
    requires step.Finalize? && step.batch < |s.batches| ==> !Owns(s.rows[id], s.batches[step.batch].worker)
    ensures id in Apply(s, step).rows && id in Apply(s, step).events && Apply(s, step).rows[id] == s.rows[id]
  {
    if step.Finalize? && step.batch < |s.batches| && s.batches[step.batch].outcomes.Some? && |step.delays| == |s.batches[step.batch].ids| {
      var b := s.batches[step.batch];
      OthersHitNothing(s.rows, b.worker, Finalizations(b.ids, b.outcomes.value, step.delays), step.now, id);
    }
  }

  /** A row rests while every claim comes too early for it and no worker that locks it finalizes. */
  lemma {:induction false} RowRestsUntil(steps: seq<Step>, later: seq<Step>, id: Id, time: int)
    requires var s := Execute(steps);
             && id in s.rows && id in s.events
             && (forall now | now < time :: !Claimable(s.rows[id], now))
             && (s.rows[id].lockedBy.Some? ==> WorkerIsSilent(steps, later, s.rows[id].lockedBy.value))
    requires ClaimsBefore(later, id, time)
    ensures var s, t := Execute(steps), Execute(steps + later); id in t.rows && id in t.events && t.rows[id] == s.rows[id]
    decreases |later|
  {
    if later == [] {
      assert steps + later == steps;
    } else {
      var n := |later| - 1;
      assert forall i | 0 <= i < n :: later[..n][i] == later[i] && later[..n][..i] == later[..i];
      RowRestsUntil(steps, later[..n], id, time);
      LastStep(steps, later, n);
      RowRests(Execute(steps + later[..n]), later[n], id);
    }
  }

  /** Over every run: while the lease of a claim runs and its worker finalizes nothing, no other claim gets the event. */
  lemma LeaseKeepsOthersOut(steps: seq<Step>, worker: Worker, ids: seq<Id>, now: int, lease: nat, later: seq<Step>, id: Id)
    requires id in ids && Apply(Execute(steps), Claim(worker, ids, now, lease)) != Execute(steps)
    requires ClaimsBefore(later, id, now + lease)
    requires WorkerIsSilent(steps + [Claim(worker, ids, now, lease)], later, worker)
    ensures var t := Execute(steps + [Claim(worker, ids, now, lease)] + later);
            && id in t.rows && t.rows[id].lockedBy == Some(worker) && t.rows[id].leaseExpiresAt == Some(now + lease)
            && forall other, ids', at, lease' | id in ids' && at < now + lease :: Apply(t, Claim(other, ids', at, lease')) == t
  {
    var claim := Claim(worker, ids, now, lease);
    AlwaysConsistent(steps);
    assert RowOk(Execute(steps), id);
    LastStep(steps, [claim], 0);
    assert steps + [] == steps;
    RowRestsUntil(steps + [claim], later, id, now + lease);
  }

  lemma {:induction false} FinalizedOnce(rows: map<Id, Row>, worker: Worker, fs: seq<Finalization>, now: int, i: nat)
    requires i < |fs| && fs[i].eventId in rows && Owns(rows[fs[i].eventId], worker)
    requires forall a, b | 0 <= a < b < |fs| :: fs[a].eventId != fs[b].eventId
    ensures var r := FinalizeAll(rows, worker, fs, now).0; var id := fs[i].eventId;
            id in r && r[id] == FinalizeRow(rows[id], fs[i], now)
    decreases |fs|
  {
    var n := |fs| - 1;
    if i < n {
      FinalizedOnce(rows, worker, fs[..n], now, i);
    } else {
      NotYetFinalized(rows, worker, fs[..n], now, fs[i].eventId);
    }
  }

  lemma {:induction false} NotYetFinalized(rows: map<Id, Row>, worker: Worker, fs: seq<Finalization>, now: int, id: Id)
    requires id in rows && forall a | 0 <= a < |fs| :: fs[a].eventId != id
    ensures id in FinalizeAll(rows, worker, fs, now).0 && FinalizeAll(rows, worker, fs, now).0[id] == rows[id]
    decreases |fs|
  {
    if fs != [] { NotYetFinalized(rows, worker, fs[..|fs| - 1], now, id); }
  }

  lemma FinalizationWrites(s: State, k: nat, delays: seq<nat>, now: int, i: nat)
    requires k < |s.batches| && s.batches[k].outcomes.Some? && |delays| == |s.batches[k].ids| && i < |delays|
    requires forall a, b | 0 <= a < b < |delays| :: s.batches[k].ids[a] != s.batches[k].ids[b]
    requires var id := s.batches[k].ids[i]; id in s.rows && !s.rows[id].published && s.rows[id].lockedBy == Some(s.batches[k].worker)
    ensures var b, id := s.batches[k], s.batches[k].ids[i]; var r := Apply(s, Finalize(k, delays, now)).rows;
            && id in r && r[id].lockedBy.None? && r[id].leaseExpiresAt.None? && r[id].attemptCount == s.rows[id].attemptCount
            && (r[id].published <==> LastOutcome(b.outcomes.value, id) == Some(Confirmed(id)))
            && (!r[id].published ==> r[id].availableAt == now + delays[i])
  {
    var b := s.batches[k];
    var fs := Finalizations(b.ids, b.outcomes.value, delays);
    forall a | 0 <= a < |fs| ensures fs[a].eventId == b.ids[a] { OneFinalizationEach(b.ids, b.outcomes.value, delays, a); }
    OneFinalizationEach(b.ids, b.outcomes.value, delays, i);
    FinalizedOnce(s.rows, b.worker, fs, now, i);
  }

  /** Over every run: an event of a batch that its worker still owns is published exactly if its last report is a
      confirmation, and otherwise waits: it is not touched before the planned delay is over, and can be claimed from then on. */
  lemma PostponedEventsWait(steps: seq<Step>, k: nat, delays: seq<nat>, now: int, i: nat, later: seq<Step>)
    requires var s := Execute(steps);
             && k < |s.batches| && s.batches[k].outcomes.Some? && |delays| == |s.batches[k].ids| && i < |delays|
             && (forall a, b | 0 <= a < b < |delays| :: s.batches[k].ids[a] != s.batches[k].ids[b])
             && var id := s.batches[k].ids[i]; id in s.rows && !s.rows[id].published && s.rows[id].lockedBy == Some(s.batches[k].worker)
    requires ClaimsBefore(later, Execute(steps).batches[k].ids[i], now + delays[i])
    ensures var s, step := Execute(steps), Finalize(k, delays, now);
            var b, id, r := s.batches[k], s.batches[k].ids[i], Apply(Execute(steps), step).rows;
            && id in r && r[id].lockedBy.None?
            && (r[id].published <==> LastOutcome(b.outcomes.value, id) == Some(Confirmed(id)))
            && (!r[id].published ==>
                  && id in Execute(steps + [step] + later).rows && Execute(steps + [step] + later).rows[id] == r[id]
                  && forall at :: Claimable(r[id], at) <==> at >= now + delays[i])
  {
    var s, step := Execute(steps), Finalize(k, delays, now);
    var id := s.batches[k].ids[i];
    AlwaysConsistent(steps);
    assert RowOk(s, id);
    FinalizationWrites(s, k, delays, now, i);
    LastStep(steps, [step], 0);
    assert steps + [] == steps;
    if !Apply(s, step).rows[id].published { RowRestsUntil(steps + [step], later, id, now + delays[i]); }
  }

  /** How many batches claimed the event. */
  ghost function ClaimsOf(batches: seq<Batch>, id: Id): nat {
    if batches == [] then 0 else
    ClaimsOf(batches[..|batches| - 1], id) + (if id in batches[|batches| - 1].ids then 1 else 0)
  }

  lemma {:induction false} SameClaims(a: seq<Batch>, b: seq<Batch>, id: Id)
    requires |a| == |b| && forall i | 0 <= i < |a| :: a[i].ids == b[i].ids
    ensures ClaimsOf(a, id) == ClaimsOf(b, id)
  {
    if a != [] { SameClaims(a[..|a| - 1], b[..|b| - 1], id); }
  }

  lemma {:induction false} FinalizeKeepsAttempts(rows: map<Id, Row>, worker: Worker, fs: seq<Finalization>, now: int, id: Id)
    requires id in rows
    ensures id in FinalizeAll(rows, worker, fs, now).0 && FinalizeAll(rows, worker, fs, now).0[id].attemptCount == rows[id].attemptCount
    decreases |fs|
  {
    if fs != [] { FinalizeKeepsAttempts(rows, worker, fs[..|fs| - 1], now, id); }
  }

  lemma ClaimCounts(s: State, worker: Worker, ids: seq<Id>, now: int, lease: nat, id: Id)
    requires id in s.rows && s.rows[id].attemptCount == ClaimsOf(s.batches, id)
    ensures var t := Apply(s, Claim(worker, ids, now, lease)); id in t.rows && t.rows[id].attemptCount == ClaimsOf(t.batches, id)
  {
    var batch := Batch(worker, ids, None);
    assert (s.batches + [batch])[..|s.batches|] == s.batches;
  }

  /** In every reachable state the attempt count of an event is the number of batches that claimed it. */
  lemma {:induction false} AttemptsAreClaims(steps: seq<Step>, id: Id)
    ensures var s := Execute(steps);
            if id in s.rows then s.rows[id].attemptCount == ClaimsOf(s.batches, id) else ClaimsOf(s.batches, id) == 0
    decreases |steps|
  {
    if steps != [] {
      var s, step := Execute(steps[..|steps| - 1]), steps[|steps| - 1];
      AttemptsAreClaims(steps[..|steps| - 1], id);
      AlwaysConsistent(steps[..|steps| - 1]);
      assert RowOk(s, id);
      match step {
        case Claim(worker, ids, now, lease) =>
          if id in s.rows { ClaimCounts(s, worker, ids, now, lease, id); } else { UnknownIsUnclaimed(s, worker, ids, now, lease, id); }
        case PublishBatch(k, _, _, _) => SameClaims(s.batches, Apply(s, step).batches, id);
        case Finalize(k, delays, now) =>
          if k < |s.batches| && s.batches[k].outcomes.Some? && |delays| == |s.batches[k].ids| && id in s.rows {
            var b := s.batches[k];
            FinalizeKeepsAttempts(s.rows, b.worker, Finalizations(b.ids, b.outcomes.value, delays), now, id);
          } else {
            FinalizeAddsNoRow(s, k, delays, now);
          }
        case _ =>
      }
    }
  }

  lemma UnknownIsUnclaimed(s: State, worker: Worker, ids: seq<Id>, now: int, lease: nat, id: Id)
    requires id !in s.rows && ClaimsOf(s.batches, id) == 0
    ensures var t := Apply(s, Claim(worker, ids, now, lease)); id !in t.rows && ClaimsOf(t.batches, id) == 0
  {
    var batch := Batch(worker, ids, None);
    assert (s.batches + [batch])[..|s.batches|] == s.batches;
  }

  lemma FinalizeAddsNoRow(s: State, k: nat, delays: seq<nat>, now: int)
    ensures Apply(s, Finalize(k, delays, now)).rows.Keys == s.rows.Keys && Apply(s, Finalize(k, delays, now)).batches == s.batches
  {
    if k < |s.batches| && s.batches[k].outcomes.Some? && |delays| == |s.batches[k].ids| {
      KeysStay(s.rows, s.batches[k].worker, Finalizations(s.batches[k].ids, s.batches[k].outcomes.value, delays), now);
    }
  }

  lemma {:induction false} KeysStay(rows: map<Id, Row>, worker: Worker, fs: seq<Finalization>, now: int)
    ensures FinalizeAll(rows, worker, fs, now).0.Keys == rows.Keys
    decreases |fs|
  {
    if fs != [] { KeysStay(rows, worker, fs[..|fs| - 1], now); }
  }

  // ----- arrival -----

  /** Over every run: an event once emitted keeps its identity, and until a claim gets it its row waits, claimable from the
      time of the emission on. */
  lemma {:induction false} EmittedEventsWait(steps: seq<Step>, id: Id, identity: Inbox.Identity, now: int, later: seq<Step>)
    requires id !in Execute(steps).events
    ensures var t := Execute(steps + [Emit(id, identity, now)] + later);
            && id in t.events && t.events[id] == identity && id in t.rows
            && (t.rows[id].attemptCount == 0 ==>
                  !t.rows[id].published && t.rows[id].lockedBy.None? && forall at :: Claimable(t.rows[id], at) <==> at >= now)
    decreases |later|
  {
    var first := steps + [Emit(id, identity, now)];
    if later == [] {
      LastStep(steps, [Emit(id, identity, now)], 0);
      assert steps + [] == steps && first + later == first;
    } else {
      var n := |later| - 1;
      EmittedEventsWait(steps, id, identity, now, later[..n]);
      LastStep(first, later, n);
      UntouchedWaits(Execute(first + later[..n]), later[n], id);
    }
  }

  /** A row that no claim got is changed by a claim alone. */
  lemma UntouchedWaits(s: State, step: Step, id: Id)
    requires id in s.rows && id in s.events && (s.rows[id].attemptCount == 0 ==> s.rows[id].lockedBy.None?)
    ensures var t := Apply(s, step);
            && id in t.rows && id in t.events && t.events[id] == s.events[id]
            && (t.rows[id].attemptCount == 0 ==> t.rows[id] == s.rows[id])
  {
    match step
    case Finalize(k, delays, now) =>
      if k < |s.batches| && s.batches[k].outcomes.Some? && |delays| == |s.batches[k].ids| {
        var b := s.batches[k];
        var fs := Finalizations(b.ids, b.outcomes.value, delays);
        FinalizeKeepsAttempts(s.rows, b.worker, fs, now, id);
        if s.rows[id].attemptCount == 0 { OthersHitNothing(s.rows, b.worker, fs, now, id); }
      }
    case _ =>
  }

  /** One worker's way from a claimable row to a processed message. */
  function Way(k: nat, worker: Worker, id: Id, now: int, consumer: Inbox.Consumer): seq<Step> {
    [Claim(worker, [id], now, 1), PublishBatch(k, {id}, {id}, [Confirmed(id)]), Finalize(k, [0], now), Deliver(consumer, id, Inbox.Commits)]
  }

  lemma Published(s: State, worker: Worker, id: Id, now: int)
    requires id in s.rows && Claimable(s.rows[id], now)
    ensures var k := |s.batches|; var claimed := Apply(s, Claim(worker, [id], now, 1));
            var reported := Apply(claimed, PublishBatch(k, {id}, {id}, [Confirmed(id)]));
            var t := Apply(reported, Finalize(k, [0], now));
            && id in t.rows && t.rows[id].published && t.accepted == s.accepted + {id} && t.confirmed == s.confirmed + {id}
            && t.events == s.events && t.inbox == s.inbox
  {
    var k := |s.batches|;
    var claimed := Apply(s, Claim(worker, [id], now, 1));
    assert claimed.batches[k] == Batch(worker, [id], None) && id in claimed.batches[k].ids;
    var reported := Apply(claimed, PublishBatch(k, {id}, {id}, [Confirmed(id)]));
    assert reported.batches[k] == Batch(worker, [id], Some([Confirmed(id)]));
    FinalizationWrites(reported, k, [0], now, 0);
  }

  /** From every reachable state an event that can be claimed can be published and processed, unless the consumer already
      has: afterwards its row is published, the consumer has recorded it, and its effect is committed once. */
  lemma EventCanArrive(steps: seq<Step>, worker: Worker, id: Id, now: int, consumer: Inbox.Consumer)
    requires id in Execute(steps).rows && Claimable(Execute(steps).rows[id], now)
    ensures var s := Execute(steps); var t := Execute(steps + Way(|s.batches|, worker, id, now, consumer));
            var key := Inbox.Key(consumer, id);
            && id in t.rows && t.rows[id].published && id in t.confirmed && id in t.accepted
            && id in s.events && key in t.inbox.rows && t.inbox.rows[key] == s.events[id]
            && Inbox.EffectsOf(t.inbox.effects, key) == 1
  {
    var s := Execute(steps);
    var way := Way(|s.batches|, worker, id, now, consumer);
    Published(s, worker, id, now);
    WayRuns(steps, way);
    AlwaysConsistent(steps);
    assert RowOk(s, id);
    AlwaysConsistent(steps + way[..3]);
    assert KeyOk(Execute(steps + way[..3]), Inbox.Key(consumer, id));
    Arrives(Execute(steps + way[..3]), consumer, id);
    EffectAtMostOnce(steps + way, consumer, id, Inbox.Commits);
  }

  lemma WayRuns(steps: seq<Step>, way: seq<Step>)
    requires |way| == 4
    ensures Execute(steps + way[..3]) == Apply(Apply(Apply(Execute(steps), way[0]), way[1]), way[2])
    ensures Execute(steps + way) == Apply(Execute(steps + way[..3]), way[3])
  {
    assert way[..3][..2] == way[..2] && way[..2][..1] == way[..1] && way[..1][..0] == [] && steps + [] == steps;
    LastStep(steps, way[..1], 0);
    LastStep(steps, way[..2], 1);
    LastStep(steps, way[..3], 2);
    LastStep(steps, way, 3);
  }

  lemma Arrives(s: State, consumer: Inbox.Consumer, id: Id)
    requires id in s.accepted && id in s.events
    requires Inbox.Key(consumer, id) in s.inbox.rows ==> s.inbox.rows[Inbox.Key(consumer, id)] == s.events[id]
    ensures var t, key := Apply(s, Deliver(consumer, id, Inbox.Commits)), Inbox.Key(consumer, id);
            && t.rows == s.rows && t.accepted == s.accepted && t.confirmed == s.confirmed
            && key in t.inbox.rows && t.inbox.rows[key] == s.events[id]
  {
  }
}
