/** The money tables as they are updated in place. Every method is one database transaction: it commits
    what its transaction function says, or rolls every table back. */
module MoneyStore {
  import opened Basics
  import opened Sums
  import opened SettlementPolicy
  import opened MoneyState
  import Ledger

  /** A transaction either committed its new tables or changed nothing and reports why. */
  ghost predicate Transacted(before: State, tx: Result<State, Failure>, after: State, failure: Option<Failure>) {
    match tx
    case Ok(s) => after == s && failure == None
    case Err(e) => after == before && failure == Some(e)
  }

  // ----- attempts with fresh identifiers -----

  const MAX_IDENTIFIER_ATTEMPTS: nat := 3

  predicate IsCollision(f: Failure) {
    || f.PaymentIdentifierCollision? || f.RefundIdentifierCollision? || f.EventIdentifierCollision?
    || f.BatchIdentifierCollision? || f.RunIdentifierCollision?
    || f == LedgerFailure(Ledger.IdentifierCollision)
  }

  /** The transactions of others before an attempt, and the attempt. */
  datatype Turn = Turn(others: seq<Step>, attempt: Step)

  ghost function Run(s: State, steps: seq<Step>): State {
    if steps == [] then s else Apply(Run(s, steps[..|steps| - 1]), steps[|steps| - 1])
  }

  /** The first attempt that is not a collision decides; a command gives up when all its attempts collided. */
  ghost function CommandLoop(s: State, turns: seq<Turn>): (State, Option<Failure>)
    decreases |turns|
  {
    if turns == [] then (s, Some(IdentifierGenerationExhausted)) else
    var mid := Run(s, turns[0].others);
    match Attempt(mid, turns[0].attempt)
    case Ok(s') => (s', None)
    case Err(e) => if IsCollision(e) then CommandLoop(mid, turns[1..]) else (mid, Some(e))
  }

  lemma {:induction false} RunContinues(steps: seq<Step>, more: seq<Step>)
    ensures Execute(steps + more) == Run(Execute(steps), more)
    decreases |more|
  {
    if more == [] {
      assert steps + more == steps;
    } else {
      var n := |more| - 1;
      RunContinues(steps, more[..n]);
      LastStep(steps, more, n);
    }
  }

  function OthersIn(turns: seq<Turn>): seq<Step> {
    if turns == [] then [] else turns[0].others + OthersIn(turns[1..])
  }

  /** The outcome of attempt i, on the tables as the others' transactions up to it leave them. */
  ghost function OutcomeOf(steps: seq<Step>, turns: seq<Turn>, i: nat): Result<State, Failure>
    requires i < |turns|
  {
    Attempt(Execute(steps + OthersIn(turns[..i + 1])), turns[i].attempt)
  }

  ghost predicate Collides(steps: seq<Step>, turns: seq<Turn>, i: nat)
    requires i < |turns|
  {
    OutcomeOf(steps, turns, i).Err? && IsCollision(OutcomeOf(steps, turns, i).error)
  }

  /** All attempts collided, or attempt k decided after all before it collided: it committed, and the tables are those of
      the others' transactions followed by it alone, or it failed, and they are those of the others' transactions. */
  ghost predicate EndsAt(steps: seq<Step>, turns: seq<Turn>, k: nat, tables: State, failure: Option<Failure>) {
    && k <= |turns| && (forall i | 0 <= i < k :: Collides(steps, turns, i))
    && if k == |turns| then failure == Some(IdentifierGenerationExhausted) && tables == Execute(steps + OthersIn(turns))
       else
         && !Collides(steps, turns, k)
         && match OutcomeOf(steps, turns, k)
            case Ok(s) => failure == None && tables == s
            case Err(e) => failure == Some(e) && tables == Execute(steps + OthersIn(turns[..k + 1]))
  }

  /** The others' transactions of the first turn belong to the run before the remaining turns. */
  lemma SkipTurn(steps: seq<Step>, turns: seq<Turn>, n: nat)
    requires n < |turns|
    ensures steps + turns[0].others + OthersIn(turns[1..][..n]) == steps + OthersIn(turns[..n + 1])
  {
    assert turns[..n + 1][1..] == turns[1..][..n];
  }

  lemma LaterTurn(steps: seq<Step>, turns: seq<Turn>, i: nat)
    requires i + 1 < |turns|
    ensures OutcomeOf(steps + turns[0].others, turns[1..], i) == OutcomeOf(steps, turns, i + 1)
  {
    SkipTurn(steps, turns, i + 1);
  }

  lemma CollidesLater(steps: seq<Step>, turns: seq<Turn>, k: nat)
    requires turns != [] && Collides(steps, turns, 0) && k <= |turns[1..]|
    requires forall i | 0 <= i < k :: Collides(steps + turns[0].others, turns[1..], i)
    ensures forall i | 0 <= i < k + 1 :: Collides(steps, turns, i)
  {
    forall i | 0 <= i < k + 1 ensures Collides(steps, turns, i) {
      if i > 0 {
        assert Collides(steps + turns[0].others, turns[1..], i - 1);
        LaterTurn(steps, turns, i - 1);
      }
    }
  }

  lemma EndsLater(steps: seq<Step>, turns: seq<Turn>, k: nat, tables: State, failure: Option<Failure>)
    requires turns != [] && Collides(steps, turns, 0)
    requires EndsAt(steps + turns[0].others, turns[1..], k, tables, failure)
    ensures EndsAt(steps, turns, k + 1, tables, failure)
  {
    CollidesLater(steps, turns, k);
    if k + 1 < |turns| {
      LaterTurn(steps, turns, k);
      SkipTurn(steps, turns, k + 1);
    } else {
      assert turns[1..][..k] == turns[1..] && turns[..k + 1] == turns;
      SkipTurn(steps, turns, k);
    }
  }

  lemma FirstOthers(turns: seq<Turn>)
    requires turns != []
    ensures OthersIn(turns[..1]) == turns[0].others
  {
    assert turns[..1][1..] == [] && turns[0].others + [] == turns[0].others;
  }

  /** The first attempt meets what the others' first transactions leave. */
  lemma FirstTables(steps: seq<Step>, turns: seq<Turn>)
    requires turns != []
    ensures Execute(steps + OthersIn(turns[..1])) == Run(Execute(steps), turns[0].others) == Execute(steps + turns[0].others)
  {
    FirstOthers(turns);
    RunContinues(steps, turns[0].others);
  }

  lemma {:induction false} LoopEnds(steps: seq<Step>, turns: seq<Turn>) returns (k: nat)
    ensures EndsAt(steps, turns, k, CommandLoop(Execute(steps), turns).0, CommandLoop(Execute(steps), turns).1)
    decreases |turns|
  {
    k := 0;
    if turns == [] {
      assert steps + OthersIn(turns) == steps;
    } else {
      FirstTables(steps, turns);
      if Collides(steps, turns, 0) {
        var rest := LoopEnds(steps + turns[0].others, turns[1..]);
        EndsLater(steps, turns, rest, CommandLoop(Execute(steps), turns).0, CommandLoop(Execute(steps), turns).1);
        k := rest + 1;
      }
    }
  }

  /** One command is at most one effect, whatever others do between its attempts: a command that commits leaves the tables
      of a run in which the others' transactions are followed by its one deciding attempt. */
  lemma OneCommandOneEffect(steps: seq<Step>, turns: seq<Turn>) returns (k: nat)
    ensures EndsAt(steps, turns, k, CommandLoop(Execute(steps), turns).0, CommandLoop(Execute(steps), turns).1)
    ensures CommandLoop(Execute(steps), turns).1 == None ==>
              k < |turns| && CommandLoop(Execute(steps), turns).0 == Execute(steps + OthersIn(turns[..k + 1]) + [turns[k].attempt])
  {
    k := LoopEnds(steps, turns);
    if k < |turns| {
      var run := steps + OthersIn(turns[..k + 1]);
      LastStep(run, [turns[k].attempt], 0);
      assert run + [] == run;
    }
  }

  /** The projection neither reads nor writes the inbox. */
  lemma ProjectionIgnoresInbox(s: State, inbox: set<Id>, eventId: Id, e: Event, identity: Payment)
    requires e.PaymentCaptured? || e.PaymentRefunded?
    ensures match ProjectLifecycle(s, eventId, e, identity)
            case Ok(s') => ProjectLifecycle(s.(inbox := inbox), eventId, e, identity) == Ok(s'.(inbox := inbox))
            case Err(f) => ProjectLifecycle(s.(inbox := inbox), eventId, e, identity) == Err(f)
  {
  }

  class Store {
    var provisioned: set<Id>
    var payments: map<Id, Payment>
    var refunds: map<Id, RefundRow>
    var journal: Ledger.Journal
    var outbox: map<Id, Event>
    var inbox: set<Id>
    var streams: set<(Id, Currency)>
    var positions: map<Id, Position>
    var items: map<Id, Item>
    var adjustments: map<Id, Adjustment>
    var batches: map<Id, Batch>
    var runs: map<Id, RunRow>

    constructor ()
      ensures Tables() == EMPTY_STATE
    {
      provisioned, payments, refunds, journal, outbox, inbox := {}, map[], map[], [], map[], {};
      streams, positions, items, adjustments, batches, runs := {}, map[], map[], map[], map[], map[];
    }

    function Tables(): State
      reads this
    {
      State(provisioned, payments, refunds, journal, outbox, inbox, streams, positions, items, adjustments, batches, runs)
    }

    method Rollback(s: State)
      modifies this
      ensures Tables() == s
    {
      RestorePayments(s);
      RestoreSettlements(s);
    }

    method RestorePayments(s: State)
      modifies `provisioned, `payments, `refunds, `journal, `outbox, `inbox
      ensures (provisioned, payments, refunds) == (s.provisioned, s.payments, s.refunds)
      ensures (journal, outbox, inbox) == (s.journal, s.outbox, s.inbox)
    {
      provisioned, payments, refunds := s.provisioned, s.payments, s.refunds;
      journal, outbox, inbox := s.journal, s.outbox, s.inbox;
    }

    method RestoreSettlements(s: State)
      modifies `streams, `positions, `items, `adjustments, `batches, `runs
      ensures (streams, positions, items) == (s.streams, s.positions, s.items)
      ensures (adjustments, batches, runs) == (s.adjustments, s.batches, s.runs)
    {
      streams, positions, items := s.streams, s.positions, s.items;
      adjustments, batches, runs := s.adjustments, s.batches, s.runs;
    }

    method Create(c: CreateCommand) returns (failure: Option<Failure>)
      modifies this
      ensures Transacted(old(Tables()), CreateTx(old(Tables()), c), Tables(), failure)
    {
      var before := Tables();
      if c.paymentId in payments {
        return Some(PaymentIdentifierCollision);
      }
      if exists p | p in payments :: payments[p].merchant == c.merchant && payments[p].externalRef == c.externalRef {
        return Some(ExternalReferenceConflict);
      }
      payments := payments[c.paymentId := Payment(c.merchant, c.externalRef, c.currency, c.amount, 0, 0, Created, None, 1)];
      if c.eventId in outbox {
        Rollback(before);
        return Some(EventIdentifierCollision);
      }
      outbox := outbox[c.eventId := PaymentCreated(c.paymentId, c.merchant, c.currency, c.amount)];
      failure := None;
    }

    /** Inserts and finalizes one ledger posting. */
    method PostEntries(p: Ledger.Posting) returns (failure: Option<Failure>)
      modifies `journal
      ensures Transacted(old(Tables()), Post(old(Tables()), p), Tables(), failure)
    {
      match Ledger.CreatePosting(journal, provisioned, p) {
        case Err(e) => failure := Some(LedgerFailure(e));
        case Ok(j) =>
          journal := j;
          failure := None;
      }
    }

    method Capture(c: CaptureCommand) returns (failure: Option<Failure>)
      modifies this
      ensures Transacted(old(Tables()), CaptureTx(old(Tables()), c), Tables(), failure)
    {
      var before := Tables();
      var locked := LockByPublicId(before, c.merchant, c.paymentId);
      var error := CaptureError(locked, c);
      if error.Some? {
        return error;
      }
      var payment := locked.value;
      var entries := Ledger.BuildCaptureEntries(c.amount, payment.currency);
      if entries.Err? {
        return Some(LedgerFailure(entries.error));
      }
      failure := PostEntries(Ledger.Posting(c.ledgerId, c.merchant, payment.currency, Ledger.Capture, c.paymentId, entries.value, None));
      if failure.Some? {
        return;
      }
      var updated := CaptureRow(payment, c.time);
      if updated.Err? {
        Rollback(before);
        return Some(updated.error);
      }
      payments := payments[c.paymentId := updated.value];
      if c.eventId in outbox {
        Rollback(before);
        return Some(EventIdentifierCollision);
      }
      outbox := outbox[c.eventId :=
        PaymentCaptured(c.paymentId, c.merchant, updated.value.currency, updated.value.captured, c.time)];
    }

    method Refund(c: RefundCommand) returns (failure: Option<Failure>)
      modifies this
      ensures Transacted(old(Tables()), RefundTx(old(Tables()), c), Tables(), failure)
    {
      var before := Tables();
      var locked := LockByPublicId(before, c.merchant, c.paymentId);
      var error := RefundError(locked, c);
      if error.Some? {
        return error;
      }
      if c.refundId in refunds {
        return Some(RefundIdentifierCollision);
      }
      if exists r | r in refunds :: refunds[r].merchant == c.merchant && refunds[r].externalRef == c.externalRef {
        return Some(RefundExternalReferenceConflict);
      }
      failure := WriteRefund(c, locked.value);
      if failure.Some? {
        Rollback(before);
      }
    }

    /** The writes of a checked refund; the caller rolls back if one of them fails. */
    method WriteRefund(c: RefundCommand, payment: Payment) returns (failure: Option<Failure>)
      requires LockByPublicId(Tables(), c.merchant, c.paymentId) == Some(payment) && RefundError(Some(payment), c).None?
      requires c.refundId !in refunds
      requires forall r | r in refunds :: !(refunds[r].merchant == c.merchant && refunds[r].externalRef == c.externalRef)
      modifies `refunds, `journal, `payments, `outbox
      ensures match RefundTx(old(Tables()), c)
              case Ok(s') => failure == None && Tables() == s'
              case Err(f) => failure == Some(f)
    {
      refunds := refunds[c.refundId := RefundRow(c.paymentId, c.merchant, c.externalRef, payment.currency, c.amount)];
      var entries := Ledger.BuildRefundEntries(c.amount, payment.currency);
      if entries.Err? {
        return Some(LedgerFailure(entries.error));
      }
      failure := PostEntries(Ledger.Posting(c.ledgerId, c.merchant, payment.currency, Ledger.Refund, c.refundId, entries.value, None));
      if failure.Some? {
        return;
      }
      var updated := RefundRowUpdate(payment, c.amount);
      assert updated.Ok?; // the row is locked and its status was checked, so the guarded update cannot miss it
      payments := payments[c.paymentId := updated.value];
      if c.eventId in outbox {
        return Some(EventIdentifierCollision);
      }
      outbox := outbox[c.eventId := PaymentRefunded(c.paymentId, c.merchant, updated.value.currency, c.amount,
                                                    c.refundId, updated.value.refunded, c.time)];
    }

    /** One delivery to the settlement projection: reserve the inbox row, then apply the effect. */
    method Deliver(eventId: Id) returns (failure: Option<Failure>)
      modifies this
      ensures Transacted(old(Tables()), ProjectTx(old(Tables()), eventId), Tables(), failure)
    {
      var before := Tables();
      if eventId !in outbox {
        return Some(EventNotEmitted);
      }
      var e := outbox[eventId];
      if !e.PaymentCaptured? && !e.PaymentRefunded? {
        return Some(UnsupportedEvent);
      }
      if eventId in inbox {
        return None;
      }
      inbox := inbox + {eventId};
      var identity := ReadIdentity(before, e);
      if identity.None? || identity.value.currency != e.currency {
        Rollback(before);
        return Some(ProjectionIdentityMismatch);
      }
      ProjectionIgnoresInbox(before, inbox, eventId, e, identity.value);
      failure := ProjectEvent(eventId, e, identity.value);
      if failure.Some? {
        Rollback(before);
      }
    }

    /** The effect of one event on positions and adjustments; the caller rolls back if it fails. */
    method ProjectEvent(eventId: Id, e: Event, identity: Payment) returns (failure: Option<Failure>)
      requires e.PaymentCaptured? || e.PaymentRefunded?
      modifies `streams, `positions, `adjustments
      ensures match ProjectLifecycle(old(Tables()), eventId, e, identity)
              case Ok(s') => failure == None && Tables() == s'
              case Err(f) => failure == Some(f)
    {
      if e.PaymentCaptured? {
        streams := streams + {(e.merchant, e.currency)};
        var position := if e.payment in positions
          then positions[e.payment].(availableAt := e.availableOn, captured := e.amount)
          else Position(e.merchant, e.currency, e.amount, identity.refunded, e.availableOn);
        positions := positions[e.payment := position];
        return None;
      }
      if e.payment !in positions {
        return None;
      }
      var position := positions[e.payment];
      if position.merchant != e.merchant || position.currency != e.currency {
        return Some(RefundProjectionConflict);
      }
      positions := positions[e.payment := position.(refunded := Max(position.refunded, e.cumulative))];
      if e.payment !in items || e.cumulative <= items[e.payment].refunded {
        return None;
      }
      if e.refund in adjustments {
        return Some(UniqueAdjustment);
      }
      adjustments := adjustments[e.refund :=
        Adjustment(e.merchant, e.currency, e.payment, e.amount, e.occurredAt, eventId, Pending)];
      failure := None;
    }

    /** The authoritative re-check of the locked candidates. */
    method FilterCandidates(currency: Currency, cutoff: int, rows: seq<Id>) returns (live: seq<Id>)
      requires forall p | p in rows :: p in payments
      ensures live == LiveCandidates(Tables(), currency, cutoff, rows)
    {
      live := [];
      for i := 0 to |rows|
        invariant live == LiveCandidates(Tables(), currency, cutoff, rows[..i])
      {
        assert rows[..i + 1][..i] == rows[..i];
        if StillEligible(Tables(), currency, cutoff, rows[i]) {
          live := live + [rows[i]];
        }
      }
      assert rows[..|rows|] == rows;
    }

    /** Takes the longest settleable prefix of the candidates that pass the re-check. */
    method TakeItems(currency: Currency, live: seq<Id>) returns (r: Result<(nat, int, int), Failure>)
      requires Open(Tables(), live)
      ensures match BoundedCount(Grosses(Tables(), live), currency)
              case Err(_) => r == Err(SettlementFeeExceedsGross)
              case Ok(n) =>
                var taken := live[..n];
                r == Ok((n, Total(Grosses(Tables(), taken)), Total(Fees(Grosses(Tables(), taken), currency))))
    {
      var outcome, paymentGross, fee := AccumulateItems(Grosses(Tables(), live), currency);
      match outcome {
        case Err(_) => r := Err(SettlementFeeExceedsGross);
        case Ok(n) =>
          assert Grosses(Tables(), live[..n]) == Grosses(Tables(), live)[..n];
          r := Ok((n, paymentGross, fee));
      }
    }

    /** Locks the candidates' payment rows and re-checks each of them. */
    method LockPayments(c: RunCommand, candidates: seq<Id>) returns (r: Result<seq<Id>, Failure>)
      ensures if exists i | 0 <= i < |candidates| :: LockByPublicId(Tables(), c.merchant, candidates[i]).None?
              then r == Err(SettlementInvariantViolation)
              else && (forall p | p in candidates :: p in payments)
                   && r == Ok(LiveCandidates(Tables(), c.currency, c.cutoff, candidates))
    {
      if exists i | 0 <= i < |candidates| :: LockByPublicId(Tables(), c.merchant, candidates[i]).None? {
        return Err(SettlementInvariantViolation);
      }
      forall p | p in candidates ensures p in payments {
        var i :| 0 <= i < |candidates| && candidates[i] == p;
        assert LockByPublicId(Tables(), c.merchant, candidates[i]).Some?;
      }
      var live := FilterCandidates(c.currency, c.cutoff, candidates);
      r := Ok(live);
    }

    /** Decides what a run settles, from the locked rows. */
    method PrepareRun(c: RunCommand, rows: seq<Id>, adjustmentRows: seq<Id>) returns (r: Result<Plan, Failure>)
      requires forall a | a in adjustmentRows :: a in adjustments
      ensures r == PlanRun(Tables(), c, rows, adjustmentRows)
    {
      var live := LockPayments(c, Page(rows));
      if live.Err? {
        return Err(live.error);
      }
      var taken := TakeItems(c.currency, live.value);
      if taken.Err? {
        return Err(taken.error);
      }
      var page := Page(adjustmentRows);
      var adjustmentMinor := Total(AdjustmentAmounts(Tables(), page));
      if adjustmentMinor > MAX_SAFE_INTEGER {
        return Err(SettlementInvariantViolation);
      }
      r := Ok(Plan(live.value[..taken.value.0], |live.value|, page, taken.value.1, taken.value.2, adjustmentMinor,
                   |rows| > PAGE, |adjustmentRows| > PAGE));
    }

    /** Inserts the batch and its items and finalizes the adjustments. */
    method PersistSettlement(c: RunCommand, plan: Plan) returns (failure: Option<Failure>)
      requires Open(Tables(), plan.items)
      modifies `batches, `items, `adjustments
      ensures Transacted(old(Tables()), Persist(old(Tables()), c, plan), Tables(), failure)
    {
      if c.batchId in batches {
        return Some(BatchIdentifierCollision);
      }
      if exists i | 0 <= i < |plan.items| :: plan.items[i] in items {
        return Some(UniqueItem);
      }
      batches := batches[c.batchId := Batch(c.merchant, c.currency, plan.paymentGross, plan.adjustmentMinor, plan.Gross(),
                                            plan.fee, plan.Net(), |plan.items|, |plan.adjustments|)];
      items := items + map p | p in plan.items :: MakeItem(payments[p], c.batchId, c.currency);
      adjustments := map r | r in adjustments ::
        if r in plan.adjustments then adjustments[r].(status := Settled(c.batchId)) else adjustments[r];
      failure := None;
    }

    /** One settlement run over the rows its two queries locked. */
    method Settle(c: RunCommand, rows: seq<Id>, adjustmentRows: seq<Id>) returns (failure: Option<Failure>)
      requires forall a | a in adjustmentRows :: a in adjustments
      modifies this
      ensures Transacted(old(Tables()), RunTx(old(Tables()), c, rows, adjustmentRows), Tables(), failure)
    {
      var before := Tables();
      var prepared := PrepareRun(c, rows, adjustmentRows);
      if prepared.Err? {
        return Some(prepared.error);
      }
      if c.runId in runs {
        return Some(RunIdentifierCollision);
      }
      if prepared.value.Noop() {
        runs := runs[c.runId := RunRow(c.merchant, c.currency, None, prepared.value.MoreEligible())];
        return None;
      }
      failure := PostAndPersist(c, prepared.value);
      if failure.Some? {
        Rollback(before);
      }
    }

    /** The writing half of a run; the caller rolls back if it fails. */
    method PostAndPersist(c: RunCommand, plan: Plan) returns (failure: Option<Failure>)
      requires Open(Tables(), plan.items)
      modifies this
      ensures match SettlePlan(old(Tables()), c, plan)
              case Ok(s') => failure == None && Tables() == s'
              case Err(e) => failure == Some(e)
    {
      var entries := Ledger.BuildSettlementEntries(plan.Gross(), plan.fee, plan.Net(), c.currency);
      if entries.Err? {
        return Some(LedgerFailure(entries.error));
      }
      failure := PostEntries(Ledger.Posting(c.ledgerId, c.merchant, c.currency, Ledger.Settlement, c.batchId, entries.value, None));
      if failure.Some? {
        return;
      }
      failure := PersistSettlement(c, plan);
      if failure.Some? {
        return;
      }
      runs := runs[c.runId := RunRow(c.merchant, c.currency, Some(c.batchId), plan.MoreEligible())];
      if c.eventId in outbox {
        return Some(EventIdentifierCollision);
      }
      outbox := outbox[c.eventId :=
        SettlementFinalized(c.batchId, c.merchant, c.currency, plan.Gross(), plan.fee, plan.Net(), |plan.items|)];
    }

    // ----- commands, with up to three attempts -----

    /** The tables as the transactions of others leave them. */
    method Meanwhile(s: State)
      modifies this
      ensures Tables() == s
    {
      Rollback(s);
    }

    /** The capture command: every attempt draws new identifiers, and only a collision leads to another attempt. Before
        attempt i the others' transactions `others[i]` leave the tables `meanwhile[i]`. */
    method CaptureCommandLoop(attempts: seq<CaptureCommand>, meanwhile: seq<State>, ghost others: seq<seq<Step>>)
      returns (failure: Option<Failure>)
      requires |attempts| == MAX_IDENTIFIER_ATTEMPTS && Interleaved(Tables(), others, meanwhile, |attempts|)
      modifies this
      ensures (Tables(), failure) == CommandLoop(old(Tables()), CaptureTurns(others, attempts))
    {
      ghost var before, turns := Tables(), CaptureTurns(others, attempts);
      for i := 0 to MAX_IDENTIFIER_ATTEMPTS
        invariant Tables() == TablesBefore(before, meanwhile, i)
        invariant CommandLoop(before, turns) == CommandLoop(Tables(), turns[i..])
      {
        assert turns[i..][0] == turns[i] && turns[i..][1..] == turns[i + 1..];
        Meanwhile(meanwhile[i]);
        failure := Capture(attempts[i]);
        if failure.None? || !IsCollision(failure.value) {
          return;
        }
      }
      failure := Some(IdentifierGenerationExhausted);
    }

    method RefundCommandLoop(attempts: seq<RefundCommand>, meanwhile: seq<State>, ghost others: seq<seq<Step>>)
      returns (failure: Option<Failure>)
      requires |attempts| == MAX_IDENTIFIER_ATTEMPTS && Interleaved(Tables(), others, meanwhile, |attempts|)
      modifies this
      ensures (Tables(), failure) == CommandLoop(old(Tables()), RefundTurns(others, attempts))
    {
      ghost var before, turns := Tables(), RefundTurns(others, attempts);
      for i := 0 to MAX_IDENTIFIER_ATTEMPTS
        invariant Tables() == TablesBefore(before, meanwhile, i)
        invariant CommandLoop(before, turns) == CommandLoop(Tables(), turns[i..])
      {
        assert turns[i..][0] == turns[i] && turns[i..][1..] == turns[i + 1..];
        Meanwhile(meanwhile[i]);
        failure := Refund(attempts[i]);
        if failure.None? || !IsCollision(failure.value) {
          return;
        }
      }
      failure := Some(IdentifierGenerationExhausted);
    }

    method CreateCommandLoop(attempts: seq<CreateCommand>, meanwhile: seq<State>, ghost others: seq<seq<Step>>)
      returns (failure: Option<Failure>)
      requires |attempts| == MAX_IDENTIFIER_ATTEMPTS && Interleaved(Tables(), others, meanwhile, |attempts|)
      modifies this
      ensures (Tables(), failure) == CommandLoop(old(Tables()), CreateTurns(others, attempts))
    {
      ghost var before, turns := Tables(), CreateTurns(others, attempts);
      for i := 0 to MAX_IDENTIFIER_ATTEMPTS
        invariant Tables() == TablesBefore(before, meanwhile, i)
        invariant CommandLoop(before, turns) == CommandLoop(Tables(), turns[i..])
      {
        assert turns[i..][0] == turns[i] && turns[i..][1..] == turns[i + 1..];
        Meanwhile(meanwhile[i]);
        failure := Create(attempts[i]);
        if failure.None? || !IsCollision(failure.value) {
          return;
        }
      }
      failure := Some(IdentifierGenerationExhausted);
    }
  }

  ghost function TablesBefore(s: State, meanwhile: seq<State>, i: nat): State
    requires i <= |meanwhile|
  {
    if i == 0 then s else meanwhile[i - 1]
  }

  /** The tables before each attempt are what the others made of those before the previous one, which collided. */
  ghost predicate Interleaved(s: State, others: seq<seq<Step>>, meanwhile: seq<State>, n: nat) {
    && |others| == |meanwhile| == n
    && forall i | 0 <= i < n :: meanwhile[i] == Run(TablesBefore(s, meanwhile, i), others[i])
  }

  ghost function CaptureTurns(others: seq<seq<Step>>, attempts: seq<CaptureCommand>): (r: seq<Turn>)
    requires |others| == |attempts|
    ensures |r| == |attempts|
  {
    seq(|attempts|, i requires 0 <= i < |attempts| => Turn(others[i], Step.Capture(attempts[i])))
  }

  ghost function RefundTurns(others: seq<seq<Step>>, attempts: seq<RefundCommand>): (r: seq<Turn>)
    requires |others| == |attempts|
    ensures |r| == |attempts|
  {
    seq(|attempts|, i requires 0 <= i < |attempts| => Turn(others[i], Step.Refund(attempts[i])))
  }

  ghost function CreateTurns(others: seq<seq<Step>>, attempts: seq<CreateCommand>): (r: seq<Turn>)
    requires |others| == |attempts|
    ensures |r| == |attempts|
  {
    seq(|attempts|, i requires 0 <= i < |attempts| => Turn(others[i], Step.Create(attempts[i])))
  }
}
