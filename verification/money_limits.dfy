/** Where the promises of a settlement run end: what a run beside a delivery leaves out, and what blocks a stream. */
module MoneyLimits {
  import opened Basics
  import opened Sums
  import opened SettlementPolicy
  import opened MoneyState
  import opened MoneyInvariant
  import opened MoneySettlement
  import opened MoneyTheorems
  import opened MoneyRuns

  // ----- one captured payment -----

  function CaptureOf(amount: Amount): CaptureCommand { CaptureCommand(1, 10, amount, USD, 30, 21, 5) }

  /** A payment is created, captured and projected. */
  function CapturedRun(amount: Amount): seq<Step> {
    [Provision(1), Create(CreateCommand(1, "order-1", amount, USD, 10, 20)), Capture(CaptureOf(amount)), Deliver(21)]
  }

  function CreatedTables(amount: Amount): State {
    EMPTY_STATE.(provisioned := {1},
                 payments := map[10 := Payment(1, "order-1", USD, amount, 0, 0, Created, None, 1)],
                 outbox := map[20 := PaymentCreated(10, 1, USD, amount)])
  }

  function CapturedTables(amount: Amount): State {
    EMPTY_STATE.(provisioned := {1},
                 payments := map[10 := Payment(1, "order-1", USD, amount, amount, 0, Captured, Some(5), 2)],
                 journal := [CapturePosting(CaptureOf(amount), USD)],
                 outbox := map[20 := PaymentCreated(10, 1, USD, amount), 21 := PaymentCaptured(10, 1, USD, amount, 5)],
                 inbox := {21}, streams := {(1, USD)}, positions := map[10 := Position(1, USD, amount, 0, 5)])
  }

  lemma CreatedState(amount: Amount)
    ensures Execute(CapturedRun(amount)[..2]) == CreatedTables(amount)
  {
    var a, b := CapturedRun(amount)[..1], CapturedRun(amount)[..2];
    assert a[..0] == [] && b[..1] == a;
    var s1 := EMPTY_STATE.(provisioned := {1});
    assert Execute(a) == s1 by { assert Execute(a) == Apply(Execute(a[..0]), a[0]); }
    assert Execute(b) == Apply(s1, b[1]);
  }

  lemma CapturedState(amount: Amount)
    ensures Execute(CapturedRun(amount)) == CapturedTables(amount)
  {
    CreatedState(amount);
    var run := CapturedRun(amount);
    var c := run[..3];
    assert c[..2] == run[..2] && run[..|run| - 1] == c;
    var s2 := CreatedTables(amount);
    var s3 := Apply(s2, c[2]);
    assert Execute(c) == s3;
    CaptureEffect(s2, CaptureOf(amount));
    assert s3.payments == CapturedTables(amount).payments && s3.journal == CapturedTables(amount).journal;
    assert Execute(run) == Apply(s3, Deliver(21));
  }

  // ----- locked positions -----

  /** Runs of one stream wait for each other, so the one transaction that can keep a position of the stream locked during a
      run is the delivery of an event that is not processed yet. */
  ghost predicate LockedByDelivery(s: State, p: Id) {
    exists e :: PaymentEvent(s, e, p) && e !in s.inbox
  }

  ghost predicate AwaitsRefund(s: State, p: Id) {
    exists e :: IsRefund(s, e) && s.outbox[e].payment == p && e !in s.inbox
  }

  /** The capture of a projected payment is processed: only a refund can still be on its way. */
  lemma OnlyRefundsLock(s: State, p: Id)
    requires PositionsOk(s) && p in s.positions && LockedByDelivery(s, p)
    ensures AwaitsRefund(s, p)
  {
    var e :| PaymentEvent(s, e, p) && e !in s.inbox;
    assert InboxRow(s, e);
  }

  ghost predicate RefundsDelivered(s: State, m: Id, c: Currency) {
    forall e | IsRefund(s, e) && s.outbox[e].merchant == m && s.outbox[e].currency == c :: e in s.inbox
  }

  lemma NothingAwaited(s: State, m: Id, c: Currency, p: Id)
    requires EventsOk(s) && RefundsDelivered(s, m, c)
    requires p in s.payments && s.payments[p].merchant == m && s.payments[p].currency == c
    ensures !AwaitsRefund(s, p)
  {
    forall e | IsRefund(s, e) && s.outbox[e].payment == p ensures e in s.inbox { assert EventRow(s, e); }
  }

  /** What a run leaves although it reports that nothing more is eligible awaits the delivery of a refund; so once the refund
      events of the stream are processed, such a run leaves nothing eligible. */
  lemma LeftoversAwaitRefunds(steps: seq<Step>, c: RunCommand, locked: set<Id>, rows: seq<Id>, adjustmentRows: seq<Id>, s': State)
    requires Selected(Execute(steps), c, locked, rows, adjustmentRows)
    requires RunTx(Execute(steps), c, rows, adjustmentRows) == Ok(s')
    requires c.runId in s'.runs && !s'.runs[c.runId].moreEligible
    requires forall p | p in locked :: LockedByDelivery(Execute(steps), p)
    ensures var s := Execute(steps);
            && (forall p | TrulyEligible(s', c.merchant, c.currency, c.cutoff, p) :: AwaitsRefund(s, p))
            && (RefundsDelivered(s, c.merchant, c.currency) ==> forall p :: !TrulyEligible(s', c.merchant, c.currency, c.cutoff, p))
  {
    var s := Execute(steps);
    ExecutionKeepsRows(steps);
    NothingMoreEligible(steps, c, locked, rows, adjustmentRows, s');
    forall p | TrulyEligible(s', c.merchant, c.currency, c.cutoff, p)
      ensures AwaitsRefund(s, p) && !RefundsDelivered(s, c.merchant, c.currency)
    {
      OnlyRefundsLock(s, p);
      if RefundsDelivered(s, c.merchant, c.currency) { NothingAwaited(s, c.merchant, c.currency, p); }
    }
  }

  const REFUND := RefundCommand(1, 10, "refund-1", 300, USD, 50, 51, 52, 6)

  /** A payment of 1000 minor units with a refund of 300 whose event is not delivered yet. */
  function PartlyRefundedRun(): seq<Step> { CapturedRun(1000) + [Refund(REFUND)] }

  lemma CapturedIsRefundable()
    ensures RefundTx(CapturedTables(1000), REFUND).Ok?
    ensures RefundDelta(CapturedTables(1000), REFUND, RefundTx(CapturedTables(1000), REFUND).value)
  {
    CapturedState(1000);
    RefundCommits(CapturedRun(1000), REFUND);
    ExecutionKeepsRows(CapturedRun(1000));
    RefundEffect(CapturedTables(1000), REFUND);
  }

  lemma PartlyRefundedState()
    ensures var s, t := Execute(PartlyRefundedRun()), CapturedTables(1000);
            && s.payments == map[10 := Payment(1, "order-1", USD, 1000, 1000, 300, PartiallyRefunded, Some(5), 3)]
            && s.outbox == t.outbox[52 := PaymentRefunded(10, 1, USD, 300, 50, 300, 6)]
            && s.inbox == t.inbox && s.positions == t.positions && s.items == map[] && s.adjustments == map[] && s.runs == map[]
  {
    CapturedState(1000);
    CapturedIsRefundable();
    assert PartlyRefundedRun()[..4] == CapturedRun(1000);
    assert Execute(PartlyRefundedRun()) == Apply(CapturedTables(1000), Refund(REFUND));
  }

  const RUN := RunCommand(1, USD, 100, 40, 41, 42, 43)

  /** A run beside the delivery of that refund passes over the position and reports nothing more, although 700 minor units
      of the payment are eligible. */
  lemma LockedPaymentIsNotReported()
    ensures var s := Execute(PartlyRefundedRun());
            && Selected(s, RUN, {10}, [], []) && LockedByDelivery(s, 10) && RunTx(s, RUN, [], []).Ok?
            && var s' := RunTx(s, RUN, [], []).value;
               s'.runs == map[40 := RunRow(1, USD, None, false)] && TrulyEligible(s', 1, USD, 100, 10)
  {
    PartlyRefundedState();
    var s := Execute(PartlyRefundedRun());
    assert PaymentEvent(s, 52, 10);
    assert Grosses(s, []) == [];
    assert Total(AdjustmentAmounts(s, [])) == 0;
    assert PlanRun(s, RUN, [], []) == Ok(Plan([], 0, [], 0, 0, 0, false, false));
  }

  // ----- blocked streams -----

  /** With representable sums before it, a candidate that cannot pay its fee blocks at its place or earlier. */
  lemma {:induction false} UnpayableBlocks(grosses: seq<Positive>, currency: Currency, i: nat)
    requires i < |grosses| && Fee(grosses[i], currency) >= grosses[i]
    requires Total(grosses[..i]) <= MAX_SAFE_INTEGER && Total(Fees(grosses[..i], currency)) <= MAX_SAFE_INTEGER
    ensures exists n: nat | n <= i :: BlockedAt(grosses, currency, n)
    decreases i
  {
    if j :| 0 <= j < i && Fee(grosses[j], currency) >= grosses[j] {
      LongerIsLarger(grosses, currency, j, i);
      UnpayableBlocks(grosses, currency, j);
    } else {
      assert BlockedAt(grosses, currency, i);
    }
  }

  /** Payment p is candidate i of a run, inside or right after the prefix whose sums are representable. */
  ghost predicate ReachedAt(s: State, c: RunCommand, rows: seq<Id>, p: Id, i: nat)
    requires forall q | q in Page(rows) :: q in s.payments
  {
    var live := LiveCandidates(s, c.currency, c.cutoff, Page(rows));
    && i < |live| && live[i] == p
    && Total(LiveGrosses(s, c, rows)[..i]) <= MAX_SAFE_INTEGER
    && Total(Fees(LiveGrosses(s, c, rows)[..i], c.currency)) <= MAX_SAFE_INTEGER
  }

  ghost predicate Reached(s: State, c: RunCommand, rows: seq<Id>, p: Id) {
    (forall q | q in Page(rows) :: q in s.payments) && exists i: nat :: ReachedAt(s, c, rows, p, i)
  }

  /** A payment whose fee reaches its gross. */
  ghost predicate Unpayable(s: State, p: Id) {
    p in s.payments && 0 < Gross(s.payments[p]) < SmallestSettleable(s.payments[p].currency)
  }

  lemma ReachedIsBlocked(s: State, c: RunCommand, rows: seq<Id>, p: Id)
    requires Reached(s, c, rows, p) && Unpayable(s, p) && s.payments[p].currency == c.currency
    ensures exists n: nat :: BlockedAt(LiveGrosses(s, c, rows), c.currency, n)
  {
    var i: nat :| ReachedAt(s, c, rows, p, i);
    FeeBelowGross(Gross(s.payments[p]), c.currency);
    UnpayableBlocks(LiveGrosses(s, c, rows), c.currency, i);
  }

  /** A run that reaches an unpayable payment fails and changes nothing, whatever identifiers it draws. */
  lemma ReachedPaymentFailsRun(s: State, c: RunCommand, locked: set<Id>, rows: seq<Id>, adjustmentRows: seq<Id>, p: Id)
    requires PositionsOk(s) && Selected(s, c, locked, rows, adjustmentRows)
    requires Reached(s, c, rows, p) && Unpayable(s, p) && s.payments[p].currency == c.currency
    ensures RunTx(s, c, rows, adjustmentRows) == Err(SettlementFeeExceedsGross)
  {
    CandidatesAreKnown(s, c, locked, rows, adjustmentRows);
    ReachedIsBlocked(s, c, rows, p);
    BlockedIffError(LiveGrosses(s, c, rows), c.currency);
    assert !(exists k | 0 <= k < |Page(rows)| :: LockByPublicId(s, c.merchant, Page(rows)[k]).None?);
  }

  lemma FailedRunChangesNothing(s: State, c: RunCommand, locked: set<Id>, rows: seq<Id>, adjustmentRows: seq<Id>, p: Id)
    requires RowsOk(s) && Selected(s, c, locked, rows, adjustmentRows)
    requires Reached(s, c, rows, p) && Unpayable(s, p) && s.payments[p].currency == c.currency
    ensures Attempt(s, Settle(c, locked, rows, adjustmentRows)) == Err(SettlementFeeExceedsGross)
    ensures Apply(s, Settle(c, locked, rows, adjustmentRows)) == s
  {
    ReachedPaymentFailsRun(s, c, locked, rows, adjustmentRows, p);
  }

  lemma RunLeavesUnpayable(s: State, c: RunCommand, locked: set<Id>, rows: seq<Id>, adjustmentRows: seq<Id>, p: Id)
    requires PositionsOk(s) && AdjustmentsOk(s) && Selected(s, c, locked, rows, adjustmentRows)
    requires RunTx(s, c, rows, adjustmentRows).Ok? && p !in s.items && p in s.payments
    requires 0 <= Gross(s.payments[p]) < SmallestSettleable(s.payments[p].currency)
    ensures p !in RunTx(s, c, rows, adjustmentRows).value.items
  {
    FeeBelowGross(Gross(s.payments[p]), s.payments[p].currency);
    PlanIsOk(s, c, locked, rows, adjustmentRows);
    var plan := RunOutcome(s, c, rows, adjustmentRows, RunTx(s, c, rows, adjustmentRows).value);
    assert p in plan.items ==> Takes(s, c, p);
  }

  /** No step ever puts an unpayable payment into a batch. */
  lemma StepLeavesUnpayable(s: State, step: Step, p: Id)
    requires RowsOk(s) && p !in s.items && p in s.payments
    requires 0 <= Gross(s.payments[p]) < SmallestSettleable(s.payments[p].currency)
    ensures p !in Apply(s, step).items
  {
    if Attempt(s, step).Ok? {
      match step
      case Settle(c, locked, rows, adjustmentRows) => RunLeavesUnpayable(s, c, locked, rows, adjustmentRows, p);
      case Capture(c) => CaptureEffect(s, c);
      case Refund(c) => RefundEffect(s, c);
      case Deliver(e) => ProjectionAlwaysCommits(s, e);
      case _ =>
    }
  }

  lemma {:induction false} UnpayableIsNeverBatched(steps: seq<Step>, later: seq<Step>, p: Id)
    requires Unpayable(Execute(steps), p) && p !in Execute(steps).items
    ensures p !in Execute(steps + later).items
    decreases |later|
  {
    if later == [] {
      assert steps + later == steps;
    } else {
      var n := |later| - 1;
      UnpayableIsNeverBatched(steps, later[..n], p);
      var mid := Execute(steps + later[..n]);
      EvidenceIsForever(steps, later[..n]);
      ExecutionKeepsRows(steps);
      ExecutionKeepsRows(steps + later[..n]);
      assert PaymentEvolves(Execute(steps), mid, p) && PaymentRow(Execute(steps), p) && PaymentRow(mid, p);
      LastStep(steps, later, n);
      StepLeavesUnpayable(mid, later[n], p);
    }
  }

  lemma PositionsStay(s: State, s': State, p: Id)
    requires RowsOk(s) && RowsOk(s') && EvidenceStays(s, s') && p in s.positions
    ensures p in s'.positions
  {
    assert PositionOk(s, p) && PaymentHasEvents(s, p);
    var e :| IsCapture(s, e, p);
    assert InboxRow(s, e) && InboxRow(s', e);
  }

  /** An unpayable payment that is eligible stays so until it is refunded in full: it never gets into a batch. */
  lemma UnpayableStaysEligible(steps: seq<Step>, later: seq<Step>, m: Id, c: Currency, cutoff: int, p: Id)
    requires TrulyEligible(Execute(steps), m, c, cutoff, p) && Unpayable(Execute(steps), p)
    ensures var s := Execute(steps + later);
            && p in s.payments && p !in s.items
            && (s.payments[p].refunded == s.payments[p].captured || (TrulyEligible(s, m, c, cutoff, p) && Unpayable(s, p)))
  {
    var s := Execute(steps + later);
    EvidenceIsForever(steps, later);
    UnpayableIsNeverBatched(steps, later, p);
    ExecutionKeepsRows(steps);
    ExecutionKeepsRows(steps + later);
    PositionsStay(Execute(steps), s, p);
    assert PaymentEvolves(Execute(steps), s, p) && PaymentRow(Execute(steps), p) && PaymentRow(s, p);
  }

  /** One unpayable payment blocks its stream: from then on every run with that cutoff or a later one that reaches it fails
      and changes nothing, until the payment is refunded in full. */
  lemma StreamStaysBlocked(steps: seq<Step>, later: seq<Step>, cutoff: int, p: Id,
                           c: RunCommand, locked: set<Id>, rows: seq<Id>, adjustmentRows: seq<Id>)
    requires TrulyEligible(Execute(steps), c.merchant, c.currency, cutoff, p) && Unpayable(Execute(steps), p) && cutoff <= c.cutoff
    requires Selected(Execute(steps + later), c, locked, rows, adjustmentRows)
    ensures var s := Execute(steps + later);
            && p in s.payments
            && (s.payments[p].refunded < s.payments[p].captured && Reached(s, c, rows, p) ==>
                  && Attempt(s, Settle(c, locked, rows, adjustmentRows)) == Err(SettlementFeeExceedsGross)
                  && Apply(s, Settle(c, locked, rows, adjustmentRows)) == s)
  {
    var s := Execute(steps + later);
    UnpayableStaysEligible(steps, later, c.merchant, c.currency, cutoff, p);
    ExecutionKeepsRows(steps + later);
    if s.payments[p].refunded < s.payments[p].captured && Reached(s, c, rows, p) {
      FailedRunChangesNothing(s, c, locked, rows, adjustmentRows, p);
    }
  }

  lemma {:induction false} FirstStaysFirst(s: State, currency: Currency, cutoff: int, rows: seq<Id>)
    requires rows != [] && (forall p | p in rows :: p in s.payments) && StillEligible(s, currency, cutoff, rows[0])
    ensures LiveCandidates(s, currency, cutoff, rows) != [] && LiveCandidates(s, currency, cutoff, rows)[0] == rows[0]
  {
    var n := |rows| - 1;
    if n > 0 { FirstStaysFirst(s, currency, cutoff, rows[..n]); }
  }

  /** The run reaches the payment that comes first among those it may select. */
  lemma EarliestIsReached(s: State, c: RunCommand, locked: set<Id>, rows: seq<Id>, adjustmentRows: seq<Id>, p: Id)
    requires PositionsOk(s) && Selected(s, c, locked, rows, adjustmentRows)
    requires TrulyEligible(s, c.merchant, c.currency, c.cutoff, p) && p !in locked
    requires forall q | EligiblePosition(s, c.merchant, c.currency, c.cutoff, q) && q !in locked && q != p :: PositionBefore(s, p, q)
    ensures Reached(s, c, rows, p)
  {
    CandidatesAreKnown(s, c, locked, rows, adjustmentRows);
    TrulyEligibleIsCandidate(s, c.merchant, c.currency, c.cutoff, p);
    assert rows != [] ==> !PositionBefore(s, rows[0], p);
    var k :| 0 <= k < |rows| && rows[k] == p;
    assert k == 0;
    FirstStaysFirst(s, c.currency, c.cutoff, Page(rows));
    assert LiveGrosses(s, c, rows)[..0] == [];
    assert ReachedAt(s, c, rows, p, 0);
  }

  lemma SingleCandidate(amount: Amount)
    ensures var s := Execute(CapturedRun(amount));
            && RowsOk(s) && s == CapturedTables(amount) && Selected(s, RUN, {}, [10], []) && TrulyEligible(s, 1, USD, 100, 10)
  {
    CapturedState(amount);
    ExecutionKeepsRows(CapturedRun(amount));
  }

  lemma NothingBlocks(amount: Amount)
    requires amount >= 26
    ensures var s := CapturedTables(amount);
            && LiveGrosses(s, RUN, [10]) == [amount]
            && !(exists n: nat :: BlockedAt(LiveGrosses(s, RUN, [10]), USD, n))
            && Total(AdjustmentAmounts(s, Page([]))) == 0
  {
    var s := CapturedTables(amount);
    FeeBelowGross(amount, USD);
    assert [10][..0] == [];
    assert LiveCandidates(s, USD, 100, [10]) == [10];
    assert LiveGrosses(s, RUN, [10]) == [amount];
  }

  /** The batch and the item of a payment that is settled alone. */
  ghost predicate SettledAlone(s: State, amount: Amount) {
    var fee := 25 + amount / 50;
    && s.runs == map[40 := RunRow(1, USD, Some(41), false)]
    && s.batches == map[41 := Batch(1, USD, amount, 0, amount, fee, amount - fee, 1, 0)]
    && s.items == map[10 := Item(41, 1, USD, amount, 0, amount, fee, amount - fee)]
  }

  lemma SinglePrefix(amount: Amount)
    requires amount >= 26
    ensures WithinBounds([amount], USD, 1) && Total([amount][..1]) == amount && Total(Fees([amount][..1], USD)) == 25 + amount / 50
  {
    FeeBelowGross(amount, USD);
    assert [amount][..1] == [amount] && [amount][..0] == [];
    assert Fees([amount], USD) == [Fee(amount, USD)] && [Fee(amount, USD)][..0] == [];
    assert amount * 200 / 10000 == amount / 50;
  }

  lemma SinglePlan(amount: Amount, plan: Plan)
    requires amount >= 26 && PlanRun(CapturedTables(amount), RUN, [10], []) == Ok(plan)
    ensures plan == Plan([10], 1, [], amount, 25 + amount / 50, 0, false, false)
  {
    var s := CapturedTables(amount);
    NothingBlocks(amount);
    SinglePrefix(amount);
    PlanFields(s, RUN, [10], []);
    var n := PlanTakesLongest(s, RUN, [10], [], plan);
    assert n == 1;
  }

  lemma SingleRunWrites(amount: Amount, plan: Plan, s': State)
    requires amount >= 26 && RunDelta(CapturedTables(amount), RUN, plan, s')
    requires plan == Plan([10], 1, [], amount, 25 + amount / 50, 0, false, false)
    ensures SettledAlone(s', amount)
  {
    var s := CapturedTables(amount);
    assert amount * 200 / 10000 == amount / 50;
    assert s'.items.Keys == {10};
    assert s'.items[10] == MakeItem(s.payments[10], 41, USD);
  }

  lemma SingleCaptureWrites(amount: Amount, s': State)
    requires amount >= 26 && RunTx(CapturedTables(amount), RUN, [10], []) == Ok(s')
    ensures SettledAlone(s', amount)
  {
    var plan := RunOutcome(CapturedTables(amount), RUN, [10], [], s');
    SinglePlan(amount, plan);
    SingleRunWrites(amount, plan, s');
  }

  lemma SingleCaptureCommits(amount: Amount)
    requires amount >= 26
    ensures RunTx(Execute(CapturedRun(amount)), RUN, [10], []).Ok?
  {
    SingleCandidate(amount);
    NothingBlocks(amount);
    RunCommits(CapturedRun(amount), RUN, {}, [10], []);
  }

  /** A captured and projected payment alone in its stream is settled exactly from 26 minor units upwards, in a batch of its
      own with the fee of 25 and a fiftieth; below, the run fails. */
  lemma SingleCaptureSettles(amount: Amount)
    ensures var s := Execute(CapturedRun(amount));
            && Selected(s, RUN, {}, [10], [])
            && if amount >= 26 then RunTx(s, RUN, [10], []).Ok? && SettledAlone(RunTx(s, RUN, [10], []).value, amount)
               else RunTx(s, RUN, [10], []) == Err(SettlementFeeExceedsGross)
  {
    var s := Execute(CapturedRun(amount));
    SingleCandidate(amount);
    if amount < 26 {
      EarliestIsReached(s, RUN, {}, [10], [], 10);
      ReachedPaymentFailsRun(s, RUN, {}, [10], [], 10);
    } else {
      SingleCaptureCommits(amount);
      SingleCaptureWrites(amount, RunTx(s, RUN, [10], []).value);
    }
  }
}
