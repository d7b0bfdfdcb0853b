/** What a projected event and a settlement run keep about the rows of the money tables. */
module MoneySettlement {
  import opened Basics
  import opened Sums
  import opened SettlementPolicy
  import opened MoneyState
  import opened MoneyInvariant
  import Ledger

  // ----- projection -----

  /** Everything a projection leaves alone. */
  ghost predicate ProjectFrame(s: State, e: Id, s': State) {
    && e in s.outbox && e !in s.inbox
    && s'.provisioned == s.provisioned && s'.payments == s.payments && s'.refunds == s.refunds
    && s'.journal == s.journal && s'.outbox == s.outbox && s'.inbox == s.inbox + {e}
    && s'.items == s.items && s'.batches == s.batches && s'.runs == s.runs
  }

  ghost predicate ProjectCaptureDelta(s: State, e: Id, s': State) {
    && ProjectFrame(s, e, s') && s.outbox[e].PaymentCaptured?
    && var v := s.outbox[e];
       && v.payment in s.payments && v.payment !in s.positions
       && s'.streams == s.streams + {(v.merchant, v.currency)} && s'.adjustments == s.adjustments
       && s'.positions == s.positions[v.payment :=
            Position(v.merchant, v.currency, v.amount, s.payments[v.payment].refunded, v.availableOn)]
  }

  ghost predicate ProjectRefundDelta(s: State, e: Id, s': State) {
    && ProjectFrame(s, e, s') && s.outbox[e].PaymentRefunded? && s'.streams == s.streams
    && var v := s.outbox[e];
       if v.payment !in s.positions then s'.positions == s.positions && s'.adjustments == s.adjustments
       else
         && s'.positions == s.positions[v.payment :=
              s.positions[v.payment].(refunded := Max(s.positions[v.payment].refunded, v.cumulative))]
         && (if PostBatch(s, e) then
               && v.refund !in s.adjustments
               && s'.adjustments == s.adjustments[v.refund :=
                    Adjustment(v.merchant, v.currency, v.payment, v.amount, v.occurredAt, e, Pending)]
             else s'.adjustments == s.adjustments)
  }

  /** An emitted payment event that was not processed yet is always projectable: none of the failure
      branches of the projection fires, so a delivery can only be repeated, never be stuck. */
  lemma ProjectionAlwaysCommits(s: State, e: Id)
    requires RowsOk(s) && e in s.outbox && (s.outbox[e].PaymentCaptured? || s.outbox[e].PaymentRefunded?)
    ensures ProjectTx(s, e).Ok?
    ensures e in s.inbox ==> ProjectTx(s, e).value == s
    ensures e !in s.inbox && s.outbox[e].PaymentCaptured? ==> ProjectCaptureDelta(s, e, ProjectTx(s, e).value)
    ensures e !in s.inbox && s.outbox[e].PaymentRefunded? ==> ProjectRefundDelta(s, e, ProjectTx(s, e).value)
  {
    assert EventRow(s, e) && InboxRow(s, e) && AdjustedOnce(s, e);
    assert PositionOk(s, s.outbox[e].payment) && ItemOk(s, s.outbox[e].payment);
  }

  lemma ProjectCaptureKeepsPositions(s: State, e: Id, s': State)
    requires ProjectCaptureDelta(s, e, s')
    requires PaymentsOk(s) && EventsOk(s) && EventsDistinct(s) && PositionsOk(s) && ItemsOk(s) && AdjustmentsOk(s)
    ensures PositionsOk(s') && ItemsOk(s') && AdjustmentsOk(s')
  {
    assert EventRow(s, e) && PaymentRow(s, s.outbox[e].payment);
    forall q ensures PositionOk(s', q) { assert PositionOk(s, q); }
    forall x ensures InboxRow(s', x) {
      assert InboxRow(s, x) && DistinctPair(s, e, x) && EventRow(s, x);
    }
    forall q ensures ItemOk(s', q) { assert ItemOk(s, q); }
    forall x ensures WhollyInOrOut(s', x) { assert WhollyInOrOut(s, x); }
    forall r ensures AdjustmentOk(s', r) { assert AdjustmentOk(s, r); }
    forall x ensures AdjustedOnce(s', x) { assert AdjustedOnce(s, x); }
  }

  lemma ProjectRefundKeepsPositions(s: State, e: Id, s': State)
    requires ProjectRefundDelta(s, e, s')
    requires EventsOk(s) && EventsDistinct(s) && PositionsOk(s) && ItemsOk(s) && AdjustmentsOk(s)
    ensures PositionsOk(s') && ItemsOk(s') && AdjustmentsOk(s')
  {
    assert EventRow(s, e) && ItemOk(s, s.outbox[e].payment);
    forall q ensures PositionOk(s', q) { assert PositionOk(s, q); }
    forall x ensures InboxRow(s', x) { assert InboxRow(s, x) && InboxRow(s, e); }
    forall q ensures ItemOk(s', q) { assert ItemOk(s, q); }
    forall x ensures WhollyInOrOut(s', x) { assert WhollyInOrOut(s, x); }
    forall r ensures AdjustmentOk(s', r) { assert AdjustmentOk(s, r); }
    forall x ensures AdjustedOnce(s', x) {
      assert AdjustedOnce(s, x) && DistinctPair(s, e, x);
    }
  }

  /** Rules over payments, refunds and events survive when those tables do. */
  lemma EventTablesKept(s: State, s': State)
    requires s'.payments == s.payments && s'.refunds == s.refunds && s'.outbox == s.outbox
    requires PaymentsOk(s) && RefundsOk(s) && EventsOk(s) && EventsDistinct(s) && EventsExist(s)
    ensures PaymentsOk(s') && RefundsOk(s') && EventsOk(s') && EventsDistinct(s') && EventsExist(s')
  {
    forall p ensures PaymentRow(s', p) { assert PaymentRow(s, p); }
    forall p ensures PaymentEvolves(s, s', p) {}
    forall x ensures EmitsAt(s, s', 0, x) {}
    assert RefundOk(s, 0) && EventRow(s, 0);
    RefundsKept(s, s', 0);
    EventsKept(s, s', 0);
    forall x, y ensures DistinctPair(s', x, y) { assert DistinctPair(s, x, y); }
    ExistenceKept(s, s', 0);
  }

  lemma ProjectKeepsRows(s: State, e: Id)
    requires RowsOk(s) && ProjectTx(s, e).Ok?
    ensures RowsOk(ProjectTx(s, e).value)
  {
    var s' := ProjectTx(s, e).value;
    ProjectionAlwaysCommits(s, e);
    if e in s.inbox {
      return;
    }
    EventTablesKept(s, s');
    forall p ensures PaymentEvolves(s, s', p) {}
    JournalKept(s, s');
    forall b ensures BatchOk(s', b) { assert BatchOk(s, b); }
    if s.outbox[e].PaymentCaptured? {
      ProjectCaptureKeepsPositions(s, e, s');
    } else {
      ProjectRefundKeepsPositions(s, e, s');
    }
  }

  // ----- settlement runs -----

  lemma {:induction false} LiveCandidatesOnce(s: State, currency: Currency, cutoff: int, rows: seq<Id>)
    requires forall p | p in rows :: p in s.payments
    requires Distinct(rows)
    ensures Distinct(LiveCandidates(s, currency, cutoff, rows))
    ensures forall p | p in rows && StillEligible(s, currency, cutoff, p) :: p in LiveCandidates(s, currency, cutoff, rows)
    ensures |LiveCandidates(s, currency, cutoff, rows)| <= |rows|
  {
    if rows != [] {
      var n := |rows| - 1;
      var init := rows[..n];
      assert rows == init + [rows[n]];
      forall i, j | 0 <= i < j < n ensures init[i] != init[j] { assert rows[i] != rows[j]; }
      LiveCandidatesOnce(s, currency, cutoff, init);
      assert rows[n] !in init;
      if StillEligible(s, currency, cutoff, rows[n]) {
        DistinctAppend(LiveCandidates(s, currency, cutoff, init), rows[n]);
      }
    }
  }

  /** A payment a plan takes is open, of the stream, settleable and in no batch. */
  ghost predicate Takes(s: State, c: RunCommand, p: Id) {
    && p in s.positions && p in s.payments && p !in s.items
    && s.payments[p].merchant == c.merchant && s.payments[p].currency == c.currency
    && Gross(s.payments[p]) > 0 && Fee(Gross(s.payments[p]), c.currency) < Gross(s.payments[p])
  }

  ghost predicate PlanItemsOk(s: State, c: RunCommand, plan: Plan) {
    && Distinct(plan.items) && |plan.items| <= PAGE && Open(s, plan.items)
    && (forall p | p in plan.items :: Takes(s, c, p))
    && plan.paymentGross == Total(Grosses(s, plan.items)) <= MAX_SAFE_INTEGER
    && plan.fee == Total(Fees(Grosses(s, plan.items), c.currency)) <= MAX_SAFE_INTEGER
    && plan.fee >= |plan.items| * ExpectedPolicy(c.currency).flatFee
  }

  ghost predicate PlanAdjustmentsOk(s: State, c: RunCommand, plan: Plan) {
    && Distinct(plan.adjustments) && |plan.adjustments| <= PAGE
    && (forall r | r in plan.adjustments :: PendingOf(s, c.merchant, c.currency, r))
    && plan.adjustmentMinor == Total(AdjustmentAmounts(s, plan.adjustments))
    && 0 <= plan.adjustmentMinor <= MAX_SAFE_INTEGER
  }

  ghost predicate PlanOk(s: State, c: RunCommand, plan: Plan) {
    PlanItemsOk(s, c, plan) && PlanAdjustmentsOk(s, c, plan)
  }

  lemma {:induction false} TotalNonNegative(xs: seq<int>)
    requires forall i | 0 <= i < |xs| :: xs[i] >= 0
    ensures Total(xs) >= 0
  {
    if xs != [] { TotalNonNegative(xs[..|xs| - 1]); }
  }

  ghost predicate Selected(s: State, c: RunCommand, locked: set<Id>, rows: seq<Id>, adjustmentRows: seq<Id>) {
    && CandidateRows(s, c.merchant, c.currency, c.cutoff, locked, rows)
    && AdjustmentRows(s, c.merchant, c.currency, adjustmentRows)
  }

  lemma SelectedOnce(s: State, c: RunCommand, locked: set<Id>, rows: seq<Id>, adjustmentRows: seq<Id>)
    requires Selected(s, c, locked, rows, adjustmentRows)
    ensures Distinct(Page(rows)) && Distinct(Page(adjustmentRows))
    ensures forall p | p in Page(rows) :: EligiblePosition(s, c.merchant, c.currency, c.cutoff, p) && p !in locked
    ensures forall r | r in Page(adjustmentRows) :: PendingOf(s, c.merchant, c.currency, r)
  {
    forall i, j | 0 <= i < j < |rows| ensures rows[i] != rows[j] { assert PositionBefore(s, rows[i], rows[j]); }
    forall i, j | 0 <= i < j < |adjustmentRows| ensures adjustmentRows[i] != adjustmentRows[j] {
      assert AdjustmentBefore(s, adjustmentRows[i], adjustmentRows[j]);
    }
  }

  lemma LiveIsOpen(s: State, c: RunCommand, candidates: seq<Id>, n: nat)
    requires forall p | p in candidates :: p in s.payments
    requires var live := LiveCandidates(s, c.currency, c.cutoff, candidates); n <= |live|
    ensures var live := LiveCandidates(s, c.currency, c.cutoff, candidates);
            Open(s, live) && Open(s, live[..n]) && Grosses(s, live[..n]) == Grosses(s, live)[..n]
  {
  }

  /** The re-check admits only payments of the stream that are open. */
  lemma LiveIsTaken(s: State, c: RunCommand, candidates: seq<Id>, p: Id)
    requires forall p | p in candidates :: EligiblePosition(s, c.merchant, c.currency, c.cutoff, p)
    requires forall p | p in candidates :: p in s.payments && s.payments[p].merchant == c.merchant
    requires p in LiveCandidates(s, c.currency, c.cutoff, candidates)
    requires Fee(Gross(s.payments[p]), c.currency) < Gross(s.payments[p])
    ensures Takes(s, c, p)
  {
  }

  lemma PrefixDistinct<T>(xs: seq<T>, n: nat)
    requires Distinct(xs) && n <= |xs|
    ensures Distinct(xs[..n])
  {
  }

  /** The items of a plan are the longest settleable prefix of the candidates that pass the re-check. */
  lemma PlanItems(s: State, c: RunCommand, candidates: seq<Id>, plan: Plan, n: nat)
    requires Distinct(candidates) && |candidates| <= PAGE
    requires forall p | p in candidates :: EligiblePosition(s, c.merchant, c.currency, c.cutoff, p)
    requires forall p | p in candidates :: p in s.payments && s.payments[p].merchant == c.merchant
    requires var live := LiveCandidates(s, c.currency, c.cutoff, candidates);
             BoundedCount(Grosses(s, live), c.currency) == Ok(n) && n <= |live| && plan.items == live[..n]
    requires Open(s, plan.items)
    requires plan.paymentGross == Total(Grosses(s, plan.items))
    requires plan.fee == Total(Fees(Grosses(s, plan.items), c.currency))
    ensures PlanItemsOk(s, c, plan)
  {
    var live := LiveCandidates(s, c.currency, c.cutoff, candidates);
    LiveCandidatesOnce(s, c.currency, c.cutoff, candidates);
    LiveIsOpen(s, c, candidates, n);
    var grosses := Grosses(s, live);
    TakesLongestPrefix(grosses, c.currency);
    FeesBelowGross(grosses[..n], c.currency);
    PrefixDistinct(live, n);
    forall p | p in plan.items ensures Takes(s, c, p) {
      var i :| 0 <= i < n && live[i] == p;
      assert grosses[i] == Gross(s.payments[p]);
      LiveIsTaken(s, c, candidates, p);
    }
  }

  lemma PlanAdjustments(s: State, c: RunCommand, plan: Plan)
    requires AdjustmentsOk(s) && Distinct(plan.adjustments) && |plan.adjustments| <= PAGE
    requires forall r | r in plan.adjustments :: r in s.adjustments && PendingOf(s, c.merchant, c.currency, r)
    requires plan.adjustmentMinor == Total(AdjustmentAmounts(s, plan.adjustments)) <= MAX_SAFE_INTEGER
    ensures PlanAdjustmentsOk(s, c, plan)
  {
    forall i | 0 <= i < |plan.adjustments| ensures AdjustmentAmounts(s, plan.adjustments)[i] >= 0 {
      assert plan.adjustments[i] in plan.adjustments && AdjustmentOk(s, plan.adjustments[i]);
    }
    TotalNonNegative(AdjustmentAmounts(s, plan.adjustments));
  }

  /** The fields of a plan, read off the run. */
  lemma PlanFields(s: State, c: RunCommand, rows: seq<Id>, adjustmentRows: seq<Id>)
    requires forall a | a in adjustmentRows :: a in s.adjustments
    requires PlanRun(s, c, rows, adjustmentRows).Ok?
    ensures forall p | p in Page(rows) :: p in s.payments && s.payments[p].merchant == c.merchant
    ensures var live := LiveCandidates(s, c.currency, c.cutoff, Page(rows)); var plan := PlanRun(s, c, rows, adjustmentRows).value;
            && BoundedCount(Grosses(s, live), c.currency).Ok?
            && plan.items == live[..BoundedCount(Grosses(s, live), c.currency).value] && plan.live == |live|
            && plan.adjustments == Page(adjustmentRows)
            && plan.paymentGross == Total(Grosses(s, plan.items))
            && plan.fee == Total(Fees(Grosses(s, plan.items), c.currency))
            && plan.adjustmentMinor == Total(AdjustmentAmounts(s, plan.adjustments)) <= MAX_SAFE_INTEGER
            && plan.moreCandidates == (|rows| > PAGE) && plan.moreAdjustments == (|adjustmentRows| > PAGE)
  {
    forall p | p in Page(rows) ensures p in s.payments && s.payments[p].merchant == c.merchant {
      var i :| 0 <= i < |Page(rows)| && Page(rows)[i] == p;
      assert LockByPublicId(s, c.merchant, Page(rows)[i]).Some?;
    }
  }

  lemma PlanIsOk(s: State, c: RunCommand, locked: set<Id>, rows: seq<Id>, adjustmentRows: seq<Id>)
    requires PositionsOk(s) && AdjustmentsOk(s) && Selected(s, c, locked, rows, adjustmentRows)
    requires PlanRun(s, c, rows, adjustmentRows).Ok?
    ensures PlanOk(s, c, PlanRun(s, c, rows, adjustmentRows).value)
  {
    var plan := PlanRun(s, c, rows, adjustmentRows).value;
    SelectedOnce(s, c, locked, rows, adjustmentRows);
    PlanFields(s, c, rows, adjustmentRows);
    PlanItems(s, c, Page(rows), plan, |plan.items|);
    PlanAdjustments(s, c, plan);
  }

  function SettlementEntries(plan: Plan, currency: Currency): seq<Ledger.Entry> {
    match Ledger.BuildSettlementEntries(plan.Gross(), plan.fee, plan.Net(), currency)
    case Ok(entries) => entries
    case Err(_) => []
  }

  function SettlementPosting(c: RunCommand, plan: Plan): Ledger.Posting {
    Ledger.Posting(c.ledgerId, c.merchant, c.currency, Ledger.Settlement, c.batchId, SettlementEntries(plan, c.currency), None)
  }

  /** The rows a completed run writes. */
  ghost predicate RunDelta(s: State, c: RunCommand, plan: Plan, s': State) {
    && Open(s, plan.items) && !plan.Noop() && c.batchId !in s.batches && c.eventId !in s.outbox
    && s'.provisioned == s.provisioned && s'.payments == s.payments && s'.refunds == s.refunds
    && s'.inbox == s.inbox && s'.streams == s.streams && s'.positions == s.positions
    && s'.batches == s.batches[c.batchId :=
         Batch(c.merchant, c.currency, plan.paymentGross, plan.adjustmentMinor, plan.Gross(), plan.fee, plan.Net(),
               |plan.items|, |plan.adjustments|)]
    && s'.items.Keys == s.items.Keys + Range(plan.items)
    && (forall p | p in s'.items :: s'.items[p] ==
          if p in plan.items then MakeItem(s.payments[p], c.batchId, c.currency) else s.items[p])
    && s'.adjustments.Keys == s.adjustments.Keys
    && (forall r | r in s'.adjustments :: s'.adjustments[r] ==
          if r in plan.adjustments then s.adjustments[r].(status := Settled(c.batchId)) else s.adjustments[r])
    && s'.outbox == s.outbox[c.eventId :=
         SettlementFinalized(c.batchId, c.merchant, c.currency, plan.Gross(), plan.fee, plan.Net(), |plan.items|)]
    && s'.runs == s.runs[c.runId := RunRow(c.merchant, c.currency, Some(c.batchId), plan.MoreEligible())]
  }

  /** A settling run writes exactly the planned batch, posting and event. */
  lemma SettlePlanEffect(s: State, c: RunCommand, plan: Plan)
    requires Open(s, plan.items) && !plan.Noop() && SettlePlan(s, c, plan).Ok?
    ensures var s' := SettlePlan(s, c, plan).value;
            && RunDelta(s, c, plan, s')
            && s'.journal == s.journal + [SettlementPosting(c, plan)]
            && Ledger.CreatePosting(s.journal, s.provisioned, SettlementPosting(c, plan)).Ok?
            && Ledger.BuildSettlementEntries(plan.Gross(), plan.fee, plan.Net(), c.currency).Ok?
  {
    var posted := Post(s, SettlementPosting(c, plan)).value;
    PersistEffect(posted, c, plan);
  }

  lemma PersistEffect(s: State, c: RunCommand, plan: Plan)
    requires Open(s, plan.items) && Persist(s, c, plan).Ok?
    ensures var s' := Persist(s, c, plan).value;
            && s'.items.Keys == s.items.Keys + Range(plan.items)
            && (forall p | p in s'.items :: s'.items[p] ==
                  if p in plan.items then MakeItem(s.payments[p], c.batchId, c.currency) else s.items[p])
            && s'.adjustments.Keys == s.adjustments.Keys
  {
  }

  lemma RunKeepsItems(s: State, c: RunCommand, plan: Plan, s': State)
    requires PlanOk(s, c, plan) && RunDelta(s, c, plan, s')
    requires EventsOk(s) && PositionsOk(s) && ItemsOk(s)
    ensures ItemsOk(s')
  {
    forall p ensures ItemOk(s', p) {
      assert ItemOk(s, p) && PositionOk(s, p);
      if p in plan.items {
        assert Takes(s, c, p);
      }
    }
    forall x ensures WhollyInOrOut(s', x) {
      assert WhollyInOrOut(s, x) && EventRow(s, x);
    }
  }

  /** Settling a payment does not turn any of its refunds into one that came after the batch. */
  lemma RunKeepsPostBatch(s: State, c: RunCommand, plan: Plan, s': State, x: Id)
    requires PlanItemsOk(s, c, plan) && RunDelta(s, c, plan, s') && EventRow(s, x) && x in s.outbox
    ensures s'.outbox[x] == s.outbox[x] && (PostBatch(s', x) <==> PostBatch(s, x))
  {
    if IsRefund(s, x) && s.outbox[x].payment in plan.items {
      assert Takes(s, c, s.outbox[x].payment);
    }
    assert IsRefund(s, x) ==> (s.outbox[x].payment in s'.items <==> s.outbox[x].payment in s.items || s.outbox[x].payment in plan.items);
  }

  lemma RunKeepsAdjustments(s: State, c: RunCommand, plan: Plan, s': State)
    requires PlanOk(s, c, plan) && RunDelta(s, c, plan, s')
    requires EventsOk(s) && AdjustmentsOk(s)
    ensures AdjustmentsOk(s')
  {
    forall r ensures AdjustmentOk(s', r) { assert AdjustmentOk(s, r); }
    forall x ensures AdjustedOnce(s', x) {
      assert AdjustedOnce(s, x) && EventRow(s, x);
      if x in s.outbox { RunKeepsPostBatch(s, c, plan, s', x); }
    }
  }

  lemma RunKeepsPositions(s: State, c: RunCommand, plan: Plan, s': State)
    requires PlanOk(s, c, plan) && RunDelta(s, c, plan, s') && PositionsOk(s)
    ensures PositionsOk(s')
  {
    forall p ensures PositionOk(s', p) { assert PositionOk(s, p); }
    forall x ensures InboxRow(s', x) { assert InboxRow(s, x) && InboxRow(s, c.eventId); }
  }

  /** A plan that settles something has the numbers that batch and event require. */
  lemma PlanNumbers(s: State, c: RunCommand, plan: Plan)
    requires PlanOk(s, c, plan) && !plan.Noop()
    ensures 1 <= plan.Net() && 1 <= plan.fee <= MAX_SAFE_INTEGER && plan.Gross() == plan.fee + plan.Net() <= MAX_SAFE_INTEGER
    ensures 1 <= |plan.items| <= PAGE && |plan.adjustments| <= PAGE
  {
    assert |plan.items| * ExpectedPolicy(c.currency).flatFee >= 1;
  }

  /** Events that exist keep existing beside a new one that is about no payment. */
  lemma ExistenceKept(s: State, s': State, e: Id)
    requires EventsExist(s) && s'.payments == s.payments && s'.refunds == s.refunds && Emits(s, s', e)
    ensures EventsExist(s')
  {
    forall r ensures RefundHasEvent(s', r) {
      assert RefundHasEvent(s, r);
      if r in s.refunds { RefundEventKept(s, s', e, r); }
    }
    forall p ensures PaymentHasEvents(s', p) {
      assert PaymentHasEvents(s, p);
      if p in s.payments { PaymentEventsKept(s, s', e, p); }
    }
  }

  lemma RunKeepsPayments(s: State, c: RunCommand, plan: Plan, s': State)
    requires RunDelta(s, c, plan, s') && PaymentsOk(s) && RefundsOk(s)
    ensures PaymentsOk(s') && RefundsOk(s') && PaymentsEvolve(s, s') && Emits(s, s', c.eventId)
  {
    forall p ensures PaymentRow(s', p) { assert PaymentRow(s, p); }
    forall p ensures PaymentEvolves(s, s', p) {}
    forall x ensures EmitsAt(s, s', c.eventId, x) {}
    assert RefundOk(s, 0);
    RefundsKept(s, s', 0);
  }

  lemma RunKeepsBatches(s: State, c: RunCommand, plan: Plan, s': State)
    requires PlanOk(s, c, plan) && RunDelta(s, c, plan, s') && BatchesOk(s)
    ensures BatchesOk(s')
  {
    PlanNumbers(s, c, plan);
    forall b ensures BatchOk(s', b) { assert BatchOk(s, b); }
  }

  lemma RunKeepsEvents(s: State, c: RunCommand, plan: Plan, s': State)
    requires PlanOk(s, c, plan) && RunDelta(s, c, plan, s') && PaymentsEvolve(s, s') && Emits(s, s', c.eventId)
    requires EventsOk(s) && EventsDistinct(s) && EventsExist(s)
    ensures EventsOk(s') && EventsDistinct(s') && EventsExist(s')
  {
    PlanNumbers(s, c, plan);
    EventsKept(s, s', c.eventId);
    DistinctKept(s, s', c.eventId);
    ExistenceKept(s, s', c.eventId);
  }

  lemma SettlementPostingOk(c: RunCommand, plan: Plan)
    requires Ledger.BuildSettlementEntries(plan.Gross(), plan.fee, plan.Net(), c.currency).Ok?
    ensures Ledger.WellFormed(SettlementPosting(c, plan))
  {
    Ledger.SettlementEntriesEffect(plan.Gross(), plan.fee, plan.Net(), c.currency);
  }

  lemma RunKeepsRows(s: State, c: RunCommand, locked: set<Id>, rows: seq<Id>, adjustmentRows: seq<Id>)
    requires RowsOk(s) && Selected(s, c, locked, rows, adjustmentRows)
    requires RunTx(s, c, rows, adjustmentRows).Ok?
    ensures RowsOk(RunTx(s, c, rows, adjustmentRows).value)
  {
    var plan := PlanRun(s, c, rows, adjustmentRows).value;
    PlanIsOk(s, c, locked, rows, adjustmentRows);
    if plan.Noop() {
      RunsTableIrrelevant(s, RunTx(s, c, rows, adjustmentRows).value);
    } else {
      SettlePlanKeepsRows(s, c, plan);
    }
  }

  lemma SettlePlanKeepsRows(s: State, c: RunCommand, plan: Plan)
    requires RowsOk(s) && PlanOk(s, c, plan) && !plan.Noop() && SettlePlan(s, c, plan).Ok?
    ensures RowsOk(SettlePlan(s, c, plan).value)
  {
    SettlePlanEffect(s, c, plan);
    var s' := SettlePlan(s, c, plan).value;
    RunKeepsPayments(s, c, plan, s');
    RunKeepsBatches(s, c, plan, s');
    RunKeepsEvents(s, c, plan, s');
    RunKeepsPositions(s, c, plan, s');
    RunKeepsItems(s, c, plan, s');
    RunKeepsAdjustments(s, c, plan, s');
    SettlementPostingOk(c, plan);
    PostingKeepsJournal(s, s', SettlementPosting(c, plan));
  }

  /** Recording a run, or provisioning a merchant, touches none of the rules. */
  lemma RunsTableIrrelevant(s: State, s': State)
    requires RowsOk(s) && s' == s.(runs := s'.runs, provisioned := s'.provisioned)
    ensures RowsOk(s')
  {
    EventTablesKept(s, s');
    forall p ensures PaymentEvolves(s, s', p) {}
    forall x ensures EmitsAt(s, s', 0, x) {}
    assert InboxRow(s, 0) && WhollyInOrOut(s, 0) && AdjustedOnce(s, 0);
    PositionsKept(s, s', 0);
    ItemsKept(s, s', 0);
    AdjustmentsKept(s, s', 0);
    JournalKept(s, s');
    forall b ensures BatchOk(s', b) { assert BatchOk(s, b); }
  }

  // ----- every run of the system -----

  lemma ApplyKeepsRows(s: State, step: Step)
    requires RowsOk(s)
    ensures RowsOk(Apply(s, step))
  {
    if Attempt(s, step).Ok? {
      match step
      case Provision(_) => RunsTableIrrelevant(s, Apply(s, step));
      case Create(c) => CreateKeepsRows(s, c);
      case Capture(c) => CaptureKeepsRows(s, c);
      case Refund(c) => RefundKeepsRows(s, c);
      case Deliver(e) => ProjectKeepsRows(s, e);
      case Settle(c, locked, rows, adjustmentRows) => RunKeepsRows(s, c, locked, rows, adjustmentRows);
    }
  }

  lemma {:induction false} ExecutionKeepsRows(steps: seq<Step>)
    ensures RowsOk(Execute(steps))
  {
    if steps != [] {
      ExecutionKeepsRows(steps[..|steps| - 1]);
      ApplyKeepsRows(Execute(steps[..|steps| - 1]), steps[|steps| - 1]);
    }
  }
}
