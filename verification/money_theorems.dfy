/** What the money core guarantees in every reachable state and over every run. */
module MoneyTheorems {
  import opened Basics
  import opened Sums
  import opened SettlementPolicy
  import opened MoneyState
  import opened MoneyInvariant
  import opened MoneySettlement
  import opened MoneyEvidence
  import MoneyTotals
  import Ledger

  // ----- the fate of a refund -----

  datatype Fate = InsideItem | OnItsWay | Adjusted

  /** Exactly one of three things has happened to a refund of a batched payment. */
  ghost predicate HasFate(s: State, r: Id, e: Id, fate: Fate)
    requires r in s.refunds && s.refunds[r].payment in s.items
  {
    && RefundEventOf(s, e, r)
    && var v := s.outbox[e]; var settled := s.items[s.refunds[r].payment].refunded;
       match fate
       case InsideItem => v.cumulative <= settled && r !in s.adjustments
       case OnItsWay => settled <= v.cumulative - v.amount && e !in s.inbox && r !in s.adjustments
       case Adjusted =>
         && settled <= v.cumulative - v.amount && e in s.inbox && r in s.adjustments
         && var a := s.adjustments[r];
            a.amount == s.refunds[r].amount && a.sourceEvent == e && a.payment == s.refunds[r].payment
            && a.merchant == s.refunds[r].merchant && a.currency == s.refunds[r].currency
  }

  lemma OneEventPerRefund(s: State, e: Id, e': Id, r: Id)
    requires EventsDistinct(s) && RefundEventOf(s, e, r) && RefundEventOf(s, e', r)
    ensures e == e'
  {
    assert DistinctPair(s, e, e');
  }

  /** In every reachable state each refund of a batched payment is wholly inside the item's refunded amount,
      or its event is still on its way, or it has produced its one adjustment of its own amount. */
  lemma RefundFate(steps: seq<Step>, r: Id) returns (e: Id, fate: Fate)
    requires var s := Execute(steps); r in s.refunds && s.refunds[r].payment in s.items
    ensures var s := Execute(steps);
            && HasFate(s, r, e, fate)
            && (forall e', fate' :: HasFate(s, r, e', fate') ==> e' == e && fate' == fate)
  {
    var s := Execute(steps);
    ExecutionKeepsRows(steps);
    assert RefundHasEvent(s, r);
    e :| RefundEventOf(s, e, r);
    assert EventRow(s, e) && AdjustedOnce(s, e) && WhollyInOrOut(s, e);
    fate := if !PostBatch(s, e) then InsideItem else if e in s.inbox then Adjusted else OnItsWay;
    forall e', fate' | HasFate(s, r, e', fate') ensures e' == e && fate' == fate {
      OneEventPerRefund(s, e, e', r);
    }
  }

  // ----- delivery in any order -----

  ghost function DeliverAll(s: State, es: seq<Id>): State {
    if es == [] then s else Apply(DeliverAll(s, es[..|es| - 1]), Deliver(es[|es| - 1]))
  }

  ghost predicate PaymentEvent(s: State, e: Id, p: Id) {
    e in s.outbox && (s.outbox[e].PaymentCaptured? || s.outbox[e].PaymentRefunded?) && s.outbox[e].payment == p
  }

  ghost predicate IsPaymentEvent(s: State, e: Id) {
    e in s.outbox && (s.outbox[e].PaymentCaptured? || s.outbox[e].PaymentRefunded?)
  }

  lemma {:induction false} DeliverAllProcesses(s: State, es: seq<Id>)
    requires RowsOk(s)
    ensures var s' := DeliverAll(s, es);
            && RowsOk(s') && s'.payments == s.payments && s'.outbox == s.outbox && s'.items == s.items
            && s'.refunds == s.refunds && s.inbox <= s'.inbox
            && (forall e | e in es && IsPaymentEvent(s, e) :: e in s'.inbox)
  {
    if es != [] {
      var n := |es| - 1;
      DeliverAllProcesses(s, es[..n]);
      var mid := DeliverAll(s, es[..n]);
      assert es == es[..n] + [es[n]];
      if IsPaymentEvent(mid, es[n]) { ProjectionAlwaysCommits(mid, es[n]); }
      ApplyKeepsRows(mid, Deliver(es[n]));
    }
  }

  /** The projected refunded amount never runs ahead of the payment, whatever was delivered. */
  lemma ProjectionNeverAhead(steps: seq<Step>, p: Id)
    ensures var s := Execute(steps);
            p in s.positions ==>
              p in s.payments && 0 <= s.positions[p].refunded <= s.payments[p].refunded
              && s.positions[p].captured == s.payments[p].captured == s.payments[p].amount
  {
    ExecutionKeepsRows(steps);
    assert PositionOk(Execute(steps), p) && PaymentRow(Execute(steps), p);
  }

  /** Delivering every event of a payment, in any order and any number of times, makes the projection of a
      captured payment exact and gives every post-batch refund of it its adjustment. */
  lemma DeliveryConverges(steps: seq<Step>, es: seq<Id>, p: Id)
    requires p in Execute(steps).payments
    requires forall e | PaymentEvent(Execute(steps), e, p) :: e in es
    ensures var s := DeliverAll(Execute(steps), es); var x := Execute(steps).payments[p];
            && (p in s.positions <==> x.status != Created)
            && (p in s.positions ==> s.positions[p].refunded == x.refunded && s.positions[p].captured == x.captured)
            && (forall e | IsRefund(s, e) && s.outbox[e].payment == p :: s.outbox[e].refund in s.adjustments <==> PostBatch(s, e))
  {
    var s0 := Execute(steps);
    var s := DeliverAll(s0, es);
    ExecutionKeepsRows(steps);
    DeliverAllProcesses(s0, es);
    assert PositionOk(s, p) && PaymentRow(s, p) && PaymentHasEvents(s, p);
    if s.payments[p].status != Created {
      var e :| IsCapture(s, e, p);
      assert PaymentEvent(s0, e, p) && InboxRow(s, e);
      if s.payments[p].refunded > 0 {
        var e' :| RefundEventUpTo(s, e', p, s.payments[p].refunded);
        assert PaymentEvent(s0, e', p) && InboxRow(s, e');
      }
    }
    forall e | IsRefund(s, e) && s.outbox[e].payment == p ensures s.outbox[e].refund in s.adjustments <==> PostBatch(s, e) {
      assert AdjustedOnce(s, e) && PaymentEvent(s0, e, p);
    }
  }

  // ----- the ledger -----

  /** Debits equal credits per merchant and currency, and provider clearing carries in debit exactly what is held. */
  lemma DoubleEntryAlways(steps: seq<Step>, m: Id, c: Currency)
    ensures var s := Execute(steps);
            && Ledger.JournalOk(s.journal) && Ledger.ReversalsOk(s.journal)
            && Ledger.Balance(s.journal, m, c, Ledger.ProviderClearing) + Ledger.Balance(s.journal, m, c, Ledger.MerchantPayable)
               + Ledger.Balance(s.journal, m, c, Ledger.FeeRevenue) + Ledger.Balance(s.journal, m, c, Ledger.SettlementClearing) == 0
            && -Ledger.Balance(s.journal, m, c, Ledger.ProviderClearing) == MoneyTotals.HeldTotal(s, m, c) >= 0
  {
    var s := Execute(steps);
    ExecutionKeepsRows(steps);
    MoneyTotals.LedgerAgreesAlways(steps, m, c);
    Ledger.DebitsEqualCredits(s.journal, m, c);
    forall p | p in s.payments ensures MoneyTotals.HeldAt(s, m, c, p) >= 0 { assert PaymentRow(s, p); }
    SumNonNegative(s.payments.Keys, MoneyTotals.Held(s, m, c));
  }

  /** A payment's status, refunded amount and refund rows tell the same story. */
  lemma PaymentStory(steps: seq<Step>, p: Id)
    requires p in Execute(steps).payments
    ensures var s := Execute(steps); var x := s.payments[p];
            && RefundTotal(s, p) == x.refunded <= x.captured
            && x.captured == (if x.status == Created then 0 else x.amount)
            && x.status == (if x.captured == 0 then Created else if x.refunded == 0 then Captured
                            else if x.refunded < x.captured then PartiallyRefunded else Refunded)
  {
    ExecutionKeepsRows(steps);
    EvidenceAlwaysAddsUp(steps);
    assert PaymentRow(Execute(steps), p) && PaymentAddsUp(Execute(steps), p);
  }

  /** A refund event carries the sum of the payment's refunds up to it; two refunds of a payment never share a sum. */
  lemma RefundEventsCarryPrefixSums(steps: seq<Step>, e: Id)
    requires IsRefund(Execute(steps), e)
    ensures var s := Execute(steps); var v := s.outbox[e];
            && EventTotal(s, v.payment, v.cumulative) == v.cumulative
            && v.refund in s.refunds && s.refunds[v.refund].amount == v.amount
            && (forall e' | IsRefund(s, e') && e' != e && s.outbox[e'].payment == v.payment ::
                  s.outbox[e'].cumulative != v.cumulative)
  {
    var s := Execute(steps);
    ExecutionKeepsRows(steps);
    EvidenceAlwaysAddsUp(steps);
    assert CumulativeIsPrefixSum(s, e) && EventRow(s, e);
    forall e' | IsRefund(s, e') && e' != e && s.outbox[e'].payment == s.outbox[e].payment
      ensures s.outbox[e'].cumulative != s.outbox[e].cumulative
    {
      assert DistinctPair(s, e, e') && EventRow(s, e');
    }
  }

  // ----- external references -----

  ghost predicate DifferentPaymentRefs(s: State, p: Id, q: Id) {
    p in s.payments && q in s.payments && p != q && s.payments[p].merchant == s.payments[q].merchant ==>
      s.payments[p].externalRef != s.payments[q].externalRef
  }

  ghost predicate DifferentRefundRefs(s: State, r: Id, q: Id) {
    r in s.refunds && q in s.refunds && r != q && s.refunds[r].merchant == s.refunds[q].merchant ==>
      s.refunds[r].externalRef != s.refunds[q].externalRef
  }

  ghost predicate ReferencesUnique(s: State) {
    (forall p, q :: DifferentPaymentRefs(s, p, q)) && (forall r, q :: DifferentRefundRefs(s, r, q))
  }

  /** Existing payments keep merchant and reference, and none is added. */
  lemma SamePaymentRefs(s: State, s': State)
    requires ReferencesUnique(s) && PaymentsEvolve(s, s') && s'.payments.Keys == s.payments.Keys
    ensures forall p, q :: DifferentPaymentRefs(s', p, q)
  {
    forall p, q ensures DifferentPaymentRefs(s', p, q) {
      assert DifferentPaymentRefs(s, p, q) && PaymentEvolves(s, s', p) && PaymentEvolves(s, s', q);
    }
  }

  lemma CreateKeepsReferences(s: State, c: CreateCommand)
    requires ReferencesUnique(s) && CreateTx(s, c).Ok?
    ensures ReferencesUnique(CreateTx(s, c).value)
  {
    var s' := CreateTx(s, c).value;
    forall p, q ensures DifferentPaymentRefs(s', p, q) { assert DifferentPaymentRefs(s, p, q); }
    forall r, q ensures DifferentRefundRefs(s', r, q) { assert DifferentRefundRefs(s, r, q); }
  }

  lemma RefundKeepsReferences(s: State, c: RefundCommand, s': State)
    requires ReferencesUnique(s) && RefundDelta(s, c, s') && PaymentsEvolve(s, s')
    requires forall r | r in s.refunds :: !(s.refunds[r].merchant == c.merchant && s.refunds[r].externalRef == c.externalRef)
    ensures ReferencesUnique(s')
  {
    SamePaymentRefs(s, s');
    forall r, q ensures DifferentRefundRefs(s', r, q) { assert DifferentRefundRefs(s, r, q); }
  }

  lemma SameTablesKeepReferences(s: State, s': State)
    requires ReferencesUnique(s) && PaymentsEvolve(s, s') && s'.payments.Keys == s.payments.Keys && s'.refunds == s.refunds
    ensures ReferencesUnique(s')
  {
    SamePaymentRefs(s, s');
    forall r, q ensures DifferentRefundRefs(s', r, q) { assert DifferentRefundRefs(s, r, q); }
  }

  lemma RefundChecksReference(s: State, c: RefundCommand)
    requires RefundTx(s, c).Ok?
    ensures forall r | r in s.refunds :: !(s.refunds[r].merchant == c.merchant && s.refunds[r].externalRef == c.externalRef)
  {
  }

  /** No merchant has two payments or two refunds under one external reference. */
  lemma {:induction false} ExternalReferencesAreUnique(steps: seq<Step>)
    ensures ReferencesUnique(Execute(steps))
  {
    if steps == [] {
      forall p, q ensures DifferentPaymentRefs(EMPTY_STATE, p, q) {}
      forall r, q ensures DifferentRefundRefs(EMPTY_STATE, r, q) {}
    } else {
      var s, step := Execute(steps[..|steps| - 1]), steps[|steps| - 1];
      ExternalReferencesAreUnique(steps[..|steps| - 1]);
      ExecutionKeepsRows(steps[..|steps| - 1]);
      StepKeepsReferences(s, step);
    }
  }

  lemma SettleKeepsReferences(s: State, c: RunCommand, rows: seq<Id>, adjustmentRows: seq<Id>)
    requires ReferencesUnique(s) && (forall a | a in adjustmentRows :: a in s.adjustments)
    requires RunTx(s, c, rows, adjustmentRows).Ok? && PaymentsEvolve(s, RunTx(s, c, rows, adjustmentRows).value)
    ensures ReferencesUnique(RunTx(s, c, rows, adjustmentRows).value)
  {
    var s' := RunTx(s, c, rows, adjustmentRows).value;
    var plan := RunOutcome(s, c, rows, adjustmentRows, s');
    SameTablesKeepReferences(s, s');
  }

  lemma StepKeepsReferences(s: State, step: Step)
    requires RowsOk(s) && ReferencesUnique(s)
    ensures ReferencesUnique(Apply(s, step))
  {
    StepKeepsEvidence(s, step);
    if Attempt(s, step).Ok? {
      var s' := Apply(s, step);
      match step
      case Create(c) => CreateKeepsReferences(s, c);
      case Refund(c) =>
        RefundEffect(s, c);
        RefundChecksReference(s, c);
        RefundKeepsReferences(s, c, s');
      case Capture(c) =>
        CaptureEffect(s, c);
        SameTablesKeepReferences(s, s');
      case Provision(_) => SameTablesKeepReferences(s, s');
      case Deliver(e) =>
        ProjectionAlwaysCommits(s, e);
        SameTablesKeepReferences(s, s');
      case Settle(c, locked, rows, adjustmentRows) => SettleKeepsReferences(s, c, rows, adjustmentRows);
    }
  }

  // ----- when commands commit -----

  /** The identifiers a command draws collide with nothing. */
  ghost predicate FreshPosting(s: State, merchant: Id, ledgerId: Id, eventId: Id) {
    && merchant in s.provisioned && eventId !in s.outbox
    && forall i | 0 <= i < |s.journal| :: s.journal[i].publicId != ledgerId
  }

  /** The payment a merchant may address. */
  ghost predicate Known(s: State, merchant: Id, p: Id) {
    p in s.payments && s.payments[p].merchant == merchant
  }

  /** With fresh identifiers a creation commits exactly if the merchant has no payment under the reference; whatever happens
      later, the payment then keeps merchant, reference, currency and amount, and is captured in full or not at all. */
  lemma CreateCommits(steps: seq<Step>, c: CreateCommand, later: seq<Step>)
    requires c.paymentId !in Execute(steps).payments && c.eventId !in Execute(steps).outbox
    ensures var s := Execute(steps);
            var unused := forall p | p in s.payments ::
                            !(s.payments[p].merchant == c.merchant && s.payments[p].externalRef == c.externalRef);
            && (CreateTx(s, c).Ok? <==> unused)
            && (!unused ==> CreateTx(s, c) == Err(ExternalReferenceConflict))
            && (unused ==>
                  var t := Execute(steps + [Create(c)] + later);
                  && Known(t, c.merchant, c.paymentId)
                  && var x := t.payments[c.paymentId];
                     x.externalRef == c.externalRef && x.currency == c.currency && x.amount == c.amount
                     && (x.captured == 0 || x.captured == c.amount))
  {
    var s := Execute(steps);
    if CreateTx(s, c).Ok? {
      CreateEffect(s, c);
      LastStep(steps, [Create(c)], 0);
      assert steps + [] == steps;
      EvidenceIsForever(steps + [Create(c)], later);
      ExecutionKeepsRows(steps + [Create(c)] + later);
      assert PaymentEvolves(Execute(steps + [Create(c)]), Execute(steps + [Create(c)] + later), c.paymentId);
      assert PaymentRow(Execute(steps + [Create(c)] + later), c.paymentId);
    }
  }

  /** With fresh identifiers a capture commits exactly if the merchant's payment has the currency and the full amount and is
      not captured yet: the posting never meets a reference conflict and the guarded update never misses its row. */
  lemma CaptureCommits(steps: seq<Step>, c: CaptureCommand)
    requires FreshPosting(Execute(steps), c.merchant, c.ledgerId, c.eventId)
    ensures var s := Execute(steps);
            CaptureTx(s, c).Ok? <==>
              && Known(s, c.merchant, c.paymentId) && s.payments[c.paymentId].currency == c.currency
              && s.payments[c.paymentId].captured == 0 && s.payments[c.paymentId].amount == c.amount
  {
    var s := Execute(steps);
    ExecutionKeepsRows(steps);
    assert PaymentRow(s, c.paymentId);
    forall i | 0 <= i < |s.journal| && s.journal[i].business == Ledger.Capture && s.journal[i].reference == c.paymentId
      ensures c.paymentId in s.payments && s.payments[c.paymentId].status != Created
    {
      assert PostingOwned(s, s.journal[i]);
    }
  }

  /** Which problem a capture that cannot commit is answered with, whatever identifiers it draws. */
  lemma CaptureAnswers(steps: seq<Step>, c: CaptureCommand)
    ensures var s := Execute(steps);
            if !Known(s, c.merchant, c.paymentId) then CaptureTx(s, c) == Err(PaymentIntentNotFound)
            else var x := s.payments[c.paymentId];
              if x.currency != c.currency then CaptureTx(s, c) == Err(CurrencyMismatch)
              else if x.captured > 0 then CaptureTx(s, c) == Err(PaymentIntentNotCapturable)
              else x.amount != c.amount ==> CaptureTx(s, c) == Err(CaptureAmountMismatch)
  {
    ExecutionKeepsRows(steps);
    assert PaymentRow(Execute(steps), c.paymentId);
  }

  /** With fresh identifiers a refund commits exactly if the merchant's payment has the currency, something of it is captured
      and not refunded, the amount is positive and at most that, and the merchant has no refund under the reference. */
  lemma RefundCommits(steps: seq<Step>, c: RefundCommand)
    requires FreshPosting(Execute(steps), c.merchant, c.ledgerId, c.eventId) && c.refundId !in Execute(steps).refunds
    ensures var s := Execute(steps);
            RefundTx(s, c).Ok? <==>
              && Known(s, c.merchant, c.paymentId) && s.payments[c.paymentId].currency == c.currency
              && 1 <= c.amount <= s.payments[c.paymentId].captured - s.payments[c.paymentId].refunded
              && !(exists r | r in s.refunds :: s.refunds[r].merchant == c.merchant && s.refunds[r].externalRef == c.externalRef)
  {
    var s := Execute(steps);
    ExecutionKeepsRows(steps);
    assert PaymentRow(s, c.paymentId);
    forall i | 0 <= i < |s.journal| && s.journal[i].business == Ledger.Refund ensures s.journal[i].reference != c.refundId {
      assert PostingOwned(s, s.journal[i]);
    }
  }

  /** Which problem a refund that cannot commit is answered with: nothing left to refund, more than is left, or a reference
      that is in use. */
  lemma RefundAnswers(steps: seq<Step>, c: RefundCommand)
    ensures var s := Execute(steps);
            if !Known(s, c.merchant, c.paymentId) then RefundTx(s, c) == Err(PaymentIntentNotFound)
            else var x := s.payments[c.paymentId];
              if x.currency != c.currency then RefundTx(s, c) == Err(CurrencyMismatch)
              else if x.refunded >= x.captured then RefundTx(s, c) == Err(PaymentIntentNotRefundable)
              else if x.refunded + c.amount > x.captured then RefundTx(s, c) == Err(RefundAmountExceedsAvailable)
              else c.refundId !in s.refunds
                   && (exists r | r in s.refunds :: s.refunds[r].merchant == c.merchant && s.refunds[r].externalRef == c.externalRef)
                   ==> RefundTx(s, c) == Err(RefundExternalReferenceConflict)
  {
    ExecutionKeepsRows(steps);
    assert PaymentRow(Execute(steps), c.paymentId);
  }

  // ----- settlement runs -----

  ghost predicate FreshRun(s: State, c: RunCommand) {
    && FreshPosting(s, c.merchant, c.ledgerId, c.eventId)
    && c.runId !in s.runs && c.batchId !in s.batches
  }

  /** The candidates of a run that pass the re-check, as grosses. */
  ghost function LiveGrosses(s: State, c: RunCommand, rows: seq<Id>): seq<Positive>
    requires forall p | p in Page(rows) :: p in s.payments
  {
    Grosses(s, LiveCandidates(s, c.currency, c.cutoff, Page(rows)))
  }

  lemma CandidatesAreKnown(s: State, c: RunCommand, locked: set<Id>, rows: seq<Id>, adjustmentRows: seq<Id>)
    requires PositionsOk(s) && Selected(s, c, locked, rows, adjustmentRows)
    ensures forall p | p in Page(rows) :: p in s.payments && LockByPublicId(s, c.merchant, p) == Some(s.payments[p])
  {
    SelectedOnce(s, c, locked, rows, adjustmentRows);
    forall p | p in Page(rows) ensures p in s.payments && LockByPublicId(s, c.merchant, p) == Some(s.payments[p]) {
      assert PositionOk(s, p) && EligiblePosition(s, c.merchant, c.currency, c.cutoff, p);
    }
  }

  lemma BlockedIffError(grosses: seq<Positive>, currency: Currency)
    ensures BoundedCount(grosses, currency).Err? <==> exists n: nat :: BlockedAt(grosses, currency, n)
  {
    TakesLongestPrefix(grosses, currency);
    if n: nat :| BlockedAt(grosses, currency, n) {
      assert BoundedCount(grosses, currency).Err?;
    }
  }

  /** A plan that settles something always meets the numeric guards of the posting and of the event. */
  lemma PlanMeetsGuards(s: State, c: RunCommand, plan: Plan)
    requires PlanOk(s, c, plan) && !plan.Noop()
    ensures plan.Gross() == plan.fee + plan.Net() && 1 <= plan.Net() && 1 <= plan.fee
    ensures plan.Net() <= plan.Gross() <= MAX_SAFE_INTEGER && plan.fee <= MAX_SAFE_INTEGER
    ensures Ledger.BuildSettlementEntries(plan.Gross(), plan.fee, plan.Net(), c.currency).Ok?
  {
    assert |plan.items| * ExpectedPolicy(c.currency).flatFee >= 1;
  }

  lemma NoSettlementPosting(s: State, b: Id)
    requires JournalRowsOk(s) && b !in s.batches
    ensures forall i | 0 <= i < |s.journal| && s.journal[i].business == Ledger.Settlement :: s.journal[i].reference != b
  {
    forall i | 0 <= i < |s.journal| && s.journal[i].business == Ledger.Settlement ensures s.journal[i].reference != b {
      assert PostingOwned(s, s.journal[i]);
    }
  }

  lemma SettlePlanCommits(s: State, c: RunCommand, plan: Plan)
    requires PlanOk(s, c, plan) && !plan.Noop() && JournalRowsOk(s) && FreshRun(s, c)
    ensures SettlePlan(s, c, plan).Ok?
  {
    PlanMeetsGuards(s, c, plan);
    NoSettlementPosting(s, c.batchId);
    forall i | 0 <= i < |plan.items| ensures plan.items[i] !in s.items {
      assert plan.items[i] in plan.items && Takes(s, c, plan.items[i]);
    }
  }

  /** The branches of the planning step, for candidates whose payment rows are all found. */
  lemma PlanBranches(s: State, c: RunCommand, rows: seq<Id>, adjustmentRows: seq<Id>)
    requires forall a | a in adjustmentRows :: a in s.adjustments
    requires forall p | p in Page(rows) :: p in s.payments && LockByPublicId(s, c.merchant, p).Some?
    ensures PlanRun(s, c, rows, adjustmentRows).Ok? <==>
              && BoundedCount(LiveGrosses(s, c, rows), c.currency).Ok?
              && Total(AdjustmentAmounts(s, Page(adjustmentRows))) <= MAX_SAFE_INTEGER
  {
    assert !(exists i | 0 <= i < |Page(rows)| :: LockByPublicId(s, c.merchant, Page(rows)[i]).None?);
  }

  lemma PlanExists(s: State, c: RunCommand, locked: set<Id>, rows: seq<Id>, adjustmentRows: seq<Id>)
    requires PositionsOk(s) && Selected(s, c, locked, rows, adjustmentRows)
    ensures forall p | p in Page(rows) :: p in s.payments
    ensures PlanRun(s, c, rows, adjustmentRows).Ok? <==>
              && !(exists n: nat :: BlockedAt(LiveGrosses(s, c, rows), c.currency, n))
              && Total(AdjustmentAmounts(s, Page(adjustmentRows))) <= MAX_SAFE_INTEGER
  {
    CandidatesAreKnown(s, c, locked, rows, adjustmentRows);
    PlanBranches(s, c, rows, adjustmentRows);
    BlockedIffError(LiveGrosses(s, c, rows), c.currency);
  }

  /** With fresh identifiers a run fails exactly when the first candidate outside its prefix has a fee that reaches
      its gross, or when the pending adjustments of one page exceed the largest safe integer. Every other
      failure branch of the run is dead. */
  lemma RunCommits(steps: seq<Step>, c: RunCommand, locked: set<Id>, rows: seq<Id>, adjustmentRows: seq<Id>)
    requires Selected(Execute(steps), c, locked, rows, adjustmentRows) && FreshRun(Execute(steps), c)
    ensures var s := Execute(steps);
            && (forall p | p in Page(rows) :: p in s.payments)
            && (RunTx(s, c, rows, adjustmentRows).Ok? <==>
                  && !(exists n: nat :: BlockedAt(LiveGrosses(s, c, rows), c.currency, n))
                  && Total(AdjustmentAmounts(s, Page(adjustmentRows))) <= MAX_SAFE_INTEGER)
  {
    var s := Execute(steps);
    ExecutionKeepsRows(steps);
    PlanExists(s, c, locked, rows, adjustmentRows);
    if PlanRun(s, c, rows, adjustmentRows).Ok? {
      PlanIsOk(s, c, locked, rows, adjustmentRows);
      var plan := PlanRun(s, c, rows, adjustmentRows).value;
      if !plan.Noop() { SettlePlanCommits(s, c, plan); }
    }
  }

  /** A payment that may be settled now: captured beyond its refunds, available, projected and in no batch. */
  ghost predicate TrulyEligible(s: State, m: Id, c: Currency, cutoff: int, p: Id) {
    && p in s.payments && p in s.positions && p !in s.items
    && s.payments[p].merchant == m && s.payments[p].currency == c
    && Gross(s.payments[p]) > 0
    && s.payments[p].availableAt.Some? && s.payments[p].availableAt.value < cutoff
  }

  /** The projection lags towards eligibility: what is truly eligible is a candidate. */
  lemma TrulyEligibleIsCandidate(s: State, m: Id, c: Currency, cutoff: int, p: Id)
    requires PositionsOk(s) && TrulyEligible(s, m, c, cutoff, p)
    ensures EligiblePosition(s, m, c, cutoff, p) && StillEligible(s, c, cutoff, p)
  {
    assert PositionOk(s, p);
  }

  lemma {:induction false} LiveIsAll(s: State, currency: Currency, cutoff: int, rows: seq<Id>, p: Id)
    requires (forall p | p in rows :: p in s.payments) && p in rows && StillEligible(s, currency, cutoff, p)
    ensures p in LiveCandidates(s, currency, cutoff, rows)
  {
    var n := |rows| - 1;
    assert rows == rows[..n] + [rows[n]];
    if p != rows[n] { LiveIsAll(s, currency, cutoff, rows[..n], p); }
  }

  /** A plan that reports nothing more saw every candidate and takes all that pass the re-check. */
  lemma NothingMorePlan(s: State, c: RunCommand, rows: seq<Id>, adjustmentRows: seq<Id>, plan: Plan)
    requires PaymentsOk(s) && (forall a | a in adjustmentRows :: a in s.adjustments)
    requires PlanRun(s, c, rows, adjustmentRows) == Ok(plan) && !plan.MoreEligible()
    ensures forall p | p in Page(rows) :: p in s.payments
    ensures plan.items == LiveCandidates(s, c.currency, c.cutoff, Page(rows))
    ensures plan.adjustments == adjustmentRows && Page(rows) == rows && |rows| <= PAGE && |adjustmentRows| <= PAGE
    ensures plan.Noop() ==> plan.items == [] && plan.adjustments == []
  {
    PlanFields(s, c, rows, adjustmentRows);
    var live := LiveCandidates(s, c.currency, c.cutoff, Page(rows));
    TakesLongestPrefix(Grosses(s, live), c.currency);
    if live != [] { assert PaymentRow(s, live[0]); }
  }

  /** A plan that reports nothing more has taken every candidate that is not locked and every pending adjustment. */
  lemma NothingMoreTakesAll(s: State, c: RunCommand, locked: set<Id>, rows: seq<Id>, adjustmentRows: seq<Id>, plan: Plan)
    requires PaymentsOk(s) && PositionsOk(s) && Selected(s, c, locked, rows, adjustmentRows)
    requires PlanRun(s, c, rows, adjustmentRows) == Ok(plan) && !plan.MoreEligible()
    ensures forall p | TrulyEligible(s, c.merchant, c.currency, c.cutoff, p) && p !in locked :: p in plan.items
    ensures forall r | PendingOf(s, c.merchant, c.currency, r) :: r in plan.adjustments
    ensures plan.Noop() ==> plan.items == [] && plan.adjustments == []
  {
    NothingMorePlan(s, c, rows, adjustmentRows, plan);
    forall p | TrulyEligible(s, c.merchant, c.currency, c.cutoff, p) && p !in locked ensures p in plan.items {
      TrulyEligibleIsCandidate(s, c.merchant, c.currency, c.cutoff, p);
      assert p in rows;
      LiveIsAll(s, c.currency, c.cutoff, rows, p);
    }
    forall r | PendingOf(s, c.merchant, c.currency, r) ensures r in plan.adjustments { assert r in adjustmentRows; }
  }

  /** A settled payment is not eligible any more, and the run changes no other payment's eligibility. */
  lemma RunChangesEligibility(s: State, c: RunCommand, plan: Plan, s': State, m: Id, currency: Currency, cutoff: int, p: Id)
    requires RunDelta(s, c, plan, s')
    ensures TrulyEligible(s', m, currency, cutoff, p) <==> TrulyEligible(s, m, currency, cutoff, p) && p !in plan.items
  {
    assert p in s'.items <==> p in s.items || p in plan.items;
  }

  /** When a run reports that nothing more is eligible, no pending adjustment of the stream remains, and a truly
      eligible payment remains exactly if another transaction kept its position locked during the run. */
  lemma NothingMoreEligible(steps: seq<Step>, c: RunCommand, locked: set<Id>, rows: seq<Id>, adjustmentRows: seq<Id>, s': State)
    requires Selected(Execute(steps), c, locked, rows, adjustmentRows)
    requires RunTx(Execute(steps), c, rows, adjustmentRows) == Ok(s')
    requires c.runId in s'.runs && !s'.runs[c.runId].moreEligible
    ensures var s := Execute(steps);
            && (forall r :: !PendingOf(s', c.merchant, c.currency, r))
            && (forall p :: TrulyEligible(s', c.merchant, c.currency, c.cutoff, p)
                       <==> p in locked && TrulyEligible(s, c.merchant, c.currency, c.cutoff, p))
  {
    var s := Execute(steps);
    ExecutionKeepsRows(steps);
    var plan := RunOutcome(s, c, rows, adjustmentRows, s');
    var noop := plan.Noop();
    NothingMoreTakesAll(s, c, locked, rows, adjustmentRows, plan);
    PlanIsOk(s, c, locked, rows, adjustmentRows);
    ItemsAreNotLocked(s, c, locked, rows, adjustmentRows, plan);
    forall p ensures TrulyEligible(s', c.merchant, c.currency, c.cutoff, p)
                <==> p in locked && TrulyEligible(s, c.merchant, c.currency, c.cutoff, p)
    {
      if noop { assert p !in plan.items; } else { RunChangesEligibility(s, c, plan, s', c.merchant, c.currency, c.cutoff, p); }
    }
    forall r ensures !PendingOf(s', c.merchant, c.currency, r) {
      if PendingOf(s, c.merchant, c.currency, r) { assert r in plan.adjustments; }
    }
  }

  lemma ItemsAreNotLocked(s: State, c: RunCommand, locked: set<Id>, rows: seq<Id>, adjustmentRows: seq<Id>, plan: Plan)
    requires Selected(s, c, locked, rows, adjustmentRows) && PlanRun(s, c, rows, adjustmentRows) == Ok(plan)
    ensures forall p | p in plan.items :: p !in locked
  {
    SelectedOnce(s, c, locked, rows, adjustmentRows);
    PlanFields(s, c, rows, adjustmentRows);
  }

  /** Conversely a run reports more only if something is left: a pending adjustment, or a position the next run may take. */
  lemma MoreEligibleIsHonest(steps: seq<Step>, c: RunCommand, locked: set<Id>, rows: seq<Id>, adjustmentRows: seq<Id>, s': State)
    requires Selected(Execute(steps), c, locked, rows, adjustmentRows)
    requires RunTx(Execute(steps), c, rows, adjustmentRows) == Ok(s')
    requires c.runId in s'.runs && s'.runs[c.runId].moreEligible
    ensures (exists r :: PendingOf(s', c.merchant, c.currency, r))
            || (exists p :: EligiblePosition(s', c.merchant, c.currency, c.cutoff, p))
  {
    var s := Execute(steps);
    var plan := RunOutcome(s, c, rows, adjustmentRows, s');
    SomethingIsLeft(s, c, locked, rows, adjustmentRows, plan);
    if plan.Noop() {
      UnchangedStays(s, c, s');
    } else {
      UntakenStays(s, c, plan, s');
    }
  }

  lemma UnchangedStays(s: State, c: RunCommand, s': State)
    requires s' == s.(runs := s'.runs)
    ensures forall p | EligiblePosition(s, c.merchant, c.currency, c.cutoff, p) :: EligiblePosition(s', c.merchant, c.currency, c.cutoff, p)
    ensures forall r | PendingOf(s, c.merchant, c.currency, r) :: PendingOf(s', c.merchant, c.currency, r)
  {
  }

  /** The two ways a run commits, and what it reports. */
  lemma RunOutcome(s: State, c: RunCommand, rows: seq<Id>, adjustmentRows: seq<Id>, s': State) returns (plan: Plan)
    requires forall a | a in adjustmentRows :: a in s.adjustments
    requires RunTx(s, c, rows, adjustmentRows) == Ok(s')
    ensures PlanRun(s, c, rows, adjustmentRows) == Ok(plan)
    ensures c.runId in s'.runs && s'.runs[c.runId].moreEligible == plan.MoreEligible()
    ensures if plan.Noop() then s' == s.(runs := s'.runs) && s'.runs[c.runId].batch == None
            else RunDelta(s, c, plan, s') && s'.runs[c.runId].batch == Some(c.batchId)
  {
    plan := PlanRun(s, c, rows, adjustmentRows).value;
    if !plan.Noop() { SettlePlanEffect(s, c, plan); }
  }

  /** What a run does not take stays open or pending. */
  lemma UntakenStays(s: State, c: RunCommand, plan: Plan, s': State)
    requires RunDelta(s, c, plan, s')
    ensures forall p | EligiblePosition(s, c.merchant, c.currency, c.cutoff, p) && p !in plan.items ::
              EligiblePosition(s', c.merchant, c.currency, c.cutoff, p)
    ensures forall r | PendingOf(s, c.merchant, c.currency, r) && r !in plan.adjustments :: PendingOf(s', c.merchant, c.currency, r)
  {
  }

  /** What a plan that reports more leaves untaken. */
  lemma SomethingIsLeft(s: State, c: RunCommand, locked: set<Id>, rows: seq<Id>, adjustmentRows: seq<Id>, plan: Plan)
    requires Selected(s, c, locked, rows, adjustmentRows)
    requires PlanRun(s, c, rows, adjustmentRows) == Ok(plan) && plan.MoreEligible()
    ensures var taken, settled := if plan.Noop() then [] else plan.items, if plan.Noop() then [] else plan.adjustments;
            (exists p :: EligiblePosition(s, c.merchant, c.currency, c.cutoff, p) && p !in taken)
            || (exists r :: PendingOf(s, c.merchant, c.currency, r) && r !in settled)
  {
    SelectedOnce(s, c, locked, rows, adjustmentRows);
    PlanFields(s, c, rows, adjustmentRows);
    var live := LiveCandidates(s, c.currency, c.cutoff, Page(rows));
    if plan.moreCandidates {
      PageMissesNext(s, c, locked, rows);
      assert forall p | p in plan.items :: p in live;
    } else if plan.moreAdjustments {
      AdjustmentPageMissesNext(s, c, adjustmentRows);
    } else if plan.Noop() {
      if plan.items != [] { assert plan.items[0] in live; } else { assert plan.adjustments[0] in Page(adjustmentRows); }
    } else {
      LiveCandidatesOnce(s, c.currency, c.cutoff, Page(rows));
      var next := live[|plan.items|];
      assert next in live && next !in plan.items;
    }
  }

  /** The candidate beyond the page is eligible and not on the page. */
  lemma PageMissesNext(s: State, c: RunCommand, locked: set<Id>, rows: seq<Id>)
    requires CandidateRows(s, c.merchant, c.currency, c.cutoff, locked, rows) && |rows| > PAGE
    ensures EligiblePosition(s, c.merchant, c.currency, c.cutoff, rows[PAGE]) && rows[PAGE] !in Page(rows)
  {
    forall i | 0 <= i < PAGE ensures rows[i] != rows[PAGE] { assert PositionBefore(s, rows[i], rows[PAGE]); }
  }

  lemma AdjustmentPageMissesNext(s: State, c: RunCommand, rows: seq<Id>)
    requires AdjustmentRows(s, c.merchant, c.currency, rows) && |rows| > PAGE
    ensures PendingOf(s, c.merchant, c.currency, rows[PAGE]) && rows[PAGE] !in Page(rows)
  {
    forall i | 0 <= i < PAGE ensures rows[i] != rows[PAGE] { assert AdjustmentBefore(s, rows[i], rows[PAGE]); }
  }

  ghost function EligibleSet(s: State, m: Id, c: Currency, cutoff: int): set<Id> {
    set p | p in s.payments && TrulyEligible(s, m, c, cutoff, p)
  }

  /** A completed run takes at least one payment and lowers the eligible count by exactly the items it took. */
  lemma CompletedRunProgresses(steps: seq<Step>, c: RunCommand, locked: set<Id>, rows: seq<Id>, adjustmentRows: seq<Id>, s': State)
    requires Selected(Execute(steps), c, locked, rows, adjustmentRows)
    requires RunTx(Execute(steps), c, rows, adjustmentRows) == Ok(s')
    requires c.runId in s'.runs && s'.runs[c.runId].batch == Some(c.batchId)
    ensures var s := Execute(steps);
            && c.batchId in s'.batches && s'.batches[c.batchId].itemCount >= 1
            && |EligibleSet(s', c.merchant, c.currency, c.cutoff)|
                 == |EligibleSet(s, c.merchant, c.currency, c.cutoff)| - s'.batches[c.batchId].itemCount
  {
    var s := Execute(steps);
    ExecutionKeepsRows(steps);
    var plan := RunOutcome(s, c, rows, adjustmentRows, s');
    PlanIsOk(s, c, locked, rows, adjustmentRows);
    ItemsWereEligible(s, c, locked, rows, adjustmentRows, plan);
    SettledLeave(s, c, plan, s');
  }

  /** A candidate that passes the re-check was eligible. */
  lemma LiveWasEligible(s: State, c: RunCommand, candidates: seq<Id>, p: Id)
    requires forall q | q in candidates :: EligiblePosition(s, c.merchant, c.currency, c.cutoff, q)
    requires forall q | q in candidates :: q in s.payments && s.payments[q].merchant == c.merchant
    requires p in LiveCandidates(s, c.currency, c.cutoff, candidates)
    ensures TrulyEligible(s, c.merchant, c.currency, c.cutoff, p)
  {
  }

  lemma ItemsWereEligible(s: State, c: RunCommand, locked: set<Id>, rows: seq<Id>, adjustmentRows: seq<Id>, plan: Plan)
    requires Selected(s, c, locked, rows, adjustmentRows) && PlanRun(s, c, rows, adjustmentRows) == Ok(plan)
    ensures forall p | p in plan.items :: TrulyEligible(s, c.merchant, c.currency, c.cutoff, p)
  {
    SelectedOnce(s, c, locked, rows, adjustmentRows);
    PlanFields(s, c, rows, adjustmentRows);
    var live := LiveCandidates(s, c.currency, c.cutoff, Page(rows));
    forall p | p in plan.items ensures TrulyEligible(s, c.merchant, c.currency, c.cutoff, p) {
      assert p in live;
      LiveWasEligible(s, c, Page(rows), p);
    }
  }

  lemma CountLeaves(before: set<Id>, after: set<Id>, gone: seq<Id>)
    requires Distinct(gone) && Range(gone) <= before && after == before - Range(gone)
    ensures |after| == |before| - |gone|
  {
    SumOfList(gone, (p: Id) => 0, seq(|gone|, i => 0));
  }

  lemma SettledLeave(s: State, c: RunCommand, plan: Plan, s': State)
    requires RunDelta(s, c, plan, s') && Distinct(plan.items)
    requires forall p | p in plan.items :: TrulyEligible(s, c.merchant, c.currency, c.cutoff, p)
    ensures |EligibleSet(s', c.merchant, c.currency, c.cutoff)| == |EligibleSet(s, c.merchant, c.currency, c.cutoff)| - |plan.items|
  {
    EligibleAfter(s, c, plan, s');
    CountLeaves(EligibleSet(s, c.merchant, c.currency, c.cutoff), EligibleSet(s', c.merchant, c.currency, c.cutoff), plan.items);
  }

  lemma EligibleAfter(s: State, c: RunCommand, plan: Plan, s': State)
    requires RunDelta(s, c, plan, s')
    ensures EligibleSet(s', c.merchant, c.currency, c.cutoff) == EligibleSet(s, c.merchant, c.currency, c.cutoff) - Range(plan.items)
  {
    var before, after := EligibleSet(s, c.merchant, c.currency, c.cutoff), EligibleSet(s', c.merchant, c.currency, c.cutoff);
    forall p ensures p in after <==> p in before && p !in plan.items {
      RunChangesEligibility(s, c, plan, s', c.merchant, c.currency, c.cutoff, p);
    }
  }

  /** Every batch on record satisfies the identities of its posting and of the finalized event. */
  lemma BatchIdentities(steps: seq<Step>, b: Id)
    requires b in Execute(steps).batches
    ensures var s := Execute(steps); var x := s.batches[b];
            && x.fee + x.net == x.gross == x.paymentGross - x.adjustmentMinor && x.net >= 1 && x.fee >= 1
            && ItemTotal(s, b, GrossOfItem) == x.paymentGross && ItemTotal(s, b, FeeOfItem) == x.fee
            && ItemTotal(s, b, OneItem) == x.itemCount && AdjustmentTotal(s, b, AmountOfAdjustment) == x.adjustmentMinor
            && AdjustmentTotal(s, b, OneAdjustment) == x.adjustmentCount
  {
    ExecutionKeepsRows(steps);
    EvidenceAlwaysAddsUp(steps);
    assert BatchOk(Execute(steps), b) && BatchAddsUp(Execute(steps), b);
  }

  // ----- evidence is permanent -----

  ghost predicate AdjustmentEvolves(s: State, s': State, r: Id) {
    r in s.adjustments ==>
      && r in s'.adjustments
      && (s'.adjustments[r] == s.adjustments[r]
          || (s.adjustments[r].status == Pending && exists b :: s'.adjustments[r] == s.adjustments[r].(status := Settled(b))))
  }

  /** Everything that counts as evidence: runs, items, batches, refunds, events, postings and settled adjustments stay as they
      are; so no payment is ever in a second batch and no adjustment is ever settled twice. */
  ghost predicate EvidenceStays(s: State, s': State) {
    && Extends(s.items, s'.items) && Extends(s.batches, s'.batches) && Extends(s.refunds, s'.refunds)
    && Extends(s.outbox, s'.outbox) && Extends(s.runs, s'.runs) && s.journal <= s'.journal && s.inbox <= s'.inbox
    && (forall r :: AdjustmentEvolves(s, s', r)) && PaymentsEvolve(s, s')
  }

  lemma EvidenceStaysTransitive(a: State, b: State, c: State)
    requires EvidenceStays(a, b) && EvidenceStays(b, c)
    ensures EvidenceStays(a, c)
  {
    forall r ensures AdjustmentEvolves(a, c, r) { assert AdjustmentEvolves(a, b, r) && AdjustmentEvolves(b, c, r); }
    forall p ensures PaymentEvolves(a, c, p) { assert PaymentEvolves(a, b, p) && PaymentEvolves(b, c, p); }
  }

  lemma RunKeepsEvidenceRows(s: State, c: RunCommand, plan: Plan, s': State)
    requires PlanOk(s, c, plan) && RunDelta(s, c, plan, s') && s.journal <= s'.journal && c.runId !in s.runs
    ensures EvidenceStays(s, s')
  {
    forall p | p in s.items ensures p in s'.items && s'.items[p] == s.items[p] {
      assert p in plan.items ==> Takes(s, c, p);
    }
    forall r ensures AdjustmentEvolves(s, s', r) {
      if r in s.adjustments && r in plan.adjustments {
        assert PendingOf(s, c.merchant, c.currency, r);
        assert s'.adjustments[r] == s.adjustments[r].(status := Settled(c.batchId));
      }
    }
    forall p ensures PaymentEvolves(s, s', p) {}
  }

  lemma CaptureKeepsEvidenceRows(s: State, c: CaptureCommand, s': State)
    requires CaptureDelta(s, c, s') && s.journal <= s'.journal
    ensures EvidenceStays(s, s')
  {
    forall r ensures AdjustmentEvolves(s, s', r) {}
    forall p ensures PaymentEvolves(s, s', p) {}
  }

  lemma RefundKeepsEvidenceRows(s: State, c: RefundCommand, s': State)
    requires RefundDelta(s, c, s') && s.journal <= s'.journal
    ensures EvidenceStays(s, s')
  {
    forall r ensures AdjustmentEvolves(s, s', r) {}
    forall p ensures PaymentEvolves(s, s', p) {}
  }

  lemma DeliveryKeepsEvidenceRows(s: State, e: Id)
    requires RowsOk(s) && ProjectTx(s, e).Ok?
    ensures EvidenceStays(s, ProjectTx(s, e).value)
  {
    var s' := ProjectTx(s, e).value;
    ProjectionAlwaysCommits(s, e);
    forall r ensures AdjustmentEvolves(s, s', r) {}
    forall p ensures PaymentEvolves(s, s', p) {}
  }

  lemma SameTablesKeepEvidence(s: State, s': State)
    requires s' == s.(runs := s'.runs, provisioned := s'.provisioned) && Extends(s.runs, s'.runs)
    ensures EvidenceStays(s, s')
  {
    forall r ensures AdjustmentEvolves(s, s', r) {}
    forall p ensures PaymentEvolves(s, s', p) {}
  }

  lemma CreateKeepsEvidenceRows(s: State, c: CreateCommand)
    requires CreateTx(s, c).Ok?
    ensures EvidenceStays(s, CreateTx(s, c).value)
  {
    var s' := CreateTx(s, c).value;
    forall r ensures AdjustmentEvolves(s, s', r) {}
    forall p ensures PaymentEvolves(s, s', p) {}
  }

  lemma SettleKeepsEvidenceRows(s: State, c: RunCommand, locked: set<Id>, rows: seq<Id>, adjustmentRows: seq<Id>)
    requires RowsOk(s) && Selected(s, c, locked, rows, adjustmentRows) && RunTx(s, c, rows, adjustmentRows).Ok?
    ensures EvidenceStays(s, RunTx(s, c, rows, adjustmentRows).value)
  {
    PlanIsOk(s, c, locked, rows, adjustmentRows);
    var plan := PlanRun(s, c, rows, adjustmentRows).value;
    if plan.Noop() {
      SameTablesKeepEvidence(s, RunTx(s, c, rows, adjustmentRows).value);
    } else {
      SettlePlanEffect(s, c, plan);
      RunKeepsEvidenceRows(s, c, plan, SettlePlan(s, c, plan).value);
    }
  }

  lemma StepKeepsEvidence(s: State, step: Step)
    requires RowsOk(s)
    ensures EvidenceStays(s, Apply(s, step))
  {
    var s' := Apply(s, step);
    if Attempt(s, step).Err? {
      SameTablesKeepEvidence(s, s');
    } else {
      match step
      case Provision(_) => SameTablesKeepEvidence(s, s');
      case Create(c) => CreateKeepsEvidenceRows(s, c);
      case Capture(c) =>
        CaptureEffect(s, c);
        CaptureKeepsEvidenceRows(s, c, s');
      case Refund(c) =>
        RefundEffect(s, c);
        RefundKeepsEvidenceRows(s, c, s');
      case Deliver(e) => DeliveryKeepsEvidenceRows(s, e);
      case Settle(c, locked, rows, adjustmentRows) =>
        SettleKeepsEvidenceRows(s, c, locked, rows, adjustmentRows);
    }
  }

  lemma NextStepKeepsEvidence(steps: seq<Step>, later: seq<Step>, n: nat)
    requires |later| == n + 1
    ensures EvidenceStays(Execute(steps + later[..n]), Execute(steps + later))
  {
    LastStep(steps, later, n);
    ExecutionKeepsRows(steps + later[..n]);
    StepKeepsEvidence(Execute(steps + later[..n]), later[n]);
  }

  /** Whatever happens later, evidence of the past stays. */
  lemma {:induction false} EvidenceIsForever(steps: seq<Step>, later: seq<Step>)
    ensures EvidenceStays(Execute(steps), Execute(steps + later))
    decreases |later|
  {
    if later == [] {
      assert steps + later == steps;
      SameTablesKeepEvidence(Execute(steps), Execute(steps));
    } else {
      var n := |later| - 1;
      EvidenceIsForever(steps, later[..n]);
      NextStepKeepsEvidence(steps, later, n);
      EvidenceStaysTransitive(Execute(steps), Execute(steps + later[..n]), Execute(steps + later));
    }
  }

  // ----- refunds in order of commit -----

  /** A refund event that is new since `base` carries more than was refunded then. */
  ghost predicate NewSumIsLarger(base: State, s: State, e: Id) {
    IsRefund(s, e) && e !in base.outbox && s.outbox[e].payment in base.payments ==>
      base.payments[s.outbox[e].payment].refunded < s.outbox[e].cumulative
  }

  lemma RefundEmitsLarger(s: State, c: RefundCommand, e: Id)
    requires PaymentsOk(s) && RefundTx(s, c).Ok?
    ensures NewSumIsLarger(s, RefundTx(s, c).value, e)
  {
    RefundEffect(s, c);
  }

  lemma SettlementEmitsNoRefund(s: State, c: RunCommand, rows: seq<Id>, adjustmentRows: seq<Id>, e: Id)
    requires forall a | a in adjustmentRows :: a in s.adjustments
    requires RunTx(s, c, rows, adjustmentRows).Ok?
    ensures NewSumIsLarger(s, RunTx(s, c, rows, adjustmentRows).value, e)
  {
    var plan := RunOutcome(s, c, rows, adjustmentRows, RunTx(s, c, rows, adjustmentRows).value);
  }

  lemma StepEmitsLarger(s: State, step: Step, e: Id)
    requires RowsOk(s)
    ensures NewSumIsLarger(s, Apply(s, step), e)
  {
    if Attempt(s, step).Ok? {
      match step
      case Provision(_) =>
      case Create(c) => CreateEffect(s, c);
      case Capture(c) => CaptureEffect(s, c);
      case Refund(c) => RefundEmitsLarger(s, c, e);
      case Deliver(x) => ProjectionAlwaysCommits(s, x);
      case Settle(c, locked, rows, adjustmentRows) => SettlementEmitsNoRefund(s, c, rows, adjustmentRows, e);
    }
  }

  lemma NewSumTransitive(base: State, s: State, s': State, e: Id)
    requires EvidenceStays(base, s) && EvidenceStays(s, s')
    requires NewSumIsLarger(base, s, e) && NewSumIsLarger(s, s', e)
    ensures NewSumIsLarger(base, s', e)
  {
    if IsRefund(s', e) { assert PaymentEvolves(base, s, s'.outbox[e].payment); }
  }

  lemma {:induction false} NewSumsAreLarger(steps: seq<Step>, later: seq<Step>, e: Id)
    ensures NewSumIsLarger(Execute(steps), Execute(steps + later), e)
    decreases |later|
  {
    if later == [] {
      assert steps + later == steps;
    } else {
      var n := |later| - 1;
      NewSumsAreLarger(steps, later[..n], e);
      EvidenceIsForever(steps, later[..n]);
      NextStepKeepsEvidence(steps, later, n);
      LastStep(steps, later, n);
      ExecutionKeepsRows(steps + later[..n]);
      StepEmitsLarger(Execute(steps + later[..n]), later[n], e);
      NewSumTransitive(Execute(steps), Execute(steps + later[..n]), Execute(steps + later), e);
    }
  }

  /** The sums follow the order in which the refunds committed: over every run, a refund event of a payment that is emitted
      later carries a strictly larger cumulative amount than each that was there before. */
  lemma LaterRefundsCarryLargerSums(steps: seq<Step>, later: seq<Step>, e: Id, e': Id)
    requires IsRefund(Execute(steps), e) && e' !in Execute(steps).outbox && IsRefund(Execute(steps + later), e')
    requires Execute(steps + later).outbox[e'].payment == Execute(steps).outbox[e].payment
    ensures var s := Execute(steps + later);
            && IsRefund(s, e) && s.outbox[e] == Execute(steps).outbox[e]
            && s.outbox[e].cumulative < s.outbox[e'].cumulative
  {
    ExecutionKeepsRows(steps);
    assert EventRow(Execute(steps), e);
    EvidenceIsForever(steps, later);
    NewSumsAreLarger(steps, later, e');
  }
}
