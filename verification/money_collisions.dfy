/** Which failures of an attempt the next one can cure: exactly those of commands that commit with fresh identifiers. */
module MoneyCollisions {
  import opened Basics
  import opened Sums
  import opened SettlementPolicy
  import opened MoneyState
  import opened MoneyInvariant
  import opened MoneySettlement
  import opened MoneyTheorems
  import Ledger
  import MoneyStore

  /** A public identifier of the journal or an event identifier is taken. */
  ghost predicate PostingTaken(s: State, ledgerId: Id, eventId: Id) {
    eventId in s.outbox || exists i | 0 <= i < |s.journal| :: s.journal[i].publicId == ledgerId
  }

  /** A creation is tried again exactly if an identifier it drew is taken and, with a fresh payment identifier, its reference
      is not. */
  lemma CreateIsTriedAgain(s: State, c: CreateCommand)
    ensures CreateTx(s, c).Err? && MoneyStore.IsCollision(CreateTx(s, c).error) <==>
              || c.paymentId in s.payments
              || (c.eventId in s.outbox
                  && !(exists p | p in s.payments :: s.payments[p].merchant == c.merchant && s.payments[p].externalRef == c.externalRef))
  {
  }

  /** In every reachable state a capture is tried again exactly if it would commit with fresh identifiers and one that it drew
      is taken. */
  lemma CaptureIsTriedAgain(steps: seq<Step>, c: CaptureCommand)
    requires c.merchant in Execute(steps).provisioned
    ensures var s := Execute(steps);
            CaptureTx(s, c).Err? && MoneyStore.IsCollision(CaptureTx(s, c).error) <==>
              && Known(s, c.merchant, c.paymentId) && s.payments[c.paymentId].currency == c.currency
              && s.payments[c.paymentId].captured == 0 && s.payments[c.paymentId].amount == c.amount
              && PostingTaken(s, c.ledgerId, c.eventId)
  {
    var s := Execute(steps);
    ExecutionKeepsRows(steps);
    assert PaymentRow(s, c.paymentId);
    forall i | 0 <= i < |s.journal| && s.journal[i].business == Ledger.Capture && s.journal[i].reference == c.paymentId
      ensures c.paymentId in s.payments && s.payments[c.paymentId].status != Created
    {
      assert PostingOwned(s, s.journal[i]);
    }
    CaptureFails(s, c);
  }

  lemma CaptureFails(s: State, c: CaptureCommand)
    requires c.merchant in s.provisioned && PaymentRow(s, c.paymentId)
    requires forall i | 0 <= i < |s.journal| && s.journal[i].business == Ledger.Capture && s.journal[i].reference == c.paymentId ::
               c.paymentId in s.payments && s.payments[c.paymentId].status != Created
    ensures CaptureTx(s, c).Err? && MoneyStore.IsCollision(CaptureTx(s, c).error) <==>
              && CaptureError(LockByPublicId(s, c.merchant, c.paymentId), c).None? && PostingTaken(s, c.ledgerId, c.eventId)
  {
  }

  /** In every reachable state a refund is tried again exactly if it may be made and either its refund identifier is taken, or
      its reference and amount are accepted and another identifier is. */
  lemma RefundIsTriedAgain(steps: seq<Step>, c: RefundCommand)
    requires c.merchant in Execute(steps).provisioned
    ensures var s := Execute(steps);
            RefundTx(s, c).Err? && MoneyStore.IsCollision(RefundTx(s, c).error) <==>
              && Known(s, c.merchant, c.paymentId) && s.payments[c.paymentId].currency == c.currency
              && s.payments[c.paymentId].refunded < s.payments[c.paymentId].captured
              && c.amount <= s.payments[c.paymentId].captured - s.payments[c.paymentId].refunded
              && (c.refundId in s.refunds
                  || (1 <= c.amount && PostingTaken(s, c.ledgerId, c.eventId)
                      && !(exists r | r in s.refunds :: s.refunds[r].merchant == c.merchant && s.refunds[r].externalRef == c.externalRef)))
  {
    var s := Execute(steps);
    ExecutionKeepsRows(steps);
    assert PaymentRow(s, c.paymentId);
    forall i | 0 <= i < |s.journal| && s.journal[i].business == Ledger.Refund ensures s.journal[i].reference in s.refunds {
      assert PostingOwned(s, s.journal[i]);
    }
    RefundFails(s, c);
  }

  lemma RefundFails(s: State, c: RefundCommand)
    requires c.merchant in s.provisioned && PaymentRow(s, c.paymentId)
    requires forall i | 0 <= i < |s.journal| && s.journal[i].business == Ledger.Refund :: s.journal[i].reference in s.refunds
    ensures RefundTx(s, c).Err? && MoneyStore.IsCollision(RefundTx(s, c).error) <==>
              && RefundError(LockByPublicId(s, c.merchant, c.paymentId), c).None?
              && (c.refundId in s.refunds
                  || (1 <= c.amount && PostingTaken(s, c.ledgerId, c.eventId)
                      && !(exists r | r in s.refunds :: s.refunds[r].merchant == c.merchant && s.refunds[r].externalRef == c.externalRef)))
  {
  }

  /** In every reachable state a settlement run with a new batch identifier is tried again exactly if it would commit with fresh
      identifiers and fails. */
  lemma RunIsTriedAgain(steps: seq<Step>, c: RunCommand, locked: set<Id>, rows: seq<Id>, adjustmentRows: seq<Id>)
    requires Selected(Execute(steps), c, locked, rows, adjustmentRows)
    requires c.merchant in Execute(steps).provisioned && c.batchId !in Execute(steps).batches
    ensures var s := Execute(steps);
            && (forall p | p in Page(rows) :: p in s.payments)
            && (c.runId in s.runs ==> RunTx(s, c, rows, adjustmentRows).Err?)
            && (RunTx(s, c, rows, adjustmentRows).Err? ==>
                  (MoneyStore.IsCollision(RunTx(s, c, rows, adjustmentRows).error) <==>
                     && !(exists n: nat :: BlockedAt(LiveGrosses(s, c, rows), c.currency, n))
                     && Total(AdjustmentAmounts(s, Page(adjustmentRows))) <= MAX_SAFE_INTEGER))
  {
    var s := Execute(steps);
    ExecutionKeepsRows(steps);
    PlanExists(s, c, locked, rows, adjustmentRows);
    if PlanRun(s, c, rows, adjustmentRows).Ok? {
      PlanIsOk(s, c, locked, rows, adjustmentRows);
      RunFails(s, c, rows, adjustmentRows, PlanRun(s, c, rows, adjustmentRows).value);
    }
  }

  lemma RunFails(s: State, c: RunCommand, rows: seq<Id>, adjustmentRows: seq<Id>, plan: Plan)
    requires (forall a | a in adjustmentRows :: a in s.adjustments) && PlanRun(s, c, rows, adjustmentRows) == Ok(plan)
    requires JournalRowsOk(s) && PlanOk(s, c, plan) && c.merchant in s.provisioned && c.batchId !in s.batches
    ensures RunTx(s, c, rows, adjustmentRows).Err? ==> MoneyStore.IsCollision(RunTx(s, c, rows, adjustmentRows).error)
  {
    if !plan.Noop() { SettlingFails(s, c, plan); }
  }

  lemma SettlingFails(s: State, c: RunCommand, plan: Plan)
    requires JournalRowsOk(s) && PlanOk(s, c, plan) && !plan.Noop() && c.merchant in s.provisioned && c.batchId !in s.batches
    ensures SettlePlan(s, c, plan).Err? ==> MoneyStore.IsCollision(SettlePlan(s, c, plan).error)
  {
    PlanMeetsGuards(s, c, plan);
    NoSettlementPosting(s, c.batchId);
    forall i | 0 <= i < |plan.items| ensures plan.items[i] !in s.items {
      assert plan.items[i] in plan.items && Takes(s, c, plan.items[i]);
    }
  }
}
