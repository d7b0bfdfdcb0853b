/** The ledger, the payments, the settlement tables and the event stream agree as totals. */
module MoneyTotals {
  import opened Basics
  import opened Sums
  import opened MoneyState
  import opened MoneyInvariant
  import opened MoneySettlement
  import Ledger

  // ----- measures, per merchant and currency -----

  ghost predicate Of(merchant: Id, currency: Currency, m: Id, c: Currency) {
    merchant == m && currency == c
  }

  /** Captured minus refunded of a payment. */
  ghost function HeldAt(s: State, m: Id, c: Currency, p: Id): int {
    if p in s.payments && Of(s.payments[p].merchant, s.payments[p].currency, m, c) then Gross(s.payments[p]) else 0
  }

  /** Captured minus refunded of a payment that is in no batch. */
  ghost function UnbatchedAt(s: State, m: Id, c: Currency, p: Id): int {
    if p in s.items then 0 else HeldAt(s, m, c, p)
  }

  ghost function PendingAt(s: State, m: Id, c: Currency, r: Id): int {
    if PendingOf(s, m, c, r) then s.adjustments[r].amount else 0
  }

  /** A post-batch refund whose event was not projected yet. */
  ghost function LateAt(s: State, m: Id, c: Currency, e: Id): int {
    if PostBatch(s, e) && e !in s.inbox && Of(s.outbox[e].merchant, s.outbox[e].currency, m, c) then s.outbox[e].amount else 0
  }

  ghost function BatchAt(s: State, m: Id, c: Currency, w: Batch -> int, b: Id): int {
    if b in s.batches && Of(s.batches[b].merchant, s.batches[b].currency, m, c) then w(s.batches[b]) else 0
  }

  ghost function Held(s: State, m: Id, c: Currency): Id -> int { (p: Id) => HeldAt(s, m, c, p) }
  ghost function Unbatched(s: State, m: Id, c: Currency): Id -> int { (p: Id) => UnbatchedAt(s, m, c, p) }
  ghost function PendingAmount(s: State, m: Id, c: Currency): Id -> int { (r: Id) => PendingAt(s, m, c, r) }
  ghost function LateAmount(s: State, m: Id, c: Currency): Id -> int { (e: Id) => LateAt(s, m, c, e) }
  ghost function BatchAmount(s: State, m: Id, c: Currency, w: Batch -> int): Id -> int { (b: Id) => BatchAt(s, m, c, w, b) }

  ghost function HeldTotal(s: State, m: Id, c: Currency): int { Sum(s.payments.Keys, Held(s, m, c)) }
  ghost function UnbatchedTotal(s: State, m: Id, c: Currency): int { Sum(s.payments.Keys, Unbatched(s, m, c)) }
  ghost function PendingTotal(s: State, m: Id, c: Currency): int { Sum(s.adjustments.Keys, PendingAmount(s, m, c)) }
  ghost function LateTotal(s: State, m: Id, c: Currency): int { Sum(s.outbox.Keys, LateAmount(s, m, c)) }
  ghost function BatchTotal(s: State, m: Id, c: Currency, w: Batch -> int): int {
    Sum(s.batches.Keys, BatchAmount(s, m, c, w))
  }

  function FeeOf(b: Batch): int { b.fee }
  function NetOf(b: Batch): int { b.net }

  /** All four accounts of a merchant in one currency, read off the operational tables. */
  ghost predicate LedgerAgrees(s: State, m: Id, c: Currency) {
    && Ledger.Balance(s.journal, m, c, Ledger.MerchantPayable)
         == UnbatchedTotal(s, m, c) - PendingTotal(s, m, c) - LateTotal(s, m, c)
    && Ledger.Balance(s.journal, m, c, Ledger.ProviderClearing) == -HeldTotal(s, m, c)
    && Ledger.Balance(s.journal, m, c, Ledger.FeeRevenue) == BatchTotal(s, m, c, FeeOf)
    && Ledger.Balance(s.journal, m, c, Ledger.SettlementClearing) == BatchTotal(s, m, c, NetOf)
  }

  /** How one transaction moved the totals of a merchant and currency. */
  ghost predicate TotalsMove(s: State, s': State, m: Id, c: Currency, held: int, unbatched: int, pending: int, late: int) {
    && HeldTotal(s', m, c) == HeldTotal(s, m, c) + held
    && UnbatchedTotal(s', m, c) == UnbatchedTotal(s, m, c) + unbatched
    && PendingTotal(s', m, c) == PendingTotal(s, m, c) + pending
    && LateTotal(s', m, c) == LateTotal(s, m, c) + late
  }

  ghost predicate BatchesMove(s: State, s': State, m: Id, c: Currency, fee: int, net: int) {
    && BatchTotal(s', m, c, FeeOf) == BatchTotal(s, m, c, FeeOf) + fee
    && BatchTotal(s', m, c, NetOf) == BatchTotal(s, m, c, NetOf) + net
  }

  /** A posting whose entries match the movement of the tables keeps the agreement. */
  lemma Rebalance(s: State, s': State, m: Id, c: Currency, p: Ledger.Posting,
                  held: int, unbatched: int, pending: int, late: int, fee: int, net: int)
    requires LedgerAgrees(s, m, c) && s'.journal == s.journal + [p]
    requires TotalsMove(s, s', m, c, held, unbatched, pending, late) && BatchesMove(s, s', m, c, fee, net)
    requires if Of(p.merchant, p.currency, m, c) then
               && Ledger.Net(p.entries, Ledger.MerchantPayable) == unbatched - pending - late
               && Ledger.Net(p.entries, Ledger.ProviderClearing) == -held
               && Ledger.Net(p.entries, Ledger.FeeRevenue) == fee
               && Ledger.Net(p.entries, Ledger.SettlementClearing) == net
             else held == 0 && unbatched - pending - late == 0 && fee == 0 && net == 0
    ensures LedgerAgrees(s', m, c)
  {
    Ledger.BalanceAppend(s.journal, p, m, c, Ledger.MerchantPayable);
    Ledger.BalanceAppend(s.journal, p, m, c, Ledger.ProviderClearing);
    Ledger.BalanceAppend(s.journal, p, m, c, Ledger.FeeRevenue);
    Ledger.BalanceAppend(s.journal, p, m, c, Ledger.SettlementClearing);
  }

  // ----- frames -----

  lemma PendingSame(s: State, s': State, m: Id, c: Currency)
    requires s'.adjustments == s.adjustments
    ensures PendingTotal(s', m, c) == PendingTotal(s, m, c)
  {
    SumCong(s.adjustments.Keys, PendingAmount(s, m, c), PendingAmount(s', m, c));
  }

  lemma BatchesSame(s: State, s': State, m: Id, c: Currency)
    requires s'.batches == s.batches
    ensures BatchesMove(s, s', m, c, 0, 0)
  {
    SumCong(s.batches.Keys, BatchAmount(s, m, c, FeeOf), BatchAmount(s', m, c, FeeOf));
    SumCong(s.batches.Keys, BatchAmount(s, m, c, NetOf), BatchAmount(s', m, c, NetOf));
  }

  /** A new event adds what it is late by; the events already there keep their lateness. */
  lemma LateAdd(s: State, s': State, m: Id, c: Currency, e: Id)
    requires e !in s.outbox && s'.outbox.Keys == s.outbox.Keys + {e}
    requires forall x | x in s.outbox :: LateAt(s', m, c, x) == LateAt(s, m, c, x)
    ensures LateTotal(s', m, c) == LateTotal(s, m, c) + LateAt(s', m, c, e)
  {
    SumPointwise(s.outbox.Keys, s'.outbox.Keys, LateAmount(s, m, c), LateAmount(s', m, c), e);
  }

  /** A command emits an event and leaves the projection and the settlement tables alone. */
  lemma LateEmit(s: State, s': State, m: Id, c: Currency, e: Id, v: Event)
    requires e !in s.outbox && s'.outbox == s.outbox[e := v] && s'.items == s.items && s'.inbox == s.inbox
    ensures LateTotal(s', m, c) == LateTotal(s, m, c) + LateAt(s', m, c, e)
  {
    forall x | x in s.outbox ensures LateAt(s', m, c, x) == LateAt(s, m, c, x) {
      assert s'.outbox[x] == s.outbox[x];
    }
    LateAdd(s, s', m, c, e);
  }

  /** Only payment p changed, and no item did. */
  lemma PaymentChange(s: State, s': State, m: Id, c: Currency, p: Id, row: Payment)
    requires s'.payments == s.payments[p := row] && s'.items == s.items
    ensures HeldTotal(s', m, c) == HeldTotal(s, m, c) - HeldAt(s, m, c, p) + HeldAt(s', m, c, p)
    ensures UnbatchedTotal(s', m, c) == UnbatchedTotal(s, m, c)
              - (if p in s.payments then UnbatchedAt(s, m, c, p) else 0) + UnbatchedAt(s', m, c, p)
  {
    SumPointwise(s.payments.Keys, s'.payments.Keys, Held(s, m, c), Held(s', m, c), p);
    SumPointwise(s.payments.Keys, s'.payments.Keys, Unbatched(s, m, c), Unbatched(s', m, c), p);
  }

  lemma PaymentsSame(s: State, s': State, m: Id, c: Currency)
    requires s'.payments == s.payments && s'.items == s.items
    ensures HeldTotal(s', m, c) == HeldTotal(s, m, c) && UnbatchedTotal(s', m, c) == UnbatchedTotal(s, m, c)
  {
    SumCong(s.payments.Keys, Held(s, m, c), Held(s', m, c));
    SumCong(s.payments.Keys, Unbatched(s, m, c), Unbatched(s', m, c));
  }

  // ----- how each transaction moves the totals -----

  /** A command on one payment that emits one event. */
  ghost predicate CommandDelta(s: State, s': State, p: Id, row: Payment, e: Id, v: Event) {
    && e !in s.outbox && SameSettlement(s, s')
    && s'.payments == s.payments[p := row] && s'.outbox == s.outbox[e := v]
  }

  lemma CommandMoves(s: State, s': State, m: Id, c: Currency, p: Id, row: Payment, e: Id, v: Event)
    requires CommandDelta(s, s', p, row, e, v)
    ensures TotalsMove(s, s', m, c, HeldAt(s', m, c, p) - HeldAt(s, m, c, p),
                       UnbatchedAt(s', m, c, p) - (if p in s.payments then UnbatchedAt(s, m, c, p) else 0),
                       0, LateAt(s', m, c, e))
    ensures BatchesMove(s, s', m, c, 0, 0)
  {
    PaymentChange(s, s', m, c, p, row);
    PendingSame(s, s', m, c);
    BatchesSame(s, s', m, c);
    LateEmit(s, s', m, c, e, v);
  }

  lemma CreateKeepsLedger(s: State, x: CreateCommand, m: Id, c: Currency)
    requires CreateTx(s, x).Ok? && LedgerAgrees(s, m, c)
    ensures LedgerAgrees(CreateTx(s, x).value, m, c)
  {
    CreateEffect(s, x);
    var s' := CreateTx(s, x).value;
    var row := s'.payments[x.paymentId];
    CommandMoves(s, s', m, c, x.paymentId, row, x.eventId, s'.outbox[x.eventId]);
    assert HeldAt(s', m, c, x.paymentId) == 0;
  }

  lemma CaptureMoves(s: State, x: CaptureCommand, s': State, m: Id, c: Currency)
    requires CaptureDelta(s, x, s') && PositionsOk(s) && ItemsOk(s)
    ensures var d := if Of(x.merchant, s.payments[x.paymentId].currency, m, c) then x.amount else 0;
            TotalsMove(s, s', m, c, d, d, 0, 0)
    ensures BatchesMove(s, s', m, c, 0, 0)
  {
    assert PositionOk(s, x.paymentId) && ItemOk(s, x.paymentId);
    CommandMoves(s, s', m, c, x.paymentId, s'.payments[x.paymentId], x.eventId, s'.outbox[x.eventId]);
  }

  lemma CaptureKeepsLedger(s: State, x: CaptureCommand, s': State, m: Id, c: Currency)
    requires CaptureDelta(s, x, s') && s'.journal == s.journal + [CapturePosting(x, s.payments[x.paymentId].currency)]
    requires PositionsOk(s) && ItemsOk(s) && LedgerAgrees(s, m, c)
    ensures LedgerAgrees(s', m, c)
  {
    CaptureMoves(s, x, s', m, c);
    var posting := CapturePosting(x, s.payments[x.paymentId].currency);
    Ledger.CaptureEntriesEffect(x.amount, posting.currency);
    var d := if Of(x.merchant, posting.currency, m, c) then x.amount else 0;
    Rebalance(s, s', m, c, posting, d, d, 0, 0, 0, 0);
  }

  lemma RefundPoints(s: State, x: RefundCommand, s': State, m: Id, c: Currency)
    requires RefundDelta(s, x, s') && x.eventId !in s.inbox && ItemOk(s, x.paymentId)
    ensures var d := if Of(x.merchant, s.payments[x.paymentId].currency, m, c) then x.amount else 0;
            && HeldAt(s', m, c, x.paymentId) == HeldAt(s, m, c, x.paymentId) - d
            && LateAt(s', m, c, x.eventId) == if x.paymentId in s.items then d else 0
  {
    assert IsRefund(s', x.eventId);
  }

  /** A refund lowers what an unbatched payment holds; of a batched payment it is late until projected. */
  lemma RefundMoves(s: State, x: RefundCommand, s': State, m: Id, c: Currency)
    requires RefundDelta(s, x, s') && x.eventId !in s.inbox && ItemOk(s, x.paymentId)
    ensures var d := if Of(x.merchant, s.payments[x.paymentId].currency, m, c) then x.amount else 0;
            var late := if x.paymentId in s.items then d else 0;
            TotalsMove(s, s', m, c, -d, late - d, 0, late)
    ensures BatchesMove(s, s', m, c, 0, 0)
  {
    RefundPoints(s, x, s', m, c);
    var row, event := s'.payments[x.paymentId], s'.outbox[x.eventId];
    assert CommandDelta(s, s', x.paymentId, row, x.eventId, event);
    CommandMoves(s, s', m, c, x.paymentId, row, x.eventId, event);
  }

  lemma RefundKeepsLedger(s: State, x: RefundCommand, s': State, m: Id, c: Currency)
    requires RefundDelta(s, x, s') && s'.journal == s.journal + [RefundPosting(x, s.payments[x.paymentId].currency)]
    requires x.eventId !in s.inbox && ItemOk(s, x.paymentId) && LedgerAgrees(s, m, c)
    ensures LedgerAgrees(s', m, c)
  {
    RefundMoves(s, x, s', m, c);
    var posting := RefundPosting(x, s.payments[x.paymentId].currency);
    Ledger.RefundEntriesEffect(x.amount, posting.currency);
    var d := if Of(x.merchant, posting.currency, m, c) then x.amount else 0;
    var late := if x.paymentId in s.items then d else 0;
    Rebalance(s, s', m, c, posting, -d, late - d, 0, late, 0, 0);
  }

  lemma ProjectLate(s: State, e: Id, s': State, m: Id, c: Currency)
    requires ProjectFrame(s, e, s')
    ensures LateTotal(s', m, c) == LateTotal(s, m, c) - LateAt(s, m, c, e)
  {
    forall x | x in s.outbox && x != e ensures LateAt(s', m, c, x) == LateAt(s, m, c, x) {}
    SumPointwise(s.outbox.Keys, s'.outbox.Keys, LateAmount(s, m, c), LateAmount(s', m, c), e);
  }

  lemma ProjectPending(s: State, e: Id, s': State, m: Id, c: Currency)
    requires ProjectCaptureDelta(s, e, s') || (ProjectRefundDelta(s, e, s') && ItemOk(s, s.outbox[e].payment))
    ensures PendingTotal(s', m, c) == PendingTotal(s, m, c) + LateAt(s, m, c, e)
  {
    var v := s.outbox[e];
    if v.PaymentRefunded? && PostBatch(s, e) {
      forall r | r in s.adjustments && r != v.refund ensures PendingAt(s', m, c, r) == PendingAt(s, m, c, r) {}
      SumPointwise(s.adjustments.Keys, s'.adjustments.Keys, PendingAmount(s, m, c), PendingAmount(s', m, c), v.refund);
    } else {
      PendingSame(s, s', m, c);
    }
  }

  /** Projecting a late refund turns it into a pending adjustment of the same amount. */
  lemma ProjectMoves(s: State, e: Id, s': State, m: Id, c: Currency)
    requires ProjectCaptureDelta(s, e, s') || (ProjectRefundDelta(s, e, s') && ItemOk(s, s.outbox[e].payment))
    ensures TotalsMove(s, s', m, c, 0, 0, LateAt(s, m, c, e), -LateAt(s, m, c, e))
    ensures BatchesMove(s, s', m, c, 0, 0)
  {
    PaymentsSame(s, s', m, c);
    BatchesSame(s, s', m, c);
    ProjectLate(s, e, s', m, c);
    ProjectPending(s, e, s', m, c);
  }

  lemma RunPoints(s: State, x: RunCommand, plan: Plan, s': State, m: Id, c: Currency, p: Id)
    requires PlanItemsOk(s, x, plan) && RunDelta(s, x, plan, s') && p in s.payments
    ensures HeldAt(s', m, c, p) == HeldAt(s, m, c, p)
    ensures if p in plan.items then
              && UnbatchedAt(s', m, c, p) == 0
              && UnbatchedAt(s, m, c, p) == if Of(x.merchant, x.currency, m, c) then Gross(s.payments[p]) else 0
            else UnbatchedAt(s', m, c, p) == UnbatchedAt(s, m, c, p)
  {
    if p in plan.items { assert Takes(s, x, p); }
    assert p in s'.items <==> p in s.items || p in plan.items;
  }

  /** The items taken by a run leave the unbatched total with their gross. */
  lemma RunMovesPayments(s: State, x: RunCommand, plan: Plan, s': State, m: Id, c: Currency)
    requires PlanItemsOk(s, x, plan) && RunDelta(s, x, plan, s')
    ensures HeldTotal(s', m, c) == HeldTotal(s, m, c)
    ensures UnbatchedTotal(s', m, c)
         == UnbatchedTotal(s, m, c) - if Of(x.merchant, x.currency, m, c) then plan.paymentGross else 0
  {
    forall p | p in s.payments
      ensures HeldAt(s', m, c, p) == HeldAt(s, m, c, p)
      ensures if p in plan.items then UnbatchedAt(s', m, c, p) == 0 else UnbatchedAt(s', m, c, p) == UnbatchedAt(s, m, c, p)
    {
      RunPoints(s, x, plan, s', m, c, p);
    }
    forall i | 0 <= i < |plan.items|
      ensures plan.items[i] in s.payments
           && UnbatchedAt(s, m, c, plan.items[i]) == if Of(x.merchant, x.currency, m, c) then Grosses(s, plan.items)[i] else 0
    {
      assert plan.items[i] in plan.items && Takes(s, x, plan.items[i]);
      RunPoints(s, x, plan, s', m, c, plan.items[i]);
    }
    SumCong(s.payments.Keys, Held(s, m, c), Held(s', m, c));
    MoveOut(s.payments.Keys, Unbatched(s, m, c), Unbatched(s', m, c), plan.items,
            Of(x.merchant, x.currency, m, c), Grosses(s, plan.items));
  }

  /** The listed keys lose their measure, which is vs when they are counted and nothing otherwise. */
  lemma MoveOut(keys: set<Id>, f: Id -> int, f': Id -> int, xs: seq<Id>, counted: bool, vs: seq<int>)
    requires Distinct(xs) && |vs| == |xs| && Range(xs) <= keys
    requires forall k | k in keys && k !in xs :: f'(k) == f(k)
    requires forall k | k in keys && k in xs :: f'(k) == 0
    requires forall i | 0 <= i < |xs| :: f(xs[i]) == if counted then vs[i] else 0
    ensures Sum(keys, f') == Sum(keys, f) - if counted then Total(vs) else 0
  {
    SumChange(keys, f, f', Range(xs));
    SumZero(Range(xs), f');
    if counted { SumOfList(xs, f, vs); } else { SumZero(Range(xs), f); }
  }

  /** The adjustments taken by a run leave the pending total with their amounts. */
  lemma RunMovesAdjustments(s: State, x: RunCommand, plan: Plan, s': State, m: Id, c: Currency)
    requires PlanAdjustmentsOk(s, x, plan) && RunDelta(s, x, plan, s')
    ensures PendingTotal(s', m, c)
         == PendingTotal(s, m, c) - if Of(x.merchant, x.currency, m, c) then plan.adjustmentMinor else 0
  {
    forall i | 0 <= i < |plan.adjustments| ensures plan.adjustments[i] in s.adjustments {
      assert plan.adjustments[i] in plan.adjustments;
    }
    MoveOut(s.adjustments.Keys, PendingAmount(s, m, c), PendingAmount(s', m, c), plan.adjustments,
            Of(x.merchant, x.currency, m, c), AdjustmentAmounts(s, plan.adjustments));
  }

  /** Batching a payment does not make any of its refunds late. */
  lemma RunKeepsLate(s: State, x: RunCommand, plan: Plan, s': State, m: Id, c: Currency)
    requires PlanItemsOk(s, x, plan) && RunDelta(s, x, plan, s') && EventsOk(s)
    ensures LateTotal(s', m, c) == LateTotal(s, m, c)
  {
    forall y | y in s.outbox ensures LateAt(s', m, c, y) == LateAt(s, m, c, y) {
      assert EventRow(s, y);
      if IsRefund(s, y) && s.outbox[y].payment in plan.items { assert Takes(s, x, s.outbox[y].payment); }
    }
    LateAdd(s, s', m, c, x.eventId);
  }

  lemma RunAddsBatch(s: State, x: RunCommand, plan: Plan, s': State, m: Id, c: Currency, w: Batch -> int)
    requires RunDelta(s, x, plan, s')
    ensures BatchTotal(s', m, c, w)
         == BatchTotal(s, m, c, w) + if Of(x.merchant, x.currency, m, c) then w(s'.batches[x.batchId]) else 0
  {
    SumPointwise(s.batches.Keys, s'.batches.Keys, BatchAmount(s, m, c, w), BatchAmount(s', m, c, w), x.batchId);
  }

  lemma RunMoves(s: State, x: RunCommand, plan: Plan, s': State, m: Id, c: Currency)
    requires PlanOk(s, x, plan) && RunDelta(s, x, plan, s') && EventsOk(s)
    ensures var mine := Of(x.merchant, x.currency, m, c);
            && TotalsMove(s, s', m, c, 0, if mine then -plan.paymentGross else 0, if mine then -plan.adjustmentMinor else 0, 0)
            && BatchesMove(s, s', m, c, if mine then plan.fee else 0, if mine then plan.Net() else 0)
  {
    RunMovesPayments(s, x, plan, s', m, c);
    RunMovesAdjustments(s, x, plan, s', m, c);
    RunKeepsLate(s, x, plan, s', m, c);
    RunAddsBatch(s, x, plan, s', m, c, FeeOf);
    RunAddsBatch(s, x, plan, s', m, c, NetOf);
  }

  lemma RunKeepsLedger(s: State, x: RunCommand, plan: Plan, s': State, m: Id, c: Currency)
    requires PlanOk(s, x, plan) && RunDelta(s, x, plan, s') && EventsOk(s)
    requires s'.journal == s.journal + [SettlementPosting(x, plan)]
    requires Ledger.BuildSettlementEntries(plan.Gross(), plan.fee, plan.Net(), x.currency).Ok?
    requires LedgerAgrees(s, m, c)
    ensures LedgerAgrees(s', m, c)
  {
    RunMoves(s, x, plan, s', m, c);
    Ledger.SettlementEntriesEffect(plan.Gross(), plan.fee, plan.Net(), x.currency);
    var mine := Of(x.merchant, x.currency, m, c);
    Rebalance(s, s', m, c, SettlementPosting(x, plan), 0, if mine then -plan.paymentGross else 0,
              if mine then -plan.adjustmentMinor else 0, 0, if mine then plan.fee else 0, if mine then plan.Net() else 0);
  }

  lemma RunsTableKeepsLedger(s: State, s': State, m: Id, c: Currency)
    requires s' == s.(runs := s'.runs, provisioned := s'.provisioned) && LedgerAgrees(s, m, c)
    ensures LedgerAgrees(s', m, c)
  {
    PaymentsSame(s, s', m, c);
    PendingSame(s, s', m, c);
    BatchesSame(s, s', m, c);
    forall x | x in s.outbox ensures LateAt(s', m, c, x) == LateAt(s, m, c, x) {}
    SumCong(s.outbox.Keys, LateAmount(s, m, c), LateAmount(s', m, c));
  }

  lemma SettleKeepsLedger(s: State, x: RunCommand, locked: set<Id>, rows: seq<Id>, adjustmentRows: seq<Id>, m: Id, c: Currency)
    requires RowsOk(s) && Selected(s, x, locked, rows, adjustmentRows)
    requires RunTx(s, x, rows, adjustmentRows).Ok? && LedgerAgrees(s, m, c)
    ensures LedgerAgrees(RunTx(s, x, rows, adjustmentRows).value, m, c)
  {
    var plan := PlanRun(s, x, rows, adjustmentRows).value;
    var s' := RunTx(s, x, rows, adjustmentRows).value;
    if plan.Noop() {
      RunsTableKeepsLedger(s, s', m, c);
    } else {
      PlanIsOk(s, x, locked, rows, adjustmentRows);
      SettlePlanEffect(s, x, plan);
      RunKeepsLedger(s, x, plan, s', m, c);
    }
  }

  lemma ApplyKeepsLedger(s: State, step: Step, m: Id, c: Currency)
    requires RowsOk(s) && LedgerAgrees(s, m, c)
    ensures LedgerAgrees(Apply(s, step), m, c)
  {
    if Attempt(s, step).Ok? {
      var s' := Apply(s, step);
      match step
      case Provision(_) => RunsTableKeepsLedger(s, s', m, c);
      case Create(x) => CreateKeepsLedger(s, x, m, c);
      case Capture(x) =>
        CaptureEffect(s, x);
        CaptureKeepsLedger(s, x, s', m, c);
      case Refund(x) =>
        RefundEffect(s, x);
        assert InboxRow(s, x.eventId) && ItemOk(s, x.paymentId);
        RefundKeepsLedger(s, x, s', m, c);
      case Deliver(e) =>
        ProjectionAlwaysCommits(s, e);
        if e !in s.inbox {
          assert ItemOk(s, s.outbox[e].payment);
          ProjectMoves(s, e, s', m, c);
        }
      case Settle(x, locked, rows, adjustmentRows) => SettleKeepsLedger(s, x, locked, rows, adjustmentRows, m, c);
    }
  }

  /** The three separately updated things agree in every reachable state: per merchant and currency the
      ledger's payable is what unbatched payments hold, less pending adjustments, less post-batch
      refunds still on their way; the other accounts are what the payments and batches say. */
  lemma {:induction false} LedgerAgreesAlways(steps: seq<Step>, m: Id, c: Currency)
    ensures LedgerAgrees(Execute(steps), m, c)
  {
    if steps == [] {
      assert LedgerAgrees(EMPTY_STATE, m, c);
    } else {
      var n := |steps| - 1;
      LedgerAgreesAlways(steps[..n], m, c);
      ExecutionKeepsRows(steps[..n]);
      ApplyKeepsLedger(Execute(steps[..n]), steps[n], m, c);
    }
  }
}
