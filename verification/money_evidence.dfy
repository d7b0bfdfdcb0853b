/** Settlement evidence and refund evidence add up: batches equal their items and adjustments,
    payments equal their refund rows, and refund events carry prefix sums. */
module MoneyEvidence {
  import opened Basics
  import opened Sums
  import opened SettlementPolicy
  import opened MoneyState
  import opened MoneyInvariant
  import opened MoneySettlement

  // ----- batches -----

  function GrossOfItem(i: Item): int { i.gross }
  function FeeOfItem(i: Item): int { i.fee }
  function OneItem(i: Item): int { 1 }
  function AmountOfAdjustment(a: Adjustment): int { a.amount }
  function OneAdjustment(a: Adjustment): int { 1 }

  ghost function ItemAt(s: State, b: Id, w: Item -> int, p: Id): int {
    if p in s.items && s.items[p].batch == b then w(s.items[p]) else 0
  }

  ghost function AdjustmentAt(s: State, b: Id, w: Adjustment -> int, r: Id): int {
    if r in s.adjustments && s.adjustments[r].status == Settled(b) then w(s.adjustments[r]) else 0
  }

  ghost function ItemTotal(s: State, b: Id, w: Item -> int): int {
    Sum(s.items.Keys, (p: Id) => ItemAt(s, b, w, p))
  }

  ghost function AdjustmentTotal(s: State, b: Id, w: Adjustment -> int): int {
    Sum(s.adjustments.Keys, (r: Id) => AdjustmentAt(s, b, w, r))
  }

  /** The stored totals of a batch are those of its own rows: the deferred totals check cannot fire. */
  ghost predicate BatchAddsUp(s: State, b: Id) {
    b in s.batches ==>
      && ItemTotal(s, b, GrossOfItem) == s.batches[b].paymentGross
      && ItemTotal(s, b, FeeOfItem) == s.batches[b].fee
      && ItemTotal(s, b, OneItem) == s.batches[b].itemCount
      && AdjustmentTotal(s, b, AmountOfAdjustment) == s.batches[b].adjustmentMinor
      && AdjustmentTotal(s, b, OneAdjustment) == s.batches[b].adjustmentCount
  }

  lemma ItemTotalSame(s: State, s': State, b: Id, w: Item -> int)
    requires s'.items == s.items
    ensures ItemTotal(s', b, w) == ItemTotal(s, b, w)
  {
    SumCong(s.items.Keys, (p: Id) => ItemAt(s, b, w, p), (p: Id) => ItemAt(s', b, w, p));
  }

  lemma AdjustmentTotalSame(s: State, s': State, b: Id, w: Adjustment -> int)
    requires s.adjustments.Keys <= s'.adjustments.Keys
    requires forall r | r in s.adjustments :: s'.adjustments[r] == s.adjustments[r]
    requires forall r | r in s'.adjustments && r !in s.adjustments :: s'.adjustments[r].status == Pending
    ensures AdjustmentTotal(s', b, w) == AdjustmentTotal(s, b, w)
  {
    var f, f' := (r: Id) => AdjustmentAt(s, b, w, r), (r: Id) => AdjustmentAt(s', b, w, r);
    var added := s'.adjustments.Keys - s.adjustments.Keys;
    SumUnion(s.adjustments.Keys, added, f');
    assert s.adjustments.Keys + added == s'.adjustments.Keys;
    SumCong(s.adjustments.Keys, f, f');
    SumZero(added, f');
  }

  /** Steps other than settling runs settle nothing. */
  lemma UnsettledKeeps(s: State, s': State, b: Id)
    requires BatchAddsUp(s, b) && s'.items == s.items && s'.batches == s.batches
    requires s.adjustments.Keys <= s'.adjustments.Keys
    requires forall r | r in s.adjustments :: s'.adjustments[r] == s.adjustments[r]
    requires forall r | r in s'.adjustments && r !in s.adjustments :: s'.adjustments[r].status == Pending
    ensures BatchAddsUp(s', b)
  {
    ItemTotalSame(s, s', b, GrossOfItem);
    ItemTotalSame(s, s', b, FeeOfItem);
    ItemTotalSame(s, s', b, OneItem);
    AdjustmentTotalSame(s, s', b, AmountOfAdjustment);
    AdjustmentTotalSame(s, s', b, OneAdjustment);
  }

  /** What a settling run makes of one item row, for the totals of batch b. */
  lemma RunItemPoint(s: State, x: RunCommand, plan: Plan, s': State, b: Id, w: Item -> int, p: Id)
    requires PlanItemsOk(s, x, plan) && RunDelta(s, x, plan, s') && (p in s.items || p in plan.items) && ItemsOk(s)
    ensures p in plan.items ==> p !in s.items && ItemAt(s', b, w, p) == if b == x.batchId then w(MakeItem(s.payments[p], x.batchId, x.currency)) else 0
    ensures p !in plan.items ==> ItemAt(s', b, w, p) == if b == x.batchId then 0 else ItemAt(s, b, w, p)
  {
    assert ItemOk(s, p);
    if p in plan.items { assert Takes(s, x, p); }
    assert p in s'.items;
  }

  /** The rows of the kept table keep their measure, or had none; the listed new rows measure vs. */
  lemma SplitTotal(kept: set<Id>, xs: seq<Id>, f: Id -> int, f': Id -> int, own: bool, vs: seq<int>)
    requires Distinct(xs) && kept !! Range(xs) && |vs| == |xs|
    requires forall p | p in kept :: f'(p) == if own then 0 else f(p)
    requires forall i | 0 <= i < |xs| :: f'(xs[i]) == if own then vs[i] else 0
    ensures Sum(kept + Range(xs), f') == if own then Total(vs) else Sum(kept, f)
  {
    SumUnion(kept, Range(xs), f');
    if own {
      SumZero(kept, f');
      SumOfList(xs, f', vs);
    } else {
      SumCong(kept, f, f');
      SumZero(Range(xs), f');
    }
  }

  /** A settling run gives its own batch exactly the planned items and leaves the others theirs. */
  lemma RunItemTotal(s: State, x: RunCommand, plan: Plan, s': State, b: Id, w: Item -> int, vs: seq<int>)
    requires PlanItemsOk(s, x, plan) && RunDelta(s, x, plan, s') && ItemsOk(s)
    requires |vs| == |plan.items|
    requires forall i | 0 <= i < |vs| :: plan.items[i] in plan.items && vs[i] == w(MakeItem(s.payments[plan.items[i]], x.batchId, x.currency))
    ensures ItemTotal(s', b, w) == if b == x.batchId then Total(vs) else ItemTotal(s, b, w)
  {
    var f, f' := (p: Id) => ItemAt(s, b, w, p), (p: Id) => ItemAt(s', b, w, p);
    forall p | p in s.items
      ensures p !in plan.items && f'(p) == if b == x.batchId then 0 else f(p)
    {
      RunItemPoint(s, x, plan, s', b, w, p);
    }
    forall i | 0 <= i < |vs| ensures f'(plan.items[i]) == if b == x.batchId then vs[i] else 0 {
      RunItemPoint(s, x, plan, s', b, w, plan.items[i]);
    }
    SplitTotal(s.items.Keys, plan.items, f, f', b == x.batchId, vs);
  }

  lemma RunAdjustmentPoint(s: State, x: RunCommand, plan: Plan, s': State, b: Id, w: Adjustment -> int, r: Id)
    requires PlanAdjustmentsOk(s, x, plan) && RunDelta(s, x, plan, s') && r in s.adjustments && AdjustmentsOk(s)
    ensures r in plan.adjustments ==>
      && AdjustmentAt(s, b, w, r) == 0
      && AdjustmentAt(s', b, w, r) == if b == x.batchId then w(s.adjustments[r].(status := Settled(x.batchId))) else 0
    ensures r !in plan.adjustments ==> AdjustmentAt(s', b, w, r) == AdjustmentAt(s, b, w, r)
    ensures b == x.batchId ==> AdjustmentAt(s, b, w, r) == 0
  {
    assert AdjustmentOk(s, r) && r in s'.adjustments;
    if r in plan.adjustments { assert PendingOf(s, x.merchant, x.currency, r); }
  }

  /** The listed rows had no measure and now have vs, or still none; the others keep theirs. */
  lemma GainTotal(keys: set<Id>, xs: seq<Id>, f: Id -> int, f': Id -> int, own: bool, vs: seq<int>)
    requires Distinct(xs) && Range(xs) <= keys && |vs| == |xs|
    requires forall r | r in keys && r !in xs :: f'(r) == f(r)
    requires forall r | r in keys && (own || r in xs) :: f(r) == 0
    requires forall i | 0 <= i < |xs| :: f'(xs[i]) == if own then vs[i] else 0
    ensures Sum(keys, f') == if own then Total(vs) else Sum(keys, f)
  {
    SumChange(keys, f, f', Range(xs));
    SumZero(Range(xs), f);
    if own {
      SumZero(keys, f);
      SumOfList(xs, f', vs);
    } else {
      SumZero(Range(xs), f');
    }
  }

  lemma RunAdjustmentTotal(s: State, x: RunCommand, plan: Plan, s': State, b: Id, w: Adjustment -> int, vs: seq<int>)
    requires PlanAdjustmentsOk(s, x, plan) && RunDelta(s, x, plan, s') && AdjustmentsOk(s)
    requires |vs| == |plan.adjustments| && Range(plan.adjustments) <= s.adjustments.Keys
    requires forall i | 0 <= i < |vs| :: plan.adjustments[i] in Range(plan.adjustments)
                  && vs[i] == w(s.adjustments[plan.adjustments[i]].(status := Settled(x.batchId)))
    ensures AdjustmentTotal(s', b, w) == if b == x.batchId then Total(vs) else AdjustmentTotal(s, b, w)
  {
    var f, f' := (r: Id) => AdjustmentAt(s, b, w, r), (r: Id) => AdjustmentAt(s', b, w, r);
    forall r | r in s.adjustments
      ensures r !in plan.adjustments ==> f'(r) == f(r)
      ensures b == x.batchId || r in plan.adjustments ==> f(r) == 0
    {
      RunAdjustmentPoint(s, x, plan, s', b, w, r);
    }
    forall i | 0 <= i < |vs| ensures f'(plan.adjustments[i]) == if b == x.batchId then vs[i] else 0 {
      RunAdjustmentPoint(s, x, plan, s', b, w, plan.adjustments[i]);
    }
    GainTotal(s.adjustments.Keys, plan.adjustments, f, f', b == x.batchId, vs);
  }

  lemma {:induction false} TotalOfOnes(n: nat)
    ensures Total(seq(n, i => 1)) == n
  {
    if n > 0 {
      TotalOfOnes(n - 1);
      assert seq(n, i => 1)[..n - 1] == seq(n - 1, i => 1);
    }
  }

  lemma RunItemTotals(s: State, x: RunCommand, plan: Plan, s': State, b: Id)
    requires PlanItemsOk(s, x, plan) && RunDelta(s, x, plan, s') && ItemsOk(s)
    ensures var own := b == x.batchId;
            && ItemTotal(s', b, GrossOfItem) == (if own then plan.paymentGross else ItemTotal(s, b, GrossOfItem))
            && ItemTotal(s', b, FeeOfItem) == (if own then plan.fee else ItemTotal(s, b, FeeOfItem))
            && ItemTotal(s', b, OneItem) == (if own then |plan.items| else ItemTotal(s, b, OneItem))
  {
    forall i | 0 <= i < |plan.items| ensures plan.items[i] in plan.items {}
    RunItemTotal(s, x, plan, s', b, GrossOfItem, Grosses(s, plan.items));
    RunItemTotal(s, x, plan, s', b, FeeOfItem, Fees(Grosses(s, plan.items), x.currency));
    RunItemTotal(s, x, plan, s', b, OneItem, seq(|plan.items|, i => 1));
    TotalOfOnes(|plan.items|);
  }

  lemma RunAdjustmentTotals(s: State, x: RunCommand, plan: Plan, s': State, b: Id)
    requires PlanAdjustmentsOk(s, x, plan) && RunDelta(s, x, plan, s') && AdjustmentsOk(s)
    ensures var own := b == x.batchId;
            && AdjustmentTotal(s', b, AmountOfAdjustment) == (if own then plan.adjustmentMinor else AdjustmentTotal(s, b, AmountOfAdjustment))
            && AdjustmentTotal(s', b, OneAdjustment) == (if own then |plan.adjustments| else AdjustmentTotal(s, b, OneAdjustment))
  {
    forall i | 0 <= i < |plan.adjustments| ensures plan.adjustments[i] in Range(plan.adjustments) {}
    RunAdjustmentTotal(s, x, plan, s', b, AmountOfAdjustment, AdjustmentAmounts(s, plan.adjustments));
    RunAdjustmentTotal(s, x, plan, s', b, OneAdjustment, seq(|plan.adjustments|, i => 1));
    TotalOfOnes(|plan.adjustments|);
  }

  lemma RunKeepsBatches(s: State, x: RunCommand, plan: Plan, s': State, b: Id)
    requires PlanOk(s, x, plan) && RunDelta(s, x, plan, s') && ItemsOk(s) && AdjustmentsOk(s)
    requires BatchAddsUp(s, b)
    ensures BatchAddsUp(s', b)
  {
    RunItemTotals(s, x, plan, s', b);
    RunAdjustmentTotals(s, x, plan, s', b);
  }

  // ----- refunds -----

  ghost function RefundAt(s: State, p: Id, r: Id): int {
    if r in s.refunds && s.refunds[r].payment == p then s.refunds[r].amount else 0
  }

  /** The refund rows of a payment. */
  ghost function RefundTotal(s: State, p: Id): int {
    Sum(s.refunds.Keys, (r: Id) => RefundAt(s, p, r))
  }

  ghost function EventAt(s: State, p: Id, limit: int, e: Id): int {
    if IsRefund(s, e) && s.outbox[e].payment == p && s.outbox[e].cumulative <= limit then s.outbox[e].amount else 0
  }

  /** The refund events of a payment up to a cumulative amount. */
  ghost function EventTotal(s: State, p: Id, limit: int): int {
    Sum(s.outbox.Keys, (e: Id) => EventAt(s, p, limit, e))
  }

  /** A payment's refunded amount is the sum of its refund rows and of its refund events. */
  ghost predicate PaymentAddsUp(s: State, p: Id) {
    p in s.payments ==>
      RefundTotal(s, p) == s.payments[p].refunded && EventTotal(s, p, s.payments[p].refunded) == s.payments[p].refunded
  }

  /** The cumulative amount of a refund event is the sum of the refunds up to and including it. */
  ghost predicate CumulativeIsPrefixSum(s: State, e: Id) {
    IsRefund(s, e) ==> EventTotal(s, s.outbox[e].payment, s.outbox[e].cumulative) == s.outbox[e].cumulative
  }

  ghost predicate RefundsAddUp(s: State) {
    (forall p :: PaymentAddsUp(s, p)) && (forall e :: CumulativeIsPrefixSum(s, e))
  }

  /** An event that is not a refund changes no refund sum. */
  lemma EventTotalKept(s: State, s': State, p: Id, limit: int)
    requires Extends(s.outbox, s'.outbox)
    requires forall e | e in s'.outbox && e !in s.outbox :: EventAt(s', p, limit, e) == 0
    ensures EventTotal(s', p, limit) == EventTotal(s, p, limit)
  {
    var f, f' := (e: Id) => EventAt(s, p, limit, e), (e: Id) => EventAt(s', p, limit, e);
    var added := s'.outbox.Keys - s.outbox.Keys;
    SumUnion(s.outbox.Keys, added, f');
    assert s.outbox.Keys + added == s'.outbox.Keys;
    SumCong(s.outbox.Keys, f, f');
    SumZero(added, f');
  }

  lemma NoRefundKeeps(s: State, s': State)
    requires RefundsAddUp(s) && s'.refunds == s.refunds && Extends(s.outbox, s'.outbox)
    requires forall e | e in s'.outbox && e !in s.outbox :: !s'.outbox[e].PaymentRefunded?
    requires forall p | p in s'.payments :: (p in s.payments && s'.payments[p].refunded == s.payments[p].refunded)
                                          || (p !in s.payments && s'.payments[p].refunded == 0)
    requires RefundsOk(s) && EventsOk(s)
    ensures RefundsAddUp(s')
  {
    forall p ensures PaymentAddsUp(s', p) {
      assert PaymentAddsUp(s, p);
      if p in s'.payments {
        SumCong(s.refunds.Keys, (r: Id) => RefundAt(s, p, r), (r: Id) => RefundAt(s', p, r));
        EventTotalKept(s, s', p, s'.payments[p].refunded);
        if p !in s.payments { NewPaymentHasNoRefunds(s, p); }
      }
    }
    forall e ensures CumulativeIsPrefixSum(s', e) {
      assert CumulativeIsPrefixSum(s, e);
      if IsRefund(s', e) { EventTotalKept(s, s', s'.outbox[e].payment, s'.outbox[e].cumulative); }
    }
  }

  lemma NewPaymentHasNoRefunds(s: State, p: Id)
    requires p !in s.payments && RefundsOk(s) && EventsOk(s)
    ensures RefundTotal(s, p) == 0 && EventTotal(s, p, 0) == 0
  {
    forall r | r in s.refunds ensures RefundAt(s, p, r) == 0 { assert RefundOk(s, r); }
    forall e | e in s.outbox ensures EventAt(s, p, 0, e) == 0 { assert EventRow(s, e); }
    SumZero(s.refunds.Keys, (r: Id) => RefundAt(s, p, r));
    SumZero(s.outbox.Keys, (e: Id) => EventAt(s, p, 0, e));
  }

  lemma RefundAddsEvent(s: State, x: RefundCommand, s': State, p: Id, limit: int)
    requires RefundDelta(s, x, s')
    ensures EventTotal(s', p, limit) == EventTotal(s, p, limit) + EventAt(s', p, limit, x.eventId)
  {
    forall y | y in s.outbox ensures EventAt(s', p, limit, y) == EventAt(s, p, limit, y) {}
    SumPointwise(s.outbox.Keys, s'.outbox.Keys, (e: Id) => EventAt(s, p, limit, e), (e: Id) => EventAt(s', p, limit, e), x.eventId);
  }

  /** Raising the limit past every refund of the payment counts nothing more. */
  lemma EventLimit(s: State, p: Id, low: int, high: int)
    requires EventsOk(s) && p in s.payments && s.payments[p].refunded <= low <= high
    ensures EventTotal(s, p, high) == EventTotal(s, p, low)
  {
    forall e | e in s.outbox ensures EventAt(s, p, high, e) == EventAt(s, p, low, e) { assert EventRow(s, e); }
    SumCong(s.outbox.Keys, (e: Id) => EventAt(s, p, high, e), (e: Id) => EventAt(s, p, low, e));
  }

  lemma RefundKeepsPayment(s: State, x: RefundCommand, s': State, p: Id)
    requires RefundDelta(s, x, s') && x.amount > 0 && EventsOk(s) && PaymentAddsUp(s, p)
    ensures PaymentAddsUp(s', p)
  {
    if p in s.payments {
      forall r | r in s.refunds ensures RefundAt(s', p, r) == RefundAt(s, p, r) {}
      SumPointwise(s.refunds.Keys, s'.refunds.Keys, (r: Id) => RefundAt(s, p, r), (r: Id) => RefundAt(s', p, r), x.refundId);
      RefundAddsEvent(s, x, s', p, s'.payments[p].refunded);
      EventLimit(s, p, s.payments[p].refunded, s'.payments[p].refunded);
    }
  }

  lemma RefundKeepsRefunds(s: State, x: RefundCommand, s': State)
    requires RefundDelta(s, x, s') && EventsOk(s) && RefundsAddUp(s)
    ensures RefundsAddUp(s')
  {
    forall p ensures PaymentAddsUp(s', p) {
      assert PaymentAddsUp(s, p);
      RefundKeepsPayment(s, x, s', p);
    }
    forall e ensures CumulativeIsPrefixSum(s', e) {
      assert CumulativeIsPrefixSum(s, e) && EventRow(s, e);
      if e == x.eventId {
        assert PaymentAddsUp(s', x.paymentId);
      } else if IsRefund(s, e) {
        RefundAddsEvent(s, x, s', s.outbox[e].payment, s.outbox[e].cumulative);
      }
    }
  }

  // ----- every run of the system -----

  /** The refunded amount an item was settled with is the sum of the refunds the item contains. */
  ghost predicate ItemIsPrefixSum(s: State, p: Id) {
    p in s.items ==> EventTotal(s, p, s.items[p].refunded) == s.items[p].refunded
  }

  ghost predicate EvidenceOk(s: State) {
    (forall b :: BatchAddsUp(s, b)) && RefundsAddUp(s) && forall p :: ItemIsPrefixSum(s, p)
  }

  /** Items stay or are new with the payment's own refunded amount, and no refund is emitted. */
  lemma NoRefundKeepsItems(s: State, s': State)
    requires (forall p :: ItemIsPrefixSum(s, p)) && (forall p :: PaymentAddsUp(s, p)) && Extends(s.outbox, s'.outbox)
    requires forall e | e in s'.outbox && e !in s.outbox :: !s'.outbox[e].PaymentRefunded?
    requires forall p | p in s'.items :: if p in s.items then s'.items[p] == s.items[p]
                                       else p in s.payments && s'.items[p].refunded == s.payments[p].refunded
    ensures forall p :: ItemIsPrefixSum(s', p)
  {
    forall p ensures ItemIsPrefixSum(s', p) {
      assert ItemIsPrefixSum(s, p) && PaymentAddsUp(s, p);
      if p in s'.items { EventTotalKept(s, s', p, s'.items[p].refunded); }
    }
  }

  lemma RefundKeepsItems(s: State, x: RefundCommand, s': State)
    requires RefundDelta(s, x, s') && x.amount > 0 && ItemsOk(s) && forall p :: ItemIsPrefixSum(s, p)
    ensures forall p :: ItemIsPrefixSum(s', p)
  {
    forall p ensures ItemIsPrefixSum(s', p) {
      assert ItemIsPrefixSum(s, p) && ItemOk(s, p);
      if p in s.items { RefundAddsEvent(s, x, s', p, s.items[p].refunded); }
    }
  }

  lemma RunKeepsEvidence(s: State, x: RunCommand, plan: Plan, s': State)
    requires PlanOk(s, x, plan) && RunDelta(s, x, plan, s') && EvidenceOk(s)
    requires RefundsOk(s) && EventsOk(s) && ItemsOk(s) && AdjustmentsOk(s)
    ensures EvidenceOk(s')
  {
    forall b ensures BatchAddsUp(s', b) { assert BatchAddsUp(s, b); RunKeepsBatches(s, x, plan, s', b); }
    NoRefundKeeps(s, s');
    NoRefundKeepsItems(s, s');
  }

  lemma SettleKeepsEvidence(s: State, x: RunCommand, locked: set<Id>, rows: seq<Id>, adjustmentRows: seq<Id>)
    requires RowsOk(s) && EvidenceOk(s) && Selected(s, x, locked, rows, adjustmentRows)
    requires RunTx(s, x, rows, adjustmentRows).Ok?
    ensures EvidenceOk(RunTx(s, x, rows, adjustmentRows).value)
  {
    var plan := PlanRun(s, x, rows, adjustmentRows).value;
    if plan.Noop() {
      PlainStepKeepsEvidence(s, RunTx(s, x, rows, adjustmentRows).value);
    } else {
      PlanIsOk(s, x, locked, rows, adjustmentRows);
      SettlePlanEffect(s, x, plan);
      RunKeepsEvidence(s, x, plan, SettlePlan(s, x, plan).value);
    }
  }

  /** Steps that settle nothing and refund nothing. */
  lemma PlainStepKeepsEvidence(s: State, s': State)
    requires RefundsOk(s) && EventsOk(s) && EvidenceOk(s)
    requires s'.items == s.items && s'.batches == s.batches && s'.refunds == s.refunds && Extends(s.outbox, s'.outbox)
    requires s.adjustments.Keys <= s'.adjustments.Keys
    requires forall r | r in s.adjustments :: s'.adjustments[r] == s.adjustments[r]
    requires forall r | r in s'.adjustments && r !in s.adjustments :: s'.adjustments[r].status == Pending
    requires forall e | e in s'.outbox && e !in s.outbox :: !s'.outbox[e].PaymentRefunded?
    requires forall p | p in s'.payments :: (p in s.payments && s'.payments[p].refunded == s.payments[p].refunded)
                                          || (p !in s.payments && s'.payments[p].refunded == 0)
    ensures EvidenceOk(s')
  {
    forall b ensures BatchAddsUp(s', b) { assert BatchAddsUp(s, b); UnsettledKeeps(s, s', b); }
    NoRefundKeeps(s, s');
    NoRefundKeepsItems(s, s');
  }

  lemma CaptureKeepsEvidence(s: State, x: CaptureCommand, s': State)
    requires CaptureDelta(s, x, s') && RefundsOk(s) && EventsOk(s) && EvidenceOk(s)
    ensures EvidenceOk(s')
  {
    PlainStepKeepsEvidence(s, s');
  }

  lemma RefundKeepsEvidence(s: State, x: RefundCommand, s': State)
    requires RefundDelta(s, x, s') && EventsOk(s) && ItemsOk(s) && EvidenceOk(s)
    ensures EvidenceOk(s')
  {
    forall b ensures BatchAddsUp(s', b) { assert BatchAddsUp(s, b); UnsettledKeeps(s, s', b); }
    RefundKeepsRefunds(s, x, s');
    RefundKeepsItems(s, x, s');
  }

  lemma DeliverKeepsEvidence(s: State, e: Id)
    requires RowsOk(s) && EvidenceOk(s) && ProjectTx(s, e).Ok?
    ensures EvidenceOk(ProjectTx(s, e).value)
  {
    ProjectionAlwaysCommits(s, e);
    if e !in s.inbox { PlainStepKeepsEvidence(s, ProjectTx(s, e).value); }
  }

  lemma ApplyKeepsEvidence(s: State, step: Step)
    requires RowsOk(s) && EvidenceOk(s)
    ensures EvidenceOk(Apply(s, step))
  {
    if Attempt(s, step).Ok? {
      var s' := Apply(s, step);
      match step
      case Provision(_) => PlainStepKeepsEvidence(s, s');
      case Create(x) => PlainStepKeepsEvidence(s, s');
      case Capture(x) =>
        CaptureEffect(s, x);
        CaptureKeepsEvidence(s, x, s');
      case Refund(x) =>
        RefundEffect(s, x);
        RefundKeepsEvidence(s, x, s');
      case Deliver(e) => DeliverKeepsEvidence(s, e);
      case Settle(x, locked, rows, adjustmentRows) => SettleKeepsEvidence(s, x, locked, rows, adjustmentRows);
    }
  }

  lemma {:induction false} EvidenceAlwaysAddsUp(steps: seq<Step>)
    ensures EvidenceOk(Execute(steps))
  {
    if steps != [] {
      var n := |steps| - 1;
      EvidenceAlwaysAddsUp(steps[..n]);
      ExecutionKeepsRows(steps[..n]);
      ApplyKeepsEvidence(Execute(steps[..n]), steps[n]);
    }
  }
}
