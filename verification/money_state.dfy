/** The money tables and, as functions from tables to tables, every database transaction that changes them. */
module MoneyState {
  import opened Basics
  import opened Sums
  import opened SettlementPolicy
  import Ledger

  datatype Status = Created | Captured | PartiallyRefunded | Refunded

  datatype Payment = Payment(
    merchant: Id, externalRef: string, currency: Currency, amount: int,
    captured: int, refunded: int, status: Status, availableAt: Option<int>, version: nat)

  datatype RefundRow = RefundRow(payment: Id, merchant: Id, externalRef: string, currency: Currency, amount: int)

  /** The domain events written to the outbox; the event identifier is the key of the table. */
  datatype Event =
    | PaymentCreated(payment: Id, merchant: Id, currency: Currency, amount: int)
    | PaymentCaptured(payment: Id, merchant: Id, currency: Currency, amount: int, availableOn: int)
    | PaymentRefunded(payment: Id, merchant: Id, currency: Currency, amount: int, refund: Id, cumulative: int, occurredAt: int)
    | SettlementFinalized(batch: Id, merchant: Id, currency: Currency, gross: int, fee: int, net: int, itemCount: int)

  datatype Position = Position(merchant: Id, currency: Currency, captured: int, refunded: int, availableAt: int)

  datatype Item = Item(
    batch: Id, merchant: Id, currency: Currency, captured: int, refunded: int, gross: int, fee: int, net: int)

  datatype AdjustmentStatus = Pending | Settled(batch: Id)

  datatype Adjustment = Adjustment(
    merchant: Id, currency: Currency, payment: Id, amount: int, occurredAt: int, sourceEvent: Id, status: AdjustmentStatus)

  datatype Batch = Batch(
    merchant: Id, currency: Currency, paymentGross: int, adjustmentMinor: int,
    gross: int, fee: int, net: int, itemCount: nat, adjustmentCount: nat)

  datatype RunRow = RunRow(merchant: Id, currency: Currency, batch: Option<Id>, moreEligible: bool)

  datatype State = State(
    provisioned: set<Id>,
    payments: map<Id, Payment>,
    refunds: map<Id, RefundRow>,
    journal: Ledger.Journal,
    outbox: map<Id, Event>,
    inbox: set<Id>,
    streams: set<(Id, Currency)>,
    positions: map<Id, Position>,
    items: map<Id, Item>,
    adjustments: map<Id, Adjustment>,
    batches: map<Id, Batch>,
    runs: map<Id, RunRow>)

  const EMPTY_STATE := State({}, map[], map[], [], map[], {}, {}, map[], map[], map[], map[], map[])

  datatype Failure =
    // business outcomes stored as problem responses
    | ExternalReferenceConflict | PaymentIntentNotFound | CurrencyMismatch | CaptureAmountMismatch
    | PaymentIntentNotCapturable | PaymentIntentNotRefundable | RefundAmountExceedsAvailable
    | RefundExternalReferenceConflict
    // identifier collisions, retried with fresh identifiers
    | PaymentIdentifierCollision | RefundIdentifierCollision | EventIdentifierCollision
    | BatchIdentifierCollision | RunIdentifierCollision | IdentifierGenerationExhausted
    // failures of the postings and of the guarded updates
    | LedgerFailure(error: Ledger.Error) | PaymentProjectionInvariant
    | EventNotEmitted | UnsupportedEvent | ProjectionIdentityMismatch | RefundProjectionConflict | UniqueAdjustment
    | SettlementFeeExceedsGross | SettlementInvariantViolation | UniqueItem | InvalidSelection

  // ----- payments -----

  /** Addition of JavaScript numbers: exact up to 2^53, above it rounded to the nearest even double. */
  function NumberAdd(a: int, b: int): int {
    var n := a + b;
    if n <= MAX_SAFE_INTEGER + 1 then n
    else if n % 2 == 0 then n
    else if (n - 1) % 4 == 0 then n - 1
    else n + 1
  }

  datatype CreateCommand = CreateCommand(
    merchant: Id, externalRef: string, amount: Amount, currency: Currency, paymentId: Id, eventId: Id)

  function CreateTx(s: State, c: CreateCommand): Result<State, Failure> {
    if c.paymentId in s.payments then Err(PaymentIdentifierCollision)
    else if exists p | p in s.payments :: s.payments[p].merchant == c.merchant && s.payments[p].externalRef == c.externalRef
    then Err(ExternalReferenceConflict)
    else if c.eventId in s.outbox then Err(EventIdentifierCollision)
    else
      Ok(s.(payments := s.payments[c.paymentId :=
                Payment(c.merchant, c.externalRef, c.currency, c.amount, 0, 0, Created, None, 1)],
            outbox := s.outbox[c.eventId := PaymentCreated(c.paymentId, c.merchant, c.currency, c.amount)]))
  }

  datatype CaptureCommand = CaptureCommand(
    merchant: Id, paymentId: Id, amount: int, currency: Currency, ledgerId: Id, eventId: Id, time: int)

  /** The row a merchant may lock by public identifier. */
  function LockByPublicId(s: State, merchant: Id, paymentId: Id): Option<Payment> {
    if paymentId in s.payments && s.payments[paymentId].merchant == merchant then Some(s.payments[paymentId]) else None
  }

  function CaptureError(payment: Option<Payment>, c: CaptureCommand): Option<Failure> {
    if payment.None? then Some(PaymentIntentNotFound)
    else if payment.value.currency != c.currency then Some(CurrencyMismatch)
    else if payment.value.status != Created then Some(PaymentIntentNotCapturable)
    else if payment.value.amount != c.amount then Some(CaptureAmountMismatch)
    else None
  }

  /** The guarded update of a capture; the row must still be untouched. */
  function CaptureRow(p: Payment, time: int): Result<Payment, Failure> {
    if p.captured != 0 || p.refunded != 0 || p.status != Created then Err(PaymentProjectionInvariant) else
    Ok(p.(captured := p.amount, status := Captured, availableAt := Some(time), version := p.version + 1))
  }

  function Post(s: State, p: Ledger.Posting): Result<State, Failure> {
    match Ledger.CreatePosting(s.journal, s.provisioned, p)
    case Err(e) => Err(LedgerFailure(e))
    case Ok(j) => Ok(s.(journal := j))
  }

  function CaptureTx(s: State, c: CaptureCommand): Result<State, Failure> {
    var locked := LockByPublicId(s, c.merchant, c.paymentId);
    var error := CaptureError(locked, c);
    if error.Some? then Err(error.value) else
    match Ledger.BuildCaptureEntries(c.amount, locked.value.currency)
    case Err(e) => Err(LedgerFailure(e))
    case Ok(entries) =>
      match Post(s, Ledger.Posting(c.ledgerId, c.merchant, locked.value.currency, Ledger.Capture, c.paymentId, entries, None))
      case Err(e) => Err(e)
      case Ok(posted) =>
        match CaptureRow(locked.value, c.time)
        case Err(e) => Err(e)
        case Ok(row) =>
          if c.eventId in s.outbox then Err(EventIdentifierCollision) else
          Ok(posted.(payments := s.payments[c.paymentId := row],
                     outbox := s.outbox[c.eventId :=
                       PaymentCaptured(c.paymentId, c.merchant, row.currency, row.captured, c.time)]))
  }

  datatype RefundCommand = RefundCommand(
    merchant: Id, paymentId: Id, externalRef: string, amount: int, currency: Currency,
    refundId: Id, ledgerId: Id, eventId: Id, time: int)

  function RefundError(payment: Option<Payment>, c: RefundCommand): Option<Failure> {
    if payment.None? then Some(PaymentIntentNotFound)
    else if payment.value.currency != c.currency then Some(CurrencyMismatch)
    else if payment.value.status != Captured && payment.value.status != PartiallyRefunded then Some(PaymentIntentNotRefundable)
    else if c.amount > payment.value.captured - payment.value.refunded then Some(RefundAmountExceedsAvailable)
    else None
  }

  /** The guarded update of a refund: the amount is incremented exactly in the table,
      the status is decided by number addition in the service. */
  function RefundRowUpdate(p: Payment, amount: int): Result<Payment, Failure> {
    if p.status != Captured && p.status != PartiallyRefunded then Err(PaymentProjectionInvariant) else
    var total := NumberAdd(p.refunded, amount);
    Ok(p.(refunded := p.refunded + amount,
          status := if total == p.captured then Refunded else PartiallyRefunded,
          version := p.version + 1))
  }

  function RefundTx(s: State, c: RefundCommand): Result<State, Failure> {
    var locked := LockByPublicId(s, c.merchant, c.paymentId);
    var error := RefundError(locked, c);
    if error.Some? then Err(error.value)
    else if c.refundId in s.refunds then Err(RefundIdentifierCollision)
    else if exists r | r in s.refunds :: s.refunds[r].merchant == c.merchant && s.refunds[r].externalRef == c.externalRef
    then Err(RefundExternalReferenceConflict)
    else
      match Ledger.BuildRefundEntries(c.amount, locked.value.currency)
      case Err(e) => Err(LedgerFailure(e))
      case Ok(entries) =>
        match Post(s, Ledger.Posting(c.ledgerId, c.merchant, locked.value.currency, Ledger.Refund, c.refundId, entries, None))
        case Err(e) => Err(e)
        case Ok(posted) =>
          match RefundRowUpdate(locked.value, c.amount)
          case Err(e) => Err(e)
          case Ok(row) =>
            if c.eventId in s.outbox then Err(EventIdentifierCollision) else
            Ok(posted.(refunds := s.refunds[c.refundId :=
                         RefundRow(c.paymentId, c.merchant, c.externalRef, row.currency, c.amount)],
                       payments := s.payments[c.paymentId := row],
                       outbox := s.outbox[c.eventId :=
                         PaymentRefunded(c.paymentId, c.merchant, row.currency, c.amount, c.refundId, row.refunded, c.time)]))
  }

  // ----- the asynchronous projection -----

  /** The payment's own facts for an event, if the event names a payment (and refund) of the merchant. */
  function ReadIdentity(s: State, e: Event): Option<Payment>
    requires e.PaymentCaptured? || e.PaymentRefunded?
  {
    if !(e.payment in s.payments && s.payments[e.payment].merchant == e.merchant) then None
    else if e.PaymentRefunded?
         && !(e.refund in s.refunds && s.refunds[e.refund].merchant == e.merchant && s.refunds[e.refund].payment == e.payment)
    then None
    else Some(s.payments[e.payment])
  }

  function Max(a: int, b: int): int {
    if a >= b then a else b
  }

  function ProjectLifecycle(s: State, eventId: Id, e: Event, identity: Payment): Result<State, Failure>
    requires e.PaymentCaptured? || e.PaymentRefunded?
  {
    if e.PaymentCaptured? then
      Ok(s.(streams := s.streams + {(e.merchant, e.currency)},
            positions := s.positions[e.payment :=
              if e.payment in s.positions then
                s.positions[e.payment].(availableAt := e.availableOn, captured := e.amount)
              else Position(e.merchant, e.currency, e.amount, identity.refunded, e.availableOn)]))
    else if e.payment !in s.positions then Ok(s)
    else
      var position := s.positions[e.payment];
      if position.merchant != e.merchant || position.currency != e.currency then Err(RefundProjectionConflict) else
      var updated := s.(positions := s.positions[e.payment := position.(refunded := Max(position.refunded, e.cumulative))]);
      if e.payment !in s.items || e.cumulative <= s.items[e.payment].refunded then Ok(updated)
      else if e.refund in s.adjustments then Err(UniqueAdjustment)
      else Ok(updated.(adjustments := s.adjustments[e.refund :=
                Adjustment(e.merchant, e.currency, e.payment, e.amount, e.occurredAt, eventId, Pending)]))
  }

  /** One delivery of an emitted event to the settlement projection, in one transaction with its inbox row.
      Deliveries may be delayed, repeated and reordered at will. */
  function ProjectTx(s: State, eventId: Id): Result<State, Failure> {
    if eventId !in s.outbox then Err(EventNotEmitted) else
    var e := s.outbox[eventId];
    if !e.PaymentCaptured? && !e.PaymentRefunded? then Err(UnsupportedEvent)
    else if eventId in s.inbox then Ok(s)
    else
      var identity := ReadIdentity(s, e);
      if identity.None? || identity.value.currency != e.currency then Err(ProjectionIdentityMismatch) else
      match ProjectLifecycle(s, eventId, e, identity.value)
      case Err(f) => Err(f)
      case Ok(s') => Ok(s'.(inbox := s.inbox + {eventId}))
  }

  // ----- settlement runs -----

  const PAGE: nat := 500

  /** A position the candidate query selects: open, available before the cutoff and not in any batch. */
  predicate EligiblePosition(s: State, merchant: Id, currency: Currency, cutoff: int, p: Id) {
    && p in s.positions && s.positions[p].merchant == merchant && s.positions[p].currency == currency
    && s.positions[p].availableAt < cutoff
    && s.positions[p].captured > s.positions[p].refunded
    && p !in s.items
  }

  /** ORDER BY available_at, payment_intent_id. */
  predicate PositionBefore(s: State, a: Id, b: Id)
    requires a in s.positions && b in s.positions
  {
    var x, y := s.positions[a].availableAt, s.positions[b].availableAt;
    x < y || (x == y && a < b)
  }

  /** The result of the candidate query with LIMIT 501 and SKIP LOCKED: `locked` holds the positions
      other transactions keep locked, which the query passes over. */
  ghost predicate CandidateRows(s: State, merchant: Id, currency: Currency, cutoff: int, locked: set<Id>, rows: seq<Id>) {
    && |rows| <= PAGE + 1
    && (forall i | 0 <= i < |rows| :: EligiblePosition(s, merchant, currency, cutoff, rows[i]) && rows[i] !in locked)
    && (forall i, j | 0 <= i < j < |rows| :: PositionBefore(s, rows[i], rows[j]))
    && (forall p | p in s.positions && EligiblePosition(s, merchant, currency, cutoff, p) && p !in locked && p !in rows ::
          |rows| == PAGE + 1 && forall i | 0 <= i < |rows| :: PositionBefore(s, rows[i], p))
  }

  predicate PendingOf(s: State, merchant: Id, currency: Currency, r: Id) {
    && r in s.adjustments && s.adjustments[r].status == Pending
    && s.adjustments[r].merchant == merchant && s.adjustments[r].currency == currency
  }

  /** ORDER BY occurred_at, id. */
  predicate AdjustmentBefore(s: State, a: Id, b: Id)
    requires a in s.adjustments && b in s.adjustments
  {
    var x, y := s.adjustments[a].occurredAt, s.adjustments[b].occurredAt;
    x < y || (x == y && a < b)
  }

  /** The result of the pending-adjustment query with LIMIT 501; it waits for locks instead of skipping them. */
  ghost predicate AdjustmentRows(s: State, merchant: Id, currency: Currency, rows: seq<Id>) {
    && |rows| <= PAGE + 1
    && (forall i | 0 <= i < |rows| :: PendingOf(s, merchant, currency, rows[i]))
    && (forall i, j | 0 <= i < j < |rows| :: AdjustmentBefore(s, rows[i], rows[j]))
    && (forall r | r in s.adjustments && PendingOf(s, merchant, currency, r) && r !in rows ::
          |rows| == PAGE + 1 && forall i | 0 <= i < |rows| :: AdjustmentBefore(s, rows[i], r))
  }

  function Page(rows: seq<Id>): seq<Id> {
    if |rows| <= PAGE then rows else rows[..PAGE]
  }

  /** The authoritative re-check of a candidate against its locked payment row. */
  predicate StillEligible(s: State, currency: Currency, cutoff: int, p: Id)
    requires p in s.payments
  {
    var f := s.payments[p];
    f.currency == currency && f.availableAt.Some? && f.availableAt.value < cutoff && f.captured > f.refunded
  }

  function LiveCandidates(s: State, currency: Currency, cutoff: int, rows: seq<Id>): (r: seq<Id>)
    requires forall p | p in rows :: p in s.payments
    ensures forall p | p in r :: p in rows && StillEligible(s, currency, cutoff, p)
  {
    if rows == [] then [] else
    var n := |rows| - 1;
    LiveCandidates(s, currency, cutoff, rows[..n]) + (if StillEligible(s, currency, cutoff, rows[n]) then [rows[n]] else [])
  }

  function Gross(p: Payment): int {
    p.captured - p.refunded
  }

  predicate Open(s: State, ps: seq<Id>) {
    forall p | p in ps :: p in s.payments && Gross(s.payments[p]) > 0
  }

  function Grosses(s: State, ps: seq<Id>): (r: seq<Positive>)
    requires Open(s, ps)
    ensures |r| == |ps|
  {
    seq(|ps|, i requires 0 <= i < |ps| => Gross(s.payments[ps[i]]))
  }

  function AdjustmentAmounts(s: State, rs: seq<Id>): (r: seq<int>)
    requires forall a | a in rs :: a in s.adjustments
    ensures |r| == |rs|
  {
    seq(|rs|, i requires 0 <= i < |rs| => s.adjustments[rs[i]].amount)
  }

  datatype RunCommand = RunCommand(
    merchant: Id, currency: Currency, cutoff: int, runId: Id, batchId: Id, ledgerId: Id, eventId: Id)

  function MakeItem(p: Payment, batch: Id, currency: Currency): Item
    requires Gross(p) > 0
  {
    var gross := Gross(p);
    var fee := Fee(gross, currency);
    Item(batch, p.merchant, currency, p.captured, p.refunded, gross, fee, gross - fee)
  }

  /** The decision of a run before anything is written. */
  datatype Plan = Plan(items: seq<Id>, live: nat, adjustments: seq<Id>, paymentGross: int, fee: int, adjustmentMinor: int,
                       moreCandidates: bool, moreAdjustments: bool)
  {
    predicate Noop() { items == [] || paymentGross - adjustmentMinor <= fee }
    function Gross(): int { paymentGross - adjustmentMinor }
    function Net(): int { Gross() - fee }
    function MoreEligible(): bool {
      if Noop() then items != [] || adjustments != [] || moreCandidates || moreAdjustments
      else moreCandidates || moreAdjustments || |items| < live
    }
  }

  function PlanRun(s: State, c: RunCommand, rows: seq<Id>, adjustmentRows: seq<Id>): (r: Result<Plan, Failure>)
    requires forall a | a in adjustmentRows :: a in s.adjustments
    ensures r.Ok? ==> Open(s, r.value.items)
  {
    var candidates := Page(rows);
    if exists i | 0 <= i < |candidates| :: LockByPublicId(s, c.merchant, candidates[i]).None? then Err(SettlementInvariantViolation) else
    var live := LiveCandidates(s, c.currency, c.cutoff, candidates);
    match BoundedCount(Grosses(s, live), c.currency)
    case Err(_) => Err(SettlementFeeExceedsGross)
    case Ok(n) =>
      var taken := live[..n];
      var adjustments := Page(adjustmentRows);
      var adjustmentMinor := Total(AdjustmentAmounts(s, adjustments));
      if adjustmentMinor > MAX_SAFE_INTEGER then Err(SettlementInvariantViolation) else
      Ok(Plan(taken, |live|, adjustments, Total(Grosses(s, taken)), Total(Fees(Grosses(s, taken), c.currency)),
              adjustmentMinor, |rows| > PAGE, |adjustmentRows| > PAGE))
  }

  /** Writes batch, items, adjustments and run, and finalizes them in the same transaction. */
  function Persist(s: State, c: RunCommand, plan: Plan): Result<State, Failure>
    requires Open(s, plan.items)
  {
    if c.batchId in s.batches then Err(BatchIdentifierCollision)
    else if exists i | 0 <= i < |plan.items| :: plan.items[i] in s.items then Err(UniqueItem)
    else
      Ok(s.(batches := s.batches[c.batchId :=
                         Batch(c.merchant, c.currency, plan.paymentGross, plan.adjustmentMinor, plan.Gross(), plan.fee,
                               plan.Net(), |plan.items|, |plan.adjustments|)],
            items := s.items + map p | p in plan.items :: MakeItem(s.payments[p], c.batchId, c.currency),
            adjustments := map r | r in s.adjustments ::
              if r in plan.adjustments then s.adjustments[r].(status := Settled(c.batchId)) else s.adjustments[r]))
  }

  /** Posts and persists a plan that settles something. */
  function SettlePlan(s: State, c: RunCommand, plan: Plan): Result<State, Failure>
    requires Open(s, plan.items)
  {
    match Ledger.BuildSettlementEntries(plan.Gross(), plan.fee, plan.Net(), c.currency)
    case Err(e) => Err(LedgerFailure(e))
    case Ok(entries) =>
      match Post(s, Ledger.Posting(c.ledgerId, c.merchant, c.currency, Ledger.Settlement, c.batchId, entries, None))
      case Err(e) => Err(e)
      case Ok(posted) =>
        match Persist(posted, c, plan)
        case Err(e) => Err(e)
        case Ok(written) =>
          if c.eventId in s.outbox then Err(EventIdentifierCollision) else
          Ok(written.(runs := s.runs[c.runId := RunRow(c.merchant, c.currency, Some(c.batchId), plan.MoreEligible())],
                      outbox := s.outbox[c.eventId := SettlementFinalized(c.batchId, c.merchant, c.currency,
                        plan.Gross(), plan.fee, plan.Net(), |plan.items|)]))
  }

  function RunTx(s: State, c: RunCommand, rows: seq<Id>, adjustmentRows: seq<Id>): Result<State, Failure>
    requires forall a | a in adjustmentRows :: a in s.adjustments
  {
    match PlanRun(s, c, rows, adjustmentRows)
    case Err(e) => Err(e)
    case Ok(plan) =>
      if c.runId in s.runs then Err(RunIdentifierCollision)
      else if plan.Noop() then
        Ok(s.(runs := s.runs[c.runId := RunRow(c.merchant, c.currency, None, plan.MoreEligible())]))
      else SettlePlan(s, c, plan)
  }

  // ----- runs of the whole system -----

  datatype Step =
    | Provision(merchant: Id)
    | Create(create: CreateCommand)
    | Capture(capture: CaptureCommand)
    | Refund(refund: RefundCommand)
    | Deliver(event: Id)
    | Settle(run: RunCommand, locked: set<Id>, rows: seq<Id>, adjustmentRows: seq<Id>)

  ghost function Attempt(s: State, step: Step): Result<State, Failure> {
    match step
    case Provision(m) => Ok(s.(provisioned := s.provisioned + {m}))
    case Create(c) => CreateTx(s, c)
    case Capture(c) => CaptureTx(s, c)
    case Refund(c) => RefundTx(s, c)
    case Deliver(e) => ProjectTx(s, e)
    case Settle(c, locked, rows, adjustmentRows) =>
      if CandidateRows(s, c.merchant, c.currency, c.cutoff, locked, rows) && AdjustmentRows(s, c.merchant, c.currency, adjustmentRows)
      then RunTx(s, c, rows, adjustmentRows)
      else Err(InvalidSelection)
  }

  /** One transaction: it commits as a whole or leaves the tables as they were. */
  ghost function Apply(s: State, step: Step): State {
    match Attempt(s, step)
    case Ok(s') => s'
    case Err(_) => s
  }

  ghost function Execute(steps: seq<Step>): State {
    if steps == [] then EMPTY_STATE else Apply(Execute(steps[..|steps| - 1]), steps[|steps| - 1])
  }

  lemma LastStep(steps: seq<Step>, later: seq<Step>, n: nat)
    requires |later| == n + 1
    ensures Execute(steps + later) == Apply(Execute(steps + later[..n]), later[n])
  {
    var all := steps + later;
    assert all[..|all| - 1] == steps + later[..n] && all[|all| - 1] == later[n];
  }
}
