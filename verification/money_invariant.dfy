/** What every transaction keeps about the rows of the money tables. Each table-wide rule is a
    quantification of one named row rule, so that proofs instantiate it row by row. */
module MoneyInvariant {
  import opened Basics
  import opened SettlementPolicy
  import opened MoneyState
  import Ledger

  // ----- payments and refunds -----

  /** The status is determined by the amounts. */
  ghost predicate PaymentOk(p: Payment) {
    && 1 <= p.amount <= MAX_SAFE_INTEGER
    && (p.status == Created <==> p.captured == 0)
    && (p.status == Created ==> p.refunded == 0)
    && (p.status != Created ==> p.captured == p.amount)
    && (p.status == Captured ==> p.refunded == 0)
    && (p.status == PartiallyRefunded ==> 0 < p.refunded < p.captured)
    && (p.status == Refunded ==> p.refunded == p.captured)
    && (p.availableAt.Some? <==> p.status != Created)
  }

  ghost predicate PaymentRow(s: State, p: Id) {
    p in s.payments ==> PaymentOk(s.payments[p])
  }

  ghost predicate PaymentsOk(s: State) { forall p :: PaymentRow(s, p) }

  ghost predicate RefundOk(s: State, r: Id) {
    r in s.refunds ==>
      var x := s.refunds[r];
      && x.amount > 0 && x.payment in s.payments
      && s.payments[x.payment].merchant == x.merchant && s.payments[x.payment].currency == x.currency
  }

  ghost predicate RefundsOk(s: State) { forall r :: RefundOk(s, r) }

  // ----- events -----

  ghost predicate IsCapture(s: State, e: Id, p: Id) {
    e in s.outbox && s.outbox[e].PaymentCaptured? && s.outbox[e].payment == p
  }

  ghost predicate IsRefund(s: State, e: Id) {
    e in s.outbox && s.outbox[e].PaymentRefunded?
  }

  /** An event restates the committed row it was written with. */
  ghost predicate EventOk(s: State, v: Event) {
    match v
    case PaymentCreated(_, _, _, _) => true
    case PaymentCaptured(payment, merchant, currency, amount, availableOn) =>
      && payment in s.payments
      && var p := s.payments[payment];
         p.status != Created && p.merchant == merchant && p.currency == currency
         && p.captured == amount && p.availableAt == Some(availableOn)
    case PaymentRefunded(payment, merchant, currency, amount, refund, cumulative, _) =>
      && payment in s.payments && refund in s.refunds
      && var p := s.payments[payment]; var r := s.refunds[refund];
         p.status != Created && p.merchant == merchant && p.currency == currency
         && r.payment == payment && r.merchant == merchant && r.currency == currency && r.amount == amount
         && 0 < amount <= cumulative <= p.refunded
    case SettlementFinalized(_, _, _, gross, fee, net, itemCount) =>
      // the numeric guards of the settlement.finalized contract
      && 1 <= gross <= MAX_SAFE_INTEGER && 1 <= fee <= MAX_SAFE_INTEGER && 1 <= net <= MAX_SAFE_INTEGER
      && gross == fee + net && 1 <= itemCount <= 500
  }

  ghost predicate EventRow(s: State, e: Id) {
    e in s.outbox ==> EventOk(s, s.outbox[e])
  }

  ghost predicate EventsOk(s: State) { forall e :: EventRow(s, e) }

  /** The refunds of a payment occupy disjoint intervals (cumulative - amount, cumulative]. */
  ghost predicate Separate(a: Event, b: Event)
    requires a.PaymentRefunded? && b.PaymentRefunded?
  {
    && a.refund != b.refund
    && (a.payment == b.payment ==> a.cumulative <= b.cumulative - b.amount || b.cumulative <= a.cumulative - a.amount)
  }

  ghost predicate DistinctPair(s: State, e: Id, e': Id) {
    e != e' && e in s.outbox && e' in s.outbox ==>
      && (s.outbox[e].PaymentRefunded? && s.outbox[e'].PaymentRefunded? ==> Separate(s.outbox[e], s.outbox[e']))
      && (s.outbox[e].PaymentCaptured? && s.outbox[e'].PaymentCaptured? ==> s.outbox[e].payment != s.outbox[e'].payment)
  }

  ghost predicate EventsDistinct(s: State) { forall e, e' :: DistinctPair(s, e, e') }

  ghost predicate RefundEventOf(s: State, e: Id, r: Id) {
    IsRefund(s, e) && s.outbox[e].refund == r
  }

  ghost predicate RefundEventUpTo(s: State, e: Id, p: Id, cumulative: int) {
    IsRefund(s, e) && s.outbox[e].payment == p && s.outbox[e].cumulative == cumulative
  }

  /** Every refund row has its event. */
  ghost predicate RefundHasEvent(s: State, r: Id) {
    r in s.refunds ==> exists e :: RefundEventOf(s, e, r)
  }

  /** A captured payment has its event, and the last refund event carries the refunded amount. */
  ghost predicate PaymentHasEvents(s: State, p: Id) {
    p in s.payments ==>
      && (s.payments[p].status != Created ==> exists e :: IsCapture(s, e, p))
      && (s.payments[p].refunded > 0 ==> exists e :: RefundEventUpTo(s, e, p, s.payments[p].refunded))
  }

  ghost predicate EventsExist(s: State) {
    (forall r :: RefundHasEvent(s, r)) && (forall p :: PaymentHasEvents(s, p))
  }

  // ----- projection and settlement -----

  ghost predicate PositionOk(s: State, p: Id) {
    p in s.positions ==>
      && p in s.payments
      && var x := s.payments[p]; var q := s.positions[p];
         x.status != Created && q.merchant == x.merchant && q.currency == x.currency && q.captured == x.captured
         && x.availableAt == Some(q.availableAt) && 0 <= q.refunded <= x.refunded
         && (q.merchant, q.currency) in s.streams
  }

  /** A processed capture has a position and a position comes from a processed capture; a processed
      refund is inside the projected amount of an existing position. */
  ghost predicate InboxRow(s: State, e: Id) {
    && (e in s.inbox ==> e in s.outbox)
    && (e in s.outbox && s.outbox[e].PaymentCaptured? ==> (e in s.inbox <==> s.outbox[e].payment in s.positions))
    && (e in s.outbox && s.outbox[e].PaymentRefunded? && e in s.inbox && s.outbox[e].payment in s.positions ==>
          s.outbox[e].cumulative <= s.positions[s.outbox[e].payment].refunded)
  }

  ghost predicate PositionsOk(s: State) {
    (forall p :: PositionOk(s, p)) && (forall e :: InboxRow(s, e))
  }

  ghost predicate ItemOk(s: State, p: Id) {
    p in s.items ==>
      && p in s.positions && p in s.payments
      && var i := s.items[p];
         && i.batch in s.batches
         && i.merchant == s.batches[i.batch].merchant == s.payments[p].merchant
         && i.currency == s.batches[i.batch].currency == s.payments[p].currency
         && i.captured == s.payments[p].captured && 0 <= i.refunded <= s.payments[p].refunded
         && i.gross == i.captured - i.refunded && 0 < i.fee < i.gross && i.net == i.gross - i.fee
         && i.fee == Fee(i.gross, i.currency)
  }

  /** A refund is wholly inside the refunded amount its payment was settled with, or wholly after it. */
  ghost predicate WhollyInOrOut(s: State, e: Id) {
    IsRefund(s, e) && s.outbox[e].payment in s.items ==>
      var settled := s.items[s.outbox[e].payment].refunded;
      s.outbox[e].cumulative <= settled || settled <= s.outbox[e].cumulative - s.outbox[e].amount
  }

  ghost predicate ItemsOk(s: State) {
    (forall p :: ItemOk(s, p)) && (forall e :: WhollyInOrOut(s, e))
  }

  /** A refund of a batched payment that the item does not contain. */
  ghost predicate PostBatch(s: State, e: Id) {
    IsRefund(s, e) && s.outbox[e].payment in s.items && s.outbox[e].cumulative > s.items[s.outbox[e].payment].refunded
  }

  ghost predicate AdjustmentOk(s: State, r: Id) {
    r in s.adjustments ==>
      var a := s.adjustments[r];
      && r in s.refunds && a.amount > 0
      && (a.status.Settled? ==>
            && a.status.batch in s.batches
            && s.batches[a.status.batch].merchant == a.merchant && s.batches[a.status.batch].currency == a.currency)
  }

  /** The adjustment of a refund exists exactly when the refund came after the batch and was projected,
      and then carries the refund's own amount. */
  ghost predicate AdjustedOnce(s: State, e: Id) {
    IsRefund(s, e) ==>
      var v := s.outbox[e];
      && (v.refund in s.adjustments <==> PostBatch(s, e) && e in s.inbox)
      && (v.refund in s.adjustments ==>
            var a := s.adjustments[v.refund];
            a.payment == v.payment && a.merchant == v.merchant && a.currency == v.currency
            && a.amount == v.amount && a.sourceEvent == e)
  }

  ghost predicate AdjustmentsOk(s: State) {
    (forall r :: AdjustmentOk(s, r)) && (forall e :: AdjustedOnce(s, e))
  }

  ghost predicate BatchOk(s: State, b: Id) {
    b in s.batches ==>
      var x := s.batches[b];
      x.gross == x.paymentGross - x.adjustmentMinor && x.net == x.gross - x.fee && x.fee > 0 && x.net > 0
      && 1 <= x.itemCount <= PAGE && x.adjustmentCount <= PAGE
  }

  ghost predicate BatchesOk(s: State) { forall b :: BatchOk(s, b) }

  /** Every posting belongs to the command whose reference it carries. */
  ghost predicate PostingOwned(s: State, p: Ledger.Posting) {
    match p.business
    case Capture => p.reference in s.payments && s.payments[p.reference].status != Created
    case Refund => p.reference in s.refunds
    case Settlement => p.reference in s.batches
    case Reversal => false
  }

  ghost predicate JournalRowsOk(s: State) {
    && Ledger.JournalOk(s.journal)
    && Ledger.ReversalsOk(s.journal)
    && forall i | 0 <= i < |s.journal| :: PostingOwned(s, s.journal[i])
  }

  ghost predicate RowsOk(s: State) {
    && PaymentsOk(s) && RefundsOk(s) && EventsOk(s) && EventsDistinct(s) && EventsExist(s)
    && PositionsOk(s) && ItemsOk(s) && AdjustmentsOk(s) && JournalRowsOk(s) && BatchesOk(s)
  }

  // ----- how rows may change -----

  ghost predicate Extends<K(!new), V(!new)>(m: map<K, V>, m': map<K, V>) {
    forall k | k in m :: k in m' && m'[k] == m[k]
  }

  /** A payment keeps its identity, and once captured its captured amount and availability. */
  ghost predicate PaymentEvolves(s: State, s': State, p: Id) {
    p in s.payments ==>
      && p in s'.payments
      && var a := s.payments[p]; var b := s'.payments[p];
         && a.merchant == b.merchant && a.currency == b.currency && a.amount == b.amount && a.externalRef == b.externalRef
         && a.refunded <= b.refunded && a.version <= b.version
         && (a.status != Created ==> b.status != Created && b.captured == a.captured && b.availableAt == a.availableAt)
  }

  ghost predicate PaymentsEvolve(s: State, s': State) { forall p :: PaymentEvolves(s, s', p) }

  /** Existing events stay, and at most the event e is new. */
  ghost predicate Emits(s: State, s': State, e: Id) {
    forall x :: EmitsAt(s, s', e, x)
  }

  ghost predicate EmitsAt(s: State, s': State, e: Id, x: Id) {
    && (x in s.outbox ==> x in s'.outbox && s'.outbox[x] == s.outbox[x])
    && (x in s'.outbox ==> x in s.outbox || x == e)
  }

  lemma EventsKept(s: State, s': State, e: Id)
    requires EventsOk(s) && PaymentsEvolve(s, s') && Extends(s.refunds, s'.refunds) && Emits(s, s', e)
    requires e in s'.outbox && e !in s.outbox ==> EventOk(s', s'.outbox[e])
    ensures EventsOk(s')
  {
    forall x ensures EventRow(s', x) {
      assert EmitsAt(s, s', e, x) && EventRow(s, x);
      if x in s.outbox && (s.outbox[x].PaymentCaptured? || s.outbox[x].PaymentRefunded?) {
        assert PaymentEvolves(s, s', s.outbox[x].payment);
      }
    }
  }

  lemma DistinctKept(s: State, s': State, e: Id)
    requires EventsDistinct(s) && Emits(s, s', e)
    requires forall x | x in s.outbox && e !in s.outbox :: DistinctPair(s', x, e) && DistinctPair(s', e, x)
    ensures EventsDistinct(s')
  {
    forall x, y ensures DistinctPair(s', x, y) {
      assert EmitsAt(s, s', e, x) && EmitsAt(s, s', e, y) && DistinctPair(s, x, y);
    }
  }

  lemma RefundEventKept(s: State, s': State, e: Id, r: Id)
    requires RefundHasEvent(s, r) && r in s.refunds && Emits(s, s', e)
    ensures RefundHasEvent(s', r)
  {
    var x :| RefundEventOf(s, x, r);
    assert EmitsAt(s, s', e, x);
    assert RefundEventOf(s', x, r);
  }

  lemma PaymentEventsKept(s: State, s': State, e: Id, p: Id)
    requires PaymentHasEvents(s, p) && p in s.payments && Emits(s, s', e)
    requires p in s'.payments && s'.payments[p].refunded == s.payments[p].refunded
    requires s'.payments[p].status != Created ==> s.payments[p].status != Created
    ensures PaymentHasEvents(s', p)
  {
    if s.payments[p].status != Created {
      var x :| IsCapture(s, x, p);
      assert EmitsAt(s, s', e, x);
      assert IsCapture(s', x, p);
    }
    if s.payments[p].refunded > 0 {
      var y :| RefundEventUpTo(s, y, p, s.payments[p].refunded);
      assert EmitsAt(s, s', e, y);
      assert RefundEventUpTo(s', y, p, s.payments[p].refunded);
    }
  }

  lemma RefundsKept(s: State, s': State, r: Id)
    requires RefundsOk(s) && PaymentsEvolve(s, s') && Extends(s.refunds, s'.refunds)
    requires forall x | x in s'.refunds :: x in s.refunds || x == r
    requires RefundOk(s', r)
    ensures RefundsOk(s')
  {
    forall x ensures RefundOk(s', x) {
      assert RefundOk(s, x);
      if x in s.refunds {
        assert PaymentEvolves(s, s', s.refunds[x].payment);
      }
    }
  }

  /** Neither the projection nor a settlement run changed anything. */
  ghost predicate SameSettlement(s: State, s': State) {
    && s'.inbox == s.inbox && s'.streams == s.streams && s'.positions == s.positions
    && s'.items == s.items && s'.adjustments == s.adjustments && s'.batches == s.batches
  }

  lemma PositionsKept(s: State, s': State, e: Id)
    requires PositionsOk(s) && SameSettlement(s, s') && PaymentsEvolve(s, s') && Emits(s, s', e)
    requires e !in s.outbox ==> InboxRow(s', e)
    ensures PositionsOk(s')
  {
    forall p ensures PositionOk(s', p) {
      assert PositionOk(s, p) && PaymentEvolves(s, s', p);
    }
    forall x ensures InboxRow(s', x) {
      assert InboxRow(s, x) && EmitsAt(s, s', e, x);
    }
  }

  lemma ItemsKept(s: State, s': State, e: Id)
    requires ItemsOk(s) && PositionsOk(s) && SameSettlement(s, s') && PaymentsEvolve(s, s') && Emits(s, s', e)
    requires e !in s.outbox ==> WhollyInOrOut(s', e)
    ensures ItemsOk(s')
  {
    forall p ensures ItemOk(s', p) {
      assert ItemOk(s, p) && PaymentEvolves(s, s', p) && PositionOk(s, p);
    }
    forall x ensures WhollyInOrOut(s', x) {
      assert WhollyInOrOut(s, x) && EmitsAt(s, s', e, x);
    }
  }

  lemma AdjustmentsKept(s: State, s': State, e: Id)
    requires AdjustmentsOk(s) && SameSettlement(s, s') && Extends(s.refunds, s'.refunds) && Emits(s, s', e)
    requires e !in s.outbox ==> AdjustedOnce(s', e)
    ensures AdjustmentsOk(s')
  {
    forall r ensures AdjustmentOk(s', r) {
      assert AdjustmentOk(s, r);
    }
    forall x ensures AdjustedOnce(s', x) {
      assert AdjustedOnce(s, x) && EmitsAt(s, s', e, x);
    }
  }

  /** A posting owned by its command keeps the journal well-formed. */
  lemma PostingKeepsJournal(s: State, s': State, p: Ledger.Posting)
    requires JournalRowsOk(s)
    requires Ledger.CreatePosting(s.journal, s.provisioned, p).Ok? && s'.journal == s.journal + [p]
    requires Ledger.WellFormed(p) && p.business != Ledger.Reversal && p.reversalOf.None?
    requires PostingOwned(s', p)
    requires Extends(s.refunds, s'.refunds) && Extends(s.batches, s'.batches) && PaymentsEvolve(s, s')
    ensures JournalRowsOk(s')
  {
    Ledger.PostingKeepsReversalsOk(s.journal, s.provisioned, p);
    forall i | 0 <= i < |s'.journal| ensures PostingOwned(s', s'.journal[i]) {
      if i < |s.journal| {
        assert PostingOwned(s, s.journal[i]) && PaymentEvolves(s, s', s.journal[i].reference);
      }
    }
  }

  lemma JournalKept(s: State, s': State)
    requires JournalRowsOk(s) && s'.journal == s.journal
    requires Extends(s.refunds, s'.refunds) && Extends(s.batches, s'.batches) && PaymentsEvolve(s, s')
    ensures JournalRowsOk(s')
  {
    forall i | 0 <= i < |s'.journal| ensures PostingOwned(s', s'.journal[i]) {
      assert PostingOwned(s, s.journal[i]) && PaymentEvolves(s, s', s.journal[i].reference);
    }
  }

  // ----- creation -----

  /** The rows a committed creation writes. */
  ghost predicate CreateDelta(s: State, c: CreateCommand, s': State) {
    && c.paymentId !in s.payments && c.eventId !in s.outbox
    && s'.provisioned == s.provisioned && s'.refunds == s.refunds && s'.journal == s.journal && s'.runs == s.runs
    && SameSettlement(s, s')
    && s'.payments == s.payments[c.paymentId := Payment(c.merchant, c.externalRef, c.currency, c.amount, 0, 0, Created, None, 1)]
    && s'.outbox == s.outbox[c.eventId := PaymentCreated(c.paymentId, c.merchant, c.currency, c.amount)]
  }

  lemma CreateEffect(s: State, c: CreateCommand)
    requires CreateTx(s, c).Ok?
    ensures CreateDelta(s, c, CreateTx(s, c).value)
  {
  }

  lemma CreateKeepsEvents(s: State, c: CreateCommand, s': State)
    requires CreateDelta(s, c, s')
    requires PaymentsOk(s) && RefundsOk(s) && EventsOk(s) && EventsDistinct(s) && EventsExist(s)
    ensures PaymentsOk(s') && RefundsOk(s') && EventsOk(s') && EventsDistinct(s') && EventsExist(s')
    ensures PaymentsEvolve(s, s') && Emits(s, s', c.eventId)
  {
    forall p ensures PaymentEvolves(s, s', p) {}
    forall x ensures EmitsAt(s, s', c.eventId, x) {}
    forall p ensures PaymentRow(s', p) { assert PaymentRow(s, p); }
    forall p ensures PaymentHasEvents(s', p) {
      assert PaymentHasEvents(s, p);
      if p in s.payments { PaymentEventsKept(s, s', c.eventId, p); }
    }
    forall r ensures RefundHasEvent(s', r) {
      assert RefundHasEvent(s, r);
      if r in s.refunds { RefundEventKept(s, s', c.eventId, r); }
    }
    assert RefundOk(s, 0);
    RefundsKept(s, s', 0);
    EventsKept(s, s', c.eventId);
    DistinctKept(s, s', c.eventId);
  }

  lemma CreateKeepsRows(s: State, c: CreateCommand)
    requires RowsOk(s) && CreateTx(s, c).Ok?
    ensures RowsOk(CreateTx(s, c).value)
  {
    CreateEffect(s, c);
    var s' := CreateTx(s, c).value;
    CreateKeepsEvents(s, c, s');
    assert InboxRow(s, c.eventId) && WhollyInOrOut(s, c.eventId);
    PositionsKept(s, s', c.eventId);
    ItemsKept(s, s', c.eventId);
    AdjustmentsKept(s, s', c.eventId);
    JournalKept(s, s');
    forall b ensures BatchOk(s', b) { assert BatchOk(s, b); }
  }

  // ----- capture -----

  /** The rows a committed capture writes. */
  ghost predicate CaptureDelta(s: State, c: CaptureCommand, s': State) {
    && c.paymentId in s.payments && c.eventId !in s.outbox && Ledger.ValidAmount(c.amount)
    && var p := s.payments[c.paymentId];
       var row := p.(captured := p.amount, status := Captured, availableAt := Some(c.time), version := p.version + 1);
       && p.status == Created && p.captured == 0 && p.refunded == 0
       && p.merchant == c.merchant && p.amount == c.amount
       && s'.provisioned == s.provisioned && s'.refunds == s.refunds && s'.runs == s.runs
       && SameSettlement(s, s')
       && s'.payments == s.payments[c.paymentId := row]
       && s'.outbox == s.outbox[c.eventId := PaymentCaptured(c.paymentId, c.merchant, p.currency, p.amount, c.time)]
  }

  function CapturePosting(c: CaptureCommand, currency: Currency): Ledger.Posting {
    Ledger.Posting(c.ledgerId, c.merchant, currency, Ledger.Capture, c.paymentId,
      [Ledger.Entry(Ledger.ProviderClearing, c.amount, currency, 1, Ledger.Debit),
       Ledger.Entry(Ledger.MerchantPayable, c.amount, currency, 2, Ledger.Credit)], None)
  }

  lemma CaptureEffect(s: State, c: CaptureCommand)
    requires CaptureTx(s, c).Ok?
    ensures var s' := CaptureTx(s, c).value;
            && CaptureDelta(s, c, s')
            && s'.journal == s.journal + [CapturePosting(c, s.payments[c.paymentId].currency)]
            && Ledger.CreatePosting(s.journal, s.provisioned, CapturePosting(c, s.payments[c.paymentId].currency)).Ok?
  {
  }

  lemma CaptureKeepsEvents(s: State, c: CaptureCommand, s': State)
    requires CaptureDelta(s, c, s')
    requires PaymentsOk(s) && RefundsOk(s) && EventsOk(s) && EventsDistinct(s) && EventsExist(s)
    ensures PaymentsOk(s') && RefundsOk(s') && EventsOk(s') && EventsDistinct(s') && EventsExist(s')
    ensures PaymentsEvolve(s, s') && Emits(s, s', c.eventId)
  {
    assert PaymentRow(s, c.paymentId) && RefundOk(s, 0);
    forall p ensures PaymentEvolves(s, s', p) {}
    forall x ensures EmitsAt(s, s', c.eventId, x) {}
    forall p ensures PaymentRow(s', p) { assert PaymentRow(s, p); }
    RefundsKept(s, s', 0);
    EventsKept(s, s', c.eventId);
    forall x | x in s.outbox ensures DistinctPair(s', x, c.eventId) && DistinctPair(s', c.eventId, x) {
      assert EventRow(s, x);
    }
    DistinctKept(s, s', c.eventId);
    forall r ensures RefundHasEvent(s', r) {
      assert RefundHasEvent(s, r);
      if r in s.refunds { RefundEventKept(s, s', c.eventId, r); }
    }
    forall p ensures PaymentHasEvents(s', p) {
      assert PaymentHasEvents(s, p);
      if p == c.paymentId {
        assert IsCapture(s', c.eventId, p);
      } else if p in s.payments {
        PaymentEventsKept(s, s', c.eventId, p);
      }
    }
  }

  lemma CaptureKeepsSettlement(s: State, c: CaptureCommand, s': State)
    requires CaptureDelta(s, c, s') && PaymentsEvolve(s, s') && Emits(s, s', c.eventId)
    requires PositionsOk(s) && ItemsOk(s) && AdjustmentsOk(s)
    ensures PositionsOk(s') && ItemsOk(s') && AdjustmentsOk(s')
  {
    assert PositionOk(s, c.paymentId) && InboxRow(s, c.eventId);
    PositionsKept(s, s', c.eventId);
    ItemsKept(s, s', c.eventId);
    AdjustmentsKept(s, s', c.eventId);
  }

  lemma CaptureKeepsRows(s: State, c: CaptureCommand)
    requires RowsOk(s) && CaptureTx(s, c).Ok?
    ensures RowsOk(CaptureTx(s, c).value)
  {
    CaptureEffect(s, c);
    var s' := CaptureTx(s, c).value;
    CaptureKeepsEvents(s, c, s');
    CaptureKeepsSettlement(s, c, s');
    forall b ensures BatchOk(s', b) { assert BatchOk(s, b); }
    Ledger.CaptureEntriesEffect(c.amount, s.payments[c.paymentId].currency);
    PostingKeepsJournal(s, s', CapturePosting(c, s.payments[c.paymentId].currency));
  }

  // ----- refund -----

  /** Number addition of two amounts up to 2^53: the sum, or the even number next to it, on a tie the one divisible by four. */
  lemma NumberAdditionRounds(a: nat, b: nat)
    requires a <= 9007199254740992 && b <= 9007199254740992
    ensures var r := NumberAdd(a, b);
            if a + b <= 9007199254740992 || (a + b) % 2 == 0 then r == a + b
            else (r == a + b - 1 || r == a + b + 1) && r % 4 == 0
  {
  }

  /** Under the refund check the number addition of the service is exact. */
  lemma RefundAdditionIsExact(p: Payment, c: RefundCommand)
    requires PaymentOk(p) && RefundError(Some(p), c).None?
    ensures NumberAdd(p.refunded, c.amount) == p.refunded + c.amount <= p.captured
  {
  }

  /** The rows a committed refund writes. */
  ghost predicate RefundDelta(s: State, c: RefundCommand, s': State) {
    && c.paymentId in s.payments && c.eventId !in s.outbox && c.refundId !in s.refunds && Ledger.ValidAmount(c.amount)
    && var p := s.payments[c.paymentId]; var total := p.refunded + c.amount;
       var row := p.(refunded := total, status := if total == p.captured then Refunded else PartiallyRefunded,
                     version := p.version + 1);
       && p.status != Created && p.status != Refunded && p.merchant == c.merchant && total <= p.captured
       && s'.provisioned == s.provisioned && s'.runs == s.runs && SameSettlement(s, s')
       && s'.payments == s.payments[c.paymentId := row]
       && s'.refunds == s.refunds[c.refundId := RefundRow(c.paymentId, c.merchant, c.externalRef, p.currency, c.amount)]
       && s'.outbox == s.outbox[c.eventId :=
              PaymentRefunded(c.paymentId, c.merchant, p.currency, c.amount, c.refundId, total, c.time)]
  }

  function RefundPosting(c: RefundCommand, currency: Currency): Ledger.Posting {
    Ledger.Posting(c.ledgerId, c.merchant, currency, Ledger.Refund, c.refundId,
      [Ledger.Entry(Ledger.MerchantPayable, c.amount, currency, 1, Ledger.Debit),
       Ledger.Entry(Ledger.ProviderClearing, c.amount, currency, 2, Ledger.Credit)], None)
  }

  lemma RefundEffect(s: State, c: RefundCommand)
    requires PaymentsOk(s) && RefundTx(s, c).Ok?
    ensures var s' := RefundTx(s, c).value;
            && RefundDelta(s, c, s')
            && s'.journal == s.journal + [RefundPosting(c, s.payments[c.paymentId].currency)]
            && Ledger.CreatePosting(s.journal, s.provisioned, RefundPosting(c, s.payments[c.paymentId].currency)).Ok?
  {
    assert PaymentRow(s, c.paymentId);
    RefundAdditionIsExact(s.payments[c.paymentId], c);
  }

  lemma RefundKeepsEvents(s: State, c: RefundCommand, s': State)
    requires RefundDelta(s, c, s')
    requires PaymentsOk(s) && RefundsOk(s) && EventsOk(s) && EventsDistinct(s) && EventsExist(s)
    ensures PaymentsOk(s') && RefundsOk(s') && EventsOk(s') && EventsDistinct(s') && EventsExist(s')
    ensures PaymentsEvolve(s, s') && Emits(s, s', c.eventId)
  {
    assert PaymentRow(s, c.paymentId);
    forall p ensures PaymentEvolves(s, s', p) {}
    forall x ensures EmitsAt(s, s', c.eventId, x) {}
    forall p ensures PaymentRow(s', p) { assert PaymentRow(s, p); }
    RefundsKept(s, s', c.refundId);
    EventsKept(s, s', c.eventId);
    forall x | x in s.outbox ensures DistinctPair(s', x, c.eventId) && DistinctPair(s', c.eventId, x) {
      assert EventRow(s, x);
    }
    DistinctKept(s, s', c.eventId);
    RefundKeepsExistence(s, c, s');
  }

  lemma RefundKeepsExistence(s: State, c: RefundCommand, s': State)
    requires RefundDelta(s, c, s') && Emits(s, s', c.eventId) && EventsExist(s)
    ensures EventsExist(s')
  {
    forall r ensures RefundHasEvent(s', r) {
      assert RefundHasEvent(s, r);
      if r == c.refundId {
        assert RefundEventOf(s', c.eventId, r);
      } else if r in s.refunds {
        RefundEventKept(s, s', c.eventId, r);
      }
    }
    forall p ensures PaymentHasEvents(s', p) {
      assert PaymentHasEvents(s, p);
      if p == c.paymentId {
        var x :| IsCapture(s, x, p);
        assert EmitsAt(s, s', c.eventId, x);
        assert IsCapture(s', x, p) && RefundEventUpTo(s', c.eventId, p, s'.payments[p].refunded);
      } else if p in s.payments {
        PaymentEventsKept(s, s', c.eventId, p);
      }
    }
  }

  lemma RefundKeepsSettlement(s: State, c: RefundCommand, s': State)
    requires RefundDelta(s, c, s') && PaymentsEvolve(s, s') && Emits(s, s', c.eventId)
    requires PositionsOk(s) && ItemsOk(s) && AdjustmentsOk(s)
    ensures PositionsOk(s') && ItemsOk(s') && AdjustmentsOk(s')
  {
    assert InboxRow(s, c.eventId) && ItemOk(s, c.paymentId) && AdjustmentOk(s, c.refundId);
    PositionsKept(s, s', c.eventId);
    ItemsKept(s, s', c.eventId);
    AdjustmentsKept(s, s', c.eventId);
  }

  lemma RefundKeepsRows(s: State, c: RefundCommand)
    requires RowsOk(s) && RefundTx(s, c).Ok?
    ensures RowsOk(RefundTx(s, c).value)
  {
    RefundEffect(s, c);
    var s' := RefundTx(s, c).value;
    RefundKeepsEvents(s, c, s');
    RefundKeepsSettlement(s, c, s');
    forall b ensures BatchOk(s', b) { assert BatchOk(s, b); }
    Ledger.RefundEntriesEffect(c.amount, s.payments[c.paymentId].currency);
    PostingKeepsJournal(s, s', RefundPosting(c, s.payments[c.paymentId].currency));
  }
}
