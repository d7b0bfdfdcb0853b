/** What a settlement run decides and writes, read off the tables before it. */
module MoneyRuns {
  import opened Basics
  import opened Sums
  import opened SettlementPolicy
  import opened MoneyState
  import opened MoneyInvariant
  import opened MoneySettlement
  import opened MoneyTheorems
  import Ledger

  /** The longest settleable prefix with representable sums. */
  ghost predicate Longest(grosses: seq<Positive>, currency: Currency, n: nat) {
    WithinBounds(grosses, currency, n) && forall m: nat | WithinBounds(grosses, currency, m) :: m <= n
  }

  /** The candidates of a run that are still eligible, in order. */
  ghost function Live(s: State, c: RunCommand, rows: seq<Id>): seq<Id>
    requires forall p | p in Page(rows) :: p in s.payments
  {
    LiveCandidates(s, c.currency, c.cutoff, Page(rows))
  }

  /** What the first n candidates pay, less their fees and the pending adjustments of one page. */
  ghost function Payout(s: State, c: RunCommand, rows: seq<Id>, adjustmentRows: seq<Id>, n: nat): int
    requires (forall p | p in Page(rows) :: p in s.payments) && n <= |Live(s, c, rows)|
    requires forall r | r in adjustmentRows :: r in s.adjustments
  {
    var grosses := LiveGrosses(s, c, rows)[..n];
    Total(grosses) - Total(Fees(grosses, c.currency)) - Total(AdjustmentAmounts(s, Page(adjustmentRows)))
  }

  /** What a plan holds, in terms of the longest prefix. */
  lemma PlanTakesLongest(s: State, c: RunCommand, rows: seq<Id>, adjustmentRows: seq<Id>, plan: Plan) returns (n: nat)
    requires forall a | a in adjustmentRows :: a in s.adjustments
    requires PlanRun(s, c, rows, adjustmentRows) == Ok(plan)
    ensures forall p | p in Page(rows) :: p in s.payments
    ensures Longest(LiveGrosses(s, c, rows), c.currency, n) && n <= |Live(s, c, rows)|
    ensures plan.items == Live(s, c, rows)[..n] && plan.adjustments == Page(adjustmentRows)
    ensures plan.paymentGross == Total(LiveGrosses(s, c, rows)[..n]) && plan.fee == Total(Fees(LiveGrosses(s, c, rows)[..n], c.currency))
    ensures plan.adjustmentMinor == Total(AdjustmentAmounts(s, Page(adjustmentRows)))
  {
    PlanFields(s, c, rows, adjustmentRows);
    n := |plan.items|;
    var grosses := LiveGrosses(s, c, rows);
    TakesLongestPrefix(grosses, c.currency);
    assert Grosses(s, plan.items) == grosses[..n];
  }

  /** A run that commits completes a batch exactly if its longest settleable prefix is not empty and pays more than the fees
      and the pending adjustments; otherwise it records itself and changes nothing else. */
  lemma RunSettlesExactlyWhen(steps: seq<Step>, c: RunCommand, locked: set<Id>, rows: seq<Id>, adjustmentRows: seq<Id>, s': State)
    returns (n: nat)
    requires Selected(Execute(steps), c, locked, rows, adjustmentRows)
    requires RunTx(Execute(steps), c, rows, adjustmentRows) == Ok(s')
    ensures var s := Execute(steps);
            && Page(rows) == (if |rows| <= 500 then rows else rows[..500])
            && Page(adjustmentRows) == (if |adjustmentRows| <= 500 then adjustmentRows else adjustmentRows[..500])
            && (forall p | p in Page(rows) :: p in s.payments)
            && Longest(LiveGrosses(s, c, rows), c.currency, n) && n <= |Live(s, c, rows)|
            && c.runId in s'.runs
            && s'.runs[c.runId].batch ==
                 (if n > 0 && Payout(s, c, rows, adjustmentRows, n) > 0 then Some(c.batchId) else None)
            && (s'.runs[c.runId].batch == None ==> s' == s.(runs := s.runs[c.runId := s'.runs[c.runId]]))
  {
    var s := Execute(steps);
    var plan := RunOutcome(s, c, rows, adjustmentRows, s');
    n := PlanTakesLongest(s, c, rows, adjustmentRows, plan);
    if plan.Noop() { NoopWrites(s, c, rows, adjustmentRows, s'); }
  }

  lemma NoopWrites(s: State, c: RunCommand, rows: seq<Id>, adjustmentRows: seq<Id>, s': State)
    requires forall a | a in adjustmentRows :: a in s.adjustments
    requires RunTx(s, c, rows, adjustmentRows) == Ok(s') && PlanRun(s, c, rows, adjustmentRows).value.Noop()
    ensures c.runId in s'.runs && s' == s.(runs := s.runs[c.runId := s'.runs[c.runId]])
  {
  }

  /** The item of a payment: what it captured and refunded so far, and the fee of the difference. */
  ghost predicate ItemFor(s: State, c: RunCommand, p: Id, i: Item)
    requires p in s.payments
  {
    var x := s.payments[p];
    && i.batch == c.batchId && i.merchant == x.merchant && i.currency == c.currency
    && i.captured == x.captured && i.refunded == x.refunded && i.gross == x.captured - x.refunded > 0
    && i.fee == Fee(i.gross, c.currency) && i.net == i.gross - i.fee
  }

  /** What a completed run writes: the batch with the totals of the prefix and of the adjustments, one item for each payment
      of the prefix and no other, the adjustments settled into the batch, and the event with the batch's amounts. */
  ghost predicate Writes(s: State, c: RunCommand, items: seq<Id>, adjustments: seq<Id>, s': State) {
    && c.batchId in s'.batches && s'.batches.Keys == s.batches.Keys + {c.batchId}
    && s'.items.Keys == s.items.Keys + Range(items)
    && (forall p | p in s.items && p !in items :: s'.items[p] == s.items[p])
    && (forall p | p in items :: p in s.payments && p in s'.items && ItemFor(s, c, p, s'.items[p]))
    && s'.adjustments.Keys == s.adjustments.Keys
    && (forall r | r in s.adjustments ::
          s'.adjustments[r] == if r in adjustments then s.adjustments[r].(status := Settled(c.batchId)) else s.adjustments[r])
    && var b := s'.batches[c.batchId];
       && b.merchant == c.merchant && b.currency == c.currency && b.itemCount == |items| && b.adjustmentCount == |adjustments|
       && b.gross == b.paymentGross - b.adjustmentMinor && b.net == b.gross - b.fee
       && s'.outbox == s.outbox[c.eventId := SettlementFinalized(c.batchId, c.merchant, c.currency, b.gross, b.fee, b.net, |items|)]
  }

  lemma RunWrites(s: State, c: RunCommand, plan: Plan, s': State)
    requires RunDelta(s, c, plan, s') && forall p | p in plan.items :: Takes(s, c, p)
    ensures Writes(s, c, plan.items, plan.adjustments, s')
  {
    forall p | p in plan.items ensures p in s'.items && ItemFor(s, c, p, s'.items[p]) { assert Takes(s, c, p); }
  }

  /** What stands in the tables after a completed run. */
  lemma CompletedRunWrites(steps: seq<Step>, c: RunCommand, locked: set<Id>, rows: seq<Id>, adjustmentRows: seq<Id>, s': State)
    returns (n: nat)
    requires Selected(Execute(steps), c, locked, rows, adjustmentRows)
    requires RunTx(Execute(steps), c, rows, adjustmentRows) == Ok(s')
    requires c.runId in s'.runs && s'.runs[c.runId].batch.Some?
    ensures var s := Execute(steps);
            && (forall p | p in Page(rows) :: p in s.payments)
            && Longest(LiveGrosses(s, c, rows), c.currency, n) && n <= |Live(s, c, rows)|
            && Writes(s, c, Live(s, c, rows)[..n], Page(adjustmentRows), s')
            && s'.batches[c.batchId].paymentGross == Total(LiveGrosses(s, c, rows)[..n])
            && s'.batches[c.batchId].fee == Total(Fees(LiveGrosses(s, c, rows)[..n], c.currency))
            && s'.batches[c.batchId].adjustmentMinor == Total(AdjustmentAmounts(s, Page(adjustmentRows)))
  {
    var s := Execute(steps);
    ExecutionKeepsRows(steps);
    var plan := RunOutcome(s, c, rows, adjustmentRows, s');
    PlanIsOk(s, c, locked, rows, adjustmentRows);
    n := PlanTakesLongest(s, c, rows, adjustmentRows, plan);
    RunWrites(s, c, plan, s');
  }

  // ----- what the queries of a run return -----

  /** Earlier availability, or the same and the smaller identifier. */
  ghost predicate AvailableBefore(s: State, p: Id, q: Id)
    requires p in s.payments && q in s.payments && s.payments[p].availableAt.Some? && s.payments[q].availableAt.Some?
  {
    var a, b := s.payments[p].availableAt.value, s.payments[q].availableAt.value;
    a < b || (a == b && p < q)
  }

  /** A payment of the stream that became available before the cutoff, is in no batch, and has something left after the
      refunds that were delivered. */
  ghost predicate Due(s: State, c: RunCommand, p: Id) {
    && p in s.payments && p in s.positions && p !in s.items
    && s.payments[p].merchant == c.merchant && s.payments[p].currency == c.currency
    && s.payments[p].availableAt.Some? && s.payments[p].availableAt.value < c.cutoff
    && s.positions[p].refunded < s.payments[p].captured
  }

  /** In every reachable state the candidates of a run are the due payments that are not locked, all of them or the 501 that
      became available first. */
  lemma CandidatesAreTheEarliest(steps: seq<Step>, c: RunCommand, locked: set<Id>, rows: seq<Id>, adjustmentRows: seq<Id>, p: Id)
    requires Selected(Execute(steps), c, locked, rows, adjustmentRows)
    ensures var s := Execute(steps);
            && |rows| <= 501 && (forall q | q in rows :: Due(s, c, q) && q !in locked)
            && (Due(s, c, p) && p !in locked && p !in rows ==> |rows| == 501 && forall q | q in rows :: AvailableBefore(s, q, p))
  {
    var s := Execute(steps);
    ExecutionKeepsRows(steps);
    assert PositionOk(s, p);
    forall q | q in rows ensures Due(s, c, q) && q !in locked {
      var i :| 0 <= i < |rows| && rows[i] == q;
      assert PositionOk(s, q) && EligiblePosition(s, c.merchant, c.currency, c.cutoff, rows[i]);
    }
    if Due(s, c, p) && p !in locked && p !in rows {
      assert EligiblePosition(s, c.merchant, c.currency, c.cutoff, p);
      forall q | q in rows ensures AvailableBefore(s, q, p) {
        var i :| 0 <= i < |rows| && rows[i] == q;
        assert PositionOk(s, q) && PositionBefore(s, rows[i], p);
      }
    }
  }

  /** A pending adjustment of the stream. */
  ghost predicate Waiting(s: State, c: RunCommand, r: Id) {
    && r in s.adjustments && s.adjustments[r].status == Pending
    && s.adjustments[r].merchant == c.merchant && s.adjustments[r].currency == c.currency
  }

  /** The adjustments of a run are the pending ones of its stream, all of them or the 501 of the earliest refunds. */
  lemma AdjustmentsAreTheEarliest(s: State, c: RunCommand, locked: set<Id>, rows: seq<Id>, adjustmentRows: seq<Id>, r: Id)
    requires Selected(s, c, locked, rows, adjustmentRows)
    ensures |adjustmentRows| <= 501 && forall q | q in adjustmentRows :: Waiting(s, c, q)
    ensures Waiting(s, c, r) && r !in adjustmentRows ==>
              && |adjustmentRows| == 501
              && forall q | q in adjustmentRows ::
                   s.adjustments[q].occurredAt < s.adjustments[r].occurredAt
                   || (s.adjustments[q].occurredAt == s.adjustments[r].occurredAt && q < r)
  {
    forall q | q in adjustmentRows ensures Waiting(s, c, q) {
      var i :| 0 <= i < |adjustmentRows| && adjustmentRows[i] == q;
      assert PendingOf(s, c.merchant, c.currency, adjustmentRows[i]);
    }
    if Waiting(s, c, r) && r !in adjustmentRows {
      assert PendingOf(s, c.merchant, c.currency, r);
      forall q | q in adjustmentRows
        ensures s.adjustments[q].occurredAt < s.adjustments[r].occurredAt
                || (s.adjustments[q].occurredAt == s.adjustments[r].occurredAt && q < r)
      {
        var i :| 0 <= i < |adjustmentRows| && adjustmentRows[i] == q;
        assert AdjustmentBefore(s, adjustmentRows[i], r);
      }
    }
  }

  // ----- oldest first -----

  ghost predicate InOrder(s: State, ps: seq<Id>) {
    && (forall p | p in ps :: p in s.positions)
    && forall i, j | 0 <= i < j < |ps| :: PositionBefore(s, ps[i], ps[j])
  }

  lemma OrderAppend(s: State, ps: seq<Id>, p: Id)
    requires InOrder(s, ps) && p in s.positions && forall q | q in ps :: PositionBefore(s, q, p)
    ensures InOrder(s, ps + [p])
  {
    var all := ps + [p];
    forall i, j | 0 <= i < j < |all| ensures PositionBefore(s, all[i], all[j]) {
      if j == |ps| { assert all[i] in ps; }
    }
  }

  lemma {:induction false} LiveIsSorted(s: State, currency: Currency, cutoff: int, rows: seq<Id>)
    requires InOrder(s, rows) && forall p | p in rows :: p in s.payments
    ensures InOrder(s, LiveCandidates(s, currency, cutoff, rows))
  {
    if rows != [] {
      var n := |rows| - 1;
      var init := rows[..n];
      assert rows == init + [rows[n]] && rows[n] in rows;
      LiveIsSorted(s, currency, cutoff, init);
      var live := LiveCandidates(s, currency, cutoff, init);
      forall p | p in live ensures PositionBefore(s, p, rows[n]) {
        var i :| 0 <= i < n && init[i] == p;
        assert PositionBefore(s, rows[i], rows[n]);
      }
      if StillEligible(s, currency, cutoff, rows[n]) { OrderAppend(s, live, rows[n]); } else { assert live + [] == live; }
    }
  }

  /** A candidate that a run could take but leaves comes after all it takes. */
  lemma LeftComesLater(s: State, c: RunCommand, locked: set<Id>, rows: seq<Id>, adjustmentRows: seq<Id>, n: nat, p: Id, q: Id)
    requires PositionsOk(s) && Selected(s, c, locked, rows, adjustmentRows)
    requires forall x | x in Page(rows) :: x in s.payments
    requires n <= |Live(s, c, rows)| && p in Live(s, c, rows)[..n]
    requires TrulyEligible(s, c.merchant, c.currency, c.cutoff, q) && q !in locked && q !in Live(s, c, rows)[..n]
    ensures p in s.positions && q in s.positions && PositionBefore(s, p, q)
  {
    var live, page := Live(s, c, rows), Page(rows);
    SelectedOnce(s, c, locked, rows, adjustmentRows);
    TrulyEligibleIsCandidate(s, c.merchant, c.currency, c.cutoff, q);
    assert InOrder(s, page);
    LiveIsSorted(s, c.currency, c.cutoff, page);
    var i :| 0 <= i < n && live[i] == p;
    assert p in page;
    if q in page {
      LiveIsAll(s, c.currency, c.cutoff, page, q);
      var j :| 0 <= j < |live| && live[j] == q;
      assert j >= n;
    } else {
      var k :| 0 <= k < |page| && page[k] == p;
      assert rows[k] == p;
      if q in rows { var m :| 0 <= m < |rows| && rows[m] == q; }
    }
  }

  /** Settlement is in order of availability: a payment that a completed run could have taken and left comes after every
      payment it took. */
  lemma OldestPaymentsFirst(steps: seq<Step>, c: RunCommand, locked: set<Id>, rows: seq<Id>, adjustmentRows: seq<Id>, s': State,
                            p: Id, q: Id)
    requires Selected(Execute(steps), c, locked, rows, adjustmentRows)
    requires RunTx(Execute(steps), c, rows, adjustmentRows) == Ok(s')
    requires p in s'.items && p !in Execute(steps).items
    requires TrulyEligible(Execute(steps), c.merchant, c.currency, c.cutoff, q) && q !in locked && q !in s'.items
    ensures var s := Execute(steps);
            && p in s.payments && s.payments[p].availableAt.Some?
            && AvailableBefore(s, p, q)
  {
    var s := Execute(steps);
    ExecutionKeepsRows(steps);
    var plan := RunOutcome(s, c, rows, adjustmentRows, s');
    var n := PlanTakesLongest(s, c, rows, adjustmentRows, plan);
    LeftComesLater(s, c, locked, rows, adjustmentRows, n, p, q);
    assert PositionOk(s, p) && PositionOk(s, q);
  }

  /** Adjustments are settled in the order of their refunds. */
  lemma OldestAdjustmentsFirst(steps: seq<Step>, c: RunCommand, locked: set<Id>, rows: seq<Id>, adjustmentRows: seq<Id>, s': State,
                               r: Id, q: Id)
    requires Selected(Execute(steps), c, locked, rows, adjustmentRows)
    requires RunTx(Execute(steps), c, rows, adjustmentRows) == Ok(s')
    requires PendingOf(Execute(steps), c.merchant, c.currency, r) && !PendingOf(s', c.merchant, c.currency, r)
    requires PendingOf(s', c.merchant, c.currency, q)
    ensures var s := Execute(steps);
            && r in s.adjustments && q in s.adjustments
            && (s.adjustments[r].occurredAt < s.adjustments[q].occurredAt
                || (s.adjustments[r].occurredAt == s.adjustments[q].occurredAt && r < q))
  {
    var s := Execute(steps);
    var plan := RunOutcome(s, c, rows, adjustmentRows, s');
    PlanFields(s, c, rows, adjustmentRows);
    var page := Page(adjustmentRows);
    assert r in page && q !in page && PendingOf(s, c.merchant, c.currency, q);
    var k :| 0 <= k < |page| && page[k] == r;
    assert adjustmentRows[k] == r;
    if q in adjustmentRows { var m :| 0 <= m < |adjustmentRows| && adjustmentRows[m] == q; }
  }
}
