/** The numeric guards of the operational event contract, against everything the producers emit. */
module OperationalEvent {
  import opened Basics
  import opened Sums
  import MoneyState
  import MoneyInvariant
  import MoneySettlement
  import ReconciliationClassifier
  import ReconciliationTotals
  import ReconciliationClaim

  predicate SafeInteger(value: int, allowNegative: bool) {
    -MAX_SAFE_INTEGER <= value <= MAX_SAFE_INTEGER && (allowNegative || value >= 0)
  }

  /** settlement.finalized.v1; the sum is taken with JavaScript numbers. */
  predicate AcceptsFinalized(gross: int, fee: int, net: int, itemCount: int) {
    && SafeInteger(gross, false) && SafeInteger(fee, false) && SafeInteger(net, false) && SafeInteger(itemCount, false)
    && gross >= 1 && net >= 1 && 1 <= itemCount <= 500
    && gross == MoneyState.NumberAdd(fee, net)
  }

  /** reconciliation.completed.v1 */
  predicate AcceptsCompleted(e: ReconciliationClaim.CompletionEvent) {
    && SafeInteger(e.matchedExact, false) && SafeInteger(e.mismatches, false)
    && SafeInteger(e.etb, true) && SafeInteger(e.usd, true)
  }

  /** The guards accept exactly the numbers that add up: the rounding of number addition hides no difference. */
  lemma AcceptedExactlyWhen(gross: int, fee: int, net: int, itemCount: int, e: ReconciliationClaim.CompletionEvent)
    ensures AcceptsFinalized(gross, fee, net, itemCount) <==>
              gross == fee + net && 0 <= fee && 1 <= net && gross <= 9007199254740991 && 1 <= itemCount <= 500
    ensures AcceptsCompleted(e) <==>
              && 0 <= e.matchedExact <= 9007199254740991 && 0 <= e.mismatches <= 9007199254740991
              && -9007199254740991 <= e.etb <= 9007199254740991 && -9007199254740991 <= e.usd <= 9007199254740991
  {
  }

  /** Every finalized event that was ever emitted passes the guards: none gets stuck in the outbox over its numbers. */
  lemma FinalizedEventsAccepted(steps: seq<MoneyState.Step>, e: Id)
    requires e in MoneyState.Execute(steps).outbox && MoneyState.Execute(steps).outbox[e].SettlementFinalized?
    ensures var v := MoneyState.Execute(steps).outbox[e]; AcceptsFinalized(v.gross, v.fee, v.net, v.itemCount)
  {
    MoneySettlement.ExecutionKeepsRows(steps);
    assert MoneyInvariant.EventRow(MoneyState.Execute(steps), e);
  }

  lemma {:induction false} MatchedWithin(results: seq<ReconciliationClassifier.Classified>)
    ensures 0 <= SumBy(results, ReconciliationTotals.CountOf(ReconciliationClassifier.MatchedExact)) <= |results|
    decreases |results|
  {
    if results != [] { MatchedWithin(results[..|results| - 1]); }
  }

  /** The one event of a completed import passes the guards exactly while its two counts are safe integers, which they are
      for every result list JavaScript can hold; its differences always are, by the overflow check. */
  lemma CompletedEventsAccepted(steps: seq<ReconciliationClaim.Step>, id: Id)
    requires var s := ReconciliationClaim.Execute(steps);
             id in s.imports && s.imports[id].status == ReconciliationClaim.Completed
    ensures var s := ReconciliationClaim.Execute(steps);
            && id in s.results
            && ReconciliationClaim.EventsFor(s.events, id) == [ReconciliationClaim.EventOf(id, s.results[id])]
            && var e := ReconciliationClaim.EventOf(id, s.results[id]);
               && SafeInteger(e.etb, true) && SafeInteger(e.usd, true)
               && e.matchedExact >= 0 && e.mismatches >= 0 && e.matchedExact + e.mismatches == |s.results[id]|
               && (AcceptsCompleted(e) <==> e.matchedExact <= MAX_SAFE_INTEGER && e.mismatches <= MAX_SAFE_INTEGER)
               && (|s.results[id]| <= MAX_SAFE_INTEGER ==> AcceptsCompleted(e))
  {
    ReconciliationClaim.CompletedExactlyOnce(steps);
    var s := ReconciliationClaim.Execute(steps);
    assert ReconciliationClaim.ImportOk(s, id);
    MatchedWithin(s.results[id]);
  }
}
