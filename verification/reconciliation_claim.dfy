/** The lease under which workers process staged imports, and the one transaction that completes an import. */
module ReconciliationClaim {
  import opened Basics
  import opened Sums
  import opened ReconciliationClassifier
  import opened ReconciliationTotals

  type Owner = string

  datatype Status = Staged | Completed | Failed(code: string)

  datatype Import = Import(providerRows: seq<Provider>, status: Status, lockedBy: Option<Owner>, leaseExpiresAt: Option<int>)

  datatype CompletionEvent = CompletionEvent(importId: Id, matchedExact: int, mismatches: int, etb: int, usd: int)

  /** A successful claim; its position in the log names the call that will process the import. */
  datatype ClaimEntry = ClaimEntry(owner: Owner, importId: Id, at: int)

  datatype State = State(
    imports: map<Id, Import>,
    results: map<Id, seq<Classified>>,
    summaries: map<Id, map<Currency, Summary>>,
    events: seq<CompletionEvent>,
    claims: seq<ClaimEntry>)

  const EMPTY := State(map[], map[], map[], [], [])

  const LEASE := 30000

  // ----- transactions -----

  predicate Claimable(s: State, id: Id, now: int) {
    && id in s.imports && s.imports[id].status == Staged
    && (s.imports[id].leaseExpiresAt.None? || s.imports[id].leaseExpiresAt.value <= now)
  }

  function ClaimTx(s: State, id: Id, owner: Owner, now: int): State {
    if !Claimable(s, id, now) then s else
    s.(imports := s.imports[id := s.imports[id].(lockedBy := Some(owner), leaseExpiresAt := Some(now + LEASE))],
       claims := s.claims + [ClaimEntry(owner, id, now)])
  }

  /** The condition under which the writing statements of the processing transaction find their row. */
  predicate Owns(s: State, id: Id, owner: Owner, now: int) {
    && id in s.imports && s.imports[id].status == Staged && s.imports[id].lockedBy == Some(owner)
    && s.imports[id].leaseExpiresAt.Some? && now < s.imports[id].leaseExpiresAt.value
  }

  function SummariesOf(results: seq<Classified>): map<Currency, Summary> {
    map c: Currency :: Summarize(results, c)
  }

  predicate Representable(n: int) { -MAX_SAFE_INTEGER <= n <= MAX_SAFE_INTEGER }

  predicate SummaryFits(s: Summary) {
    && Representable(s.providerGross) && Representable(s.providerFee) && Representable(s.providerNet)
    && Representable(s.platformGross) && Representable(s.platformFee) && Representable(s.platformNet)
    && Representable(s.unexplained)
  }

  predicate Overflows(results: seq<Classified>) {
    !SummaryFits(Summarize(results, ETB)) || !SummaryFits(Summarize(results, USD))
  }

  function EventOf(id: Id, results: seq<Classified>): CompletionEvent {
    var matched := SumBy(results, CountOf(MatchedExact));
    CompletionEvent(id, matched, |results| - matched, Summarize(results, ETB).unexplained, Summarize(results, USD).unexplained)
  }

  /** Releases the lease and ends the import. */
  function Finish(i: Import, status: Status): Import {
    i.(status := status, lockedBy := None, leaseExpiresAt := None)
  }

  /** The processing transaction of a claimer: it commits results, summaries and event together with the status, or
      fails the import, or finds that it does not own the import and changes nothing. */
  function ProcessTx(s: State, id: Id, owner: Owner, now: int, results: seq<Classified>): State {
    if !Owns(s, id, owner, now) then s
    else if Overflows(results) then
      s.(imports := s.imports[id := Finish(s.imports[id], Failed("aggregate_overflow"))])
    else
      s.(imports := s.imports[id := Finish(s.imports[id], Completed)],
         results := s.results[id := results],
         summaries := s.summaries[id := SummariesOf(results)],
         events := s.events + [EventOf(id, results)])
  }

  datatype Step =
    | Stage(id: Id, rows: seq<Provider>)
    | StageRejected(id: Id, code: string)
    | Claim(id: Id, owner: Owner, now: int)
    // the call behind entry `claim` of the claim log goes on to process its import
    | Process(claim: nat, now: int, platformRows: seq<Platform>, results: seq<Classified>)

  ghost function Apply(s: State, step: Step): State {
    match step
    case Stage(id, rows) =>
      if id in s.imports then s else s.(imports := s.imports[id := Import(rows, Staged, None, None)])
    case StageRejected(id, code) =>
      if id in s.imports then s else s.(imports := s.imports[id := Import([], Failed(code), None, None)])
    case Claim(id, owner, now) => ClaimTx(s, id, owner, now)
    case Process(k, now, platformRows, results) =>
      if k < |s.claims| && s.claims[k].importId in s.imports
         && IsClassification(s.imports[s.claims[k].importId].providerRows, platformRows, results)
      then ProcessTx(s, s.claims[k].importId, s.claims[k].owner, now, results)
      else s
  }

  ghost function Execute(steps: seq<Step>): State {
    if steps == [] then EMPTY else Apply(Execute(steps[..|steps| - 1]), steps[|steps| - 1])
  }

  // ----- exactly once -----

  ghost function EventsFor(events: seq<CompletionEvent>, id: Id): seq<CompletionEvent> {
    if events == [] then [] else
    var n := |events| - 1;
    EventsFor(events[..n], id) + (if events[n].importId == id then [events[n]] else [])
  }

  lemma EventsForAppend(events: seq<CompletionEvent>, e: CompletionEvent, id: Id)
    ensures EventsFor(events + [e], id) == EventsFor(events, id) + if e.importId == id then [e] else []
  {
    assert (events + [e])[..|events|] == events;
  }

  /** A completed import has a classification of its rows, both summaries of it and its one event; any other has none. */
  ghost predicate ImportOk(s: State, id: Id) {
    if id in s.imports && s.imports[id].status == Completed then
      && id in s.results && id in s.summaries
      && (exists platformRows :: IsClassification(s.imports[id].providerRows, platformRows, s.results[id]))
      && s.summaries[id] == SummariesOf(s.results[id]) && !Overflows(s.results[id])
      && EventsFor(s.events, id) == [EventOf(id, s.results[id])]
    else id !in s.results && id !in s.summaries && EventsFor(s.events, id) == []
  }

  /** A staged import is locked by the latest claim of it; it is free only before its first claim, and again once it ended. */
  ghost predicate LockOk(s: State, id: Id) {
    if id in s.imports && s.imports[id].lockedBy.Some? then
      && s.imports[id].status == Staged
      && exists k :: LastClaim(s, id, k) && s.imports[id].lockedBy == Some(s.claims[k].owner)
           && s.imports[id].leaseExpiresAt == Some(s.claims[k].at + LEASE)
    else
      && (id in s.imports ==> s.imports[id].leaseExpiresAt.None?)
      && (id !in s.imports || s.imports[id].status == Staged ==> forall k | 0 <= k < |s.claims| :: s.claims[k].importId != id)
  }

  ghost predicate LastClaim(s: State, id: Id, k: int) {
    && 0 <= k < |s.claims| && s.claims[k].importId == id
    && forall j | k < j < |s.claims| :: s.claims[j].importId != id
  }

  ghost predicate AllOk(s: State) {
    forall id :: ImportOk(s, id) && LockOk(s, id)
  }

  /** An import that stays as it is, or starts unlocked, keeps its lock rule while nobody else claims it. */
  lemma LockKept(s: State, s': State, x: Id)
    requires LockOk(s, x) && s.claims <= s'.claims
    requires forall k | |s.claims| <= k < |s'.claims| :: s'.claims[k].importId != x
    requires if x in s.imports then x in s'.imports && s'.imports[x] == s.imports[x]
             else x in s'.imports ==> s'.imports[x].lockedBy.None? && s'.imports[x].leaseExpiresAt.None?
    ensures LockOk(s', x)
  {
    if x in s'.imports && s'.imports[x].lockedBy.Some? {
      var k :| LastClaim(s, x, k) && s.imports[x].lockedBy == Some(s.claims[k].owner)
        && s.imports[x].leaseExpiresAt == Some(s.claims[k].at + LEASE);
      assert LastClaim(s', x, k);
    }
  }

  lemma ProcessKeepsImport(s: State, id: Id, owner: Owner, now: int, platformRows: seq<Platform>, results: seq<Classified>, x: Id)
    requires ImportOk(s, x) && id in s.imports && IsClassification(s.imports[id].providerRows, platformRows, results)
    ensures ImportOk(ProcessTx(s, id, owner, now, results), x)
  {
    if Owns(s, id, owner, now) && !Overflows(results) {
      EventsForAppend(s.events, EventOf(id, results), x);
    }
  }

  lemma ProcessKeepsOk(s: State, id: Id, owner: Owner, now: int, platformRows: seq<Platform>, results: seq<Classified>)
    requires AllOk(s) && id in s.imports && IsClassification(s.imports[id].providerRows, platformRows, results)
    ensures AllOk(ProcessTx(s, id, owner, now, results))
  {
    var s' := ProcessTx(s, id, owner, now, results);
    forall x ensures ImportOk(s', x) && LockOk(s', x) {
      assert ImportOk(s, x) && LockOk(s, x);
      ProcessKeepsImport(s, id, owner, now, platformRows, results, x);
      if x != id { LockKept(s, s', x); }
    }
  }

  lemma ClaimKeepsOk(s: State, id: Id, owner: Owner, now: int)
    requires AllOk(s)
    ensures AllOk(ClaimTx(s, id, owner, now))
  {
    var s' := ClaimTx(s, id, owner, now);
    forall x ensures ImportOk(s', x) && LockOk(s', x) {
      assert ImportOk(s, x) && LockOk(s, x);
      if Claimable(s, id, now) && x == id {
        assert LastClaim(s', x, |s.claims|);
      } else {
        LockKept(s, s', x);
      }
    }
  }

  lemma StageKeepsOk(s: State, id: Id, row: Import)
    requires AllOk(s) && id !in s.imports && row.status != Completed && row.lockedBy.None? && row.leaseExpiresAt.None?
    ensures AllOk(s.(imports := s.imports[id := row]))
  {
    var s' := s.(imports := s.imports[id := row]);
    forall x ensures ImportOk(s', x) && LockOk(s', x) {
      assert ImportOk(s, x) && LockOk(s, x);
      LockKept(s, s', x);
    }
  }

  lemma ApplyKeepsOk(s: State, step: Step)
    requires AllOk(s)
    ensures AllOk(Apply(s, step))
  {
    match step
    case Stage(id, rows) => if id !in s.imports { StageKeepsOk(s, id, Import(rows, Staged, None, None)); }
    case StageRejected(id, code) => if id !in s.imports { StageKeepsOk(s, id, Import([], Failed(code), None, None)); }
    case Claim(id, owner, now) => ClaimKeepsOk(s, id, owner, now);
    case Process(k, now, platformRows, results) =>
      if Apply(s, step) != s {
        ProcessKeepsOk(s, s.claims[k].importId, s.claims[k].owner, now, platformRows, results);
      }
  }

  /** However workers compete and leases expire: completed imports have their results, both summaries and their one
      event, and all other imports have none of them. */
  lemma {:induction false} CompletedExactlyOnce(steps: seq<Step>)
    ensures AllOk(Execute(steps))
  {
    if steps == [] {
      forall id ensures ImportOk(EMPTY, id) && LockOk(EMPTY, id) {}
    } else {
      CompletedExactlyOnce(steps[..|steps| - 1]);
      ApplyKeepsOk(Execute(steps[..|steps| - 1]), steps[|steps| - 1]);
    }
  }

  /** A terminal import never changes again, nor do its results. */
  ghost predicate TerminalStays(s: State, s': State, id: Id) {
    id in s.imports && s.imports[id].status != Staged ==>
      && id in s'.imports && s'.imports[id] == s.imports[id]
      && (id in s.results <==> id in s'.results) && (id in s.results ==> s'.results[id] == s.results[id])
  }

  lemma {:induction false} TerminalForever(steps: seq<Step>, later: seq<Step>, id: Id)
    ensures TerminalStays(Execute(steps), Execute(steps + later), id)
    decreases |later|
  {
    if later == [] {
      assert steps + later == steps;
    } else {
      var n := |later| - 1;
      TerminalForever(steps, later[..n], id);
      LastStep(steps, later, n);
      TerminalStep(Execute(steps + later[..n]), later[n], id);
      TerminalTransitive(Execute(steps), Execute(steps + later[..n]), Execute(steps + later), id);
    }
  }

  lemma LastStep(steps: seq<Step>, later: seq<Step>, n: nat)
    requires |later| == n + 1
    ensures Execute(steps + later) == Apply(Execute(steps + later[..n]), later[n])
  {
    assert (steps + later)[..|steps| + n] == steps + later[..n];
  }

  lemma TerminalTransitive(a: State, b: State, c: State, id: Id)
    requires TerminalStays(a, b, id) && TerminalStays(b, c, id)
    ensures TerminalStays(a, c, id)
  {
  }

  lemma TerminalStep(s: State, step: Step, id: Id)
    ensures TerminalStays(s, Apply(s, step), id)
  {
  }

  // ----- fencing -----

  ghost predicate FreshOwners(claims: seq<ClaimEntry>) {
    forall i, j | 0 <= i < j < |claims| :: claims[i].owner != claims[j].owner
  }

  lemma OwnerIsLatest(s: State, k: nat, now: int)
    requires AllOk(s) && FreshOwners(s.claims) && k < |s.claims| && Owns(s, s.claims[k].importId, s.claims[k].owner, now)
    ensures LastClaim(s, s.claims[k].importId, k) && now < s.claims[k].at + LEASE
  {
    var id := s.claims[k].importId;
    assert LockOk(s, id);
    var last :| LastClaim(s, id, last) && s.imports[id].lockedBy == Some(s.claims[last].owner)
      && s.imports[id].leaseExpiresAt == Some(s.claims[last].at + LEASE);
    assert k == last;
  }

  lemma OnlyOwnersChange(s: State, k: nat, now: int, platformRows: seq<Platform>, results: seq<Classified>)
    requires Apply(s, Process(k, now, platformRows, results)) != s
    ensures k < |s.claims| && Owns(s, s.claims[k].importId, s.claims[k].owner, now)
  {
  }

  /** A call that commits anything still holds the latest claim of its import and its lease has not expired,
      provided every call drew its own owner string. */
  lemma StaleClaimersCommitNothing(steps: seq<Step>, k: nat, now: int, platformRows: seq<Platform>, results: seq<Classified>)
    requires FreshOwners(Execute(steps).claims)
    requires Apply(Execute(steps), Process(k, now, platformRows, results)) != Execute(steps)
    ensures k < |Execute(steps).claims|
    ensures LastClaim(Execute(steps), Execute(steps).claims[k].importId, k) && now < Execute(steps).claims[k].at + LEASE
  {
    CompletedExactlyOnce(steps);
    OnlyOwnersChange(Execute(steps), k, now, platformRows, results);
    OwnerIsLatest(Execute(steps), k, now);
  }

  /** The latest claim of an import carries this owner string, and its lease is not over. */
  ghost predicate HoldsLatest(s: State, id: Id, owner: Owner, now: int) {
    exists j :: LastClaim(s, id, j) && s.claims[j].owner == owner && now < s.claims[j].at + LEASE
  }

  /** In every reachable state a call changes anything exactly if its import is still staged and the latest claim of it
      carries the call's owner string and has an unexpired lease: the log of claims alone decides. */
  lemma LatestClaimDecides(steps: seq<Step>, k: nat, now: int, platformRows: seq<Platform>, results: seq<Classified>)
    requires var s := Execute(steps);
             && k < |s.claims| && s.claims[k].importId in s.imports
             && IsClassification(s.imports[s.claims[k].importId].providerRows, platformRows, results)
    ensures var s := Execute(steps); var entry := s.claims[k];
            Apply(s, Process(k, now, platformRows, results)) != s <==>
              s.imports[entry.importId].status == Staged && HoldsLatest(s, entry.importId, entry.owner, now)
  {
    var s := Execute(steps);
    var id, owner := s.claims[k].importId, s.claims[k].owner;
    CompletedExactlyOnce(steps);
    assert LockOk(s, id);
    OwningIsHolding(s, id, owner, now);
    if Owns(s, id, owner, now) { assert ProcessTx(s, id, owner, now, results).imports[id].status != Staged; }
  }

  lemma OwningIsHolding(s: State, id: Id, owner: Owner, now: int)
    requires LockOk(s, id) && id in s.imports && exists k :: 0 <= k < |s.claims| && s.claims[k].importId == id
    ensures Owns(s, id, owner, now) <==> s.imports[id].status == Staged && HoldsLatest(s, id, owner, now)
  {
    if s.imports[id].status == Staged {
      var last :| LastClaim(s, id, last) && s.imports[id].lockedBy == Some(s.claims[last].owner)
        && s.imports[id].leaseExpiresAt == Some(s.claims[last].at + LEASE);
      if HoldsLatest(s, id, owner, now) {
        var j :| LastClaim(s, id, j) && s.claims[j].owner == owner && now < s.claims[j].at + LEASE;
        assert j == last;
      }
    }
  }

  /** What an ended import looks like. */
  ghost predicate EndedWith(s: State, id: Id, results: seq<Classified>) {
    && id in s.imports
    && if Overflows(results) then
         s.imports[id].status == Failed("aggregate_overflow") && id !in s.results && EventsFor(s.events, id) == []
       else
         && s.imports[id].status == Completed && id in s.results && s.results[id] == results
         && EventsFor(s.events, id) == [EventOf(id, results)]
  }

  /** No staged import is stuck: in every reachable state it can be claimed from the time the lease of its latest claim is
      over, the claimer that processes it within its own lease ends it, and whatever happens later it stays ended so. */
  lemma StagedImportCanBeEnded(steps: seq<Step>, id: Id, owner: Owner, now: int, end: int,
                               platformRows: seq<Platform>, results: seq<Classified>, later: seq<Step>)
    requires var s := Execute(steps);
             && id in s.imports && s.imports[id].status == Staged
             && (forall k | LastClaim(s, id, k) :: s.claims[k].at + LEASE <= now) && end < now + LEASE
             && IsClassification(s.imports[id].providerRows, platformRows, results)
    ensures EndedWith(Execute(steps + [Claim(id, owner, now), Process(|Execute(steps).claims|, end, platformRows, results)] + later),
                      id, results)
  {
    var s := Execute(steps);
    var claim, process := Claim(id, owner, now), Process(|s.claims|, end, platformRows, results);
    CompletedExactlyOnce(steps);
    assert LockOk(s, id);
    assert Claimable(s, id, now);
    var run := steps + [claim, process];
    assert run[..|run| - 1] == steps + [claim] && (steps + [claim])[..|steps|] == steps;
    var claimed := ClaimTx(s, id, owner, now);
    assert Execute(steps + [claim]) == claimed;
    assert Execute(run) == ProcessTx(claimed, id, owner, end, results);
    StaysEnded(run, later, id, results);
  }

  lemma StaysEnded(steps: seq<Step>, later: seq<Step>, id: Id, results: seq<Classified>)
    requires var s := Execute(steps);
             && id in s.imports
             && (if Overflows(results) then s.imports[id].status == Failed("aggregate_overflow")
                 else s.imports[id].status == Completed && id in s.results && s.results[id] == results)
    ensures EndedWith(Execute(steps + later), id, results)
  {
    CompletedExactlyOnce(steps);
    CompletedExactlyOnce(steps + later);
    TerminalForever(steps, later, id);
    assert ImportOk(Execute(steps + later), id);
  }

  /** The step of a run that first uploads the import, accepted or not. */
  function FirstUpload(steps: seq<Step>, id: Id): Option<Step> {
    if steps == [] then None else
    var earlier, last := FirstUpload(steps[..|steps| - 1], id), steps[|steps| - 1];
    if earlier.None? && (last.Stage? || last.StageRejected?) && last.id == id then Some(last) else earlier
  }

  /** A rejected upload failed with its code; an accepted one keeps its rows and is staged, completed or failed for the size
      of its totals. */
  ghost predicate UploadedAs(s: State, upload: Option<Step>, id: Id) {
    match upload
    case Some(Stage(_, rows)) =>
      && id in s.imports && s.imports[id].providerRows == rows
      && s.imports[id].status in {Staged, Completed, Failed("aggregate_overflow")}
    case Some(StageRejected(_, code)) => id in s.imports && s.imports[id] == Import([], Failed(code), None, None)
    case Some(_) => false
    case None => id !in s.imports
  }

  /** Over every run an import is what its first upload made it. */
  lemma {:induction false} FirstUploadDecides(steps: seq<Step>, id: Id)
    ensures UploadedAs(Execute(steps), FirstUpload(steps, id), id)
    decreases |steps|
  {
    if steps != [] {
      FirstUploadDecides(steps[..|steps| - 1], id);
      var s, upload := Execute(steps[..|steps| - 1]), FirstUpload(steps[..|steps| - 1], id);
      match steps[|steps| - 1] {
        case Process(k, now, platformRows, results) => ProcessKeepsUpload(s, upload, k, now, platformRows, results, id);
        case Claim(other, owner, now) => ClaimKeepsUpload(s, upload, other, owner, now, id);
        case _ =>
      }
    }
  }

  lemma ProcessKeepsUpload(s: State, upload: Option<Step>, k: nat, now: int, platformRows: seq<Platform>, results: seq<Classified>, id: Id)
    requires UploadedAs(s, upload, id)
    ensures UploadedAs(Apply(s, Process(k, now, platformRows, results)), upload, id)
  {
  }

  lemma ClaimKeepsUpload(s: State, upload: Option<Step>, other: Id, owner: Owner, now: int, id: Id)
    requires UploadedAs(s, upload, id)
    ensures UploadedAs(Apply(s, Claim(other, owner, now)), upload, id)
  {
  }

  /** The event that counts as matched exactly the results whose rows agree and succeeded. */
  function ReportOf(id: Id, results: seq<Classified>): CompletionEvent {
    var matched := SumBy(results, OneIf(ExactMatch));
    CompletionEvent(id, matched, |results| - matched, Summarize(results, ETB).unexplained, Summarize(results, USD).unexplained)
  }

  lemma EventMeans(id: Id, providers: seq<Provider>, platformRows: seq<Platform>, results: seq<Classified>)
    requires IsClassification(providers, platformRows, results)
    ensures EventOf(id, results) == ReportOf(id, results)
  {
    MatchedMeans(providers, platformRows, results);
  }

  lemma CompletedEventMeans(s: State, id: Id)
    requires ImportOk(s, id) && id in s.imports && s.imports[id].status == Completed
    ensures id in s.results && EventsFor(s.events, id) == [ReportOf(id, s.results[id])]
  {
    var platformRows :| IsClassification(s.imports[id].providerRows, platformRows, s.results[id]);
    EventMeans(id, s.imports[id].providerRows, platformRows, s.results[id]);
  }

  /** What a completed import reports: one event, which counts as matched exactly the results whose rows agree in currency and
      amounts and succeeded, and carries the differences of both summaries. */
  lemma CompletedReportMeans(steps: seq<Step>, id: Id)
    requires id in Execute(steps).imports && Execute(steps).imports[id].status == Completed
    ensures var s := Execute(steps); id in s.results && EventsFor(s.events, id) == [ReportOf(id, s.results[id])]
  {
    CompletedExactlyOnce(steps);
    assert ImportOk(Execute(steps), id);
    CompletedEventMeans(Execute(steps), id);
  }

  /** One of the seven amounts of a summary is not a safe integer. */
  ghost predicate AmountTooLarge(s: Summary) {
    exists x :: x in [s.providerGross, s.providerFee, s.providerNet, s.platformGross, s.platformFee, s.platformNet, s.unexplained]
      && !(-9007199254740991 <= x <= 9007199254740991)
  }

  lemma FitsExactlyWhen(s: Summary)
    ensures SummaryFits(s) <==> !AmountTooLarge(s)
  {
    var amounts := [s.providerGross, s.providerFee, s.providerNet, s.platformGross, s.platformFee, s.platformNet, s.unexplained];
    assert amounts[0] in amounts && amounts[1] in amounts && amounts[2] in amounts && amounts[3] in amounts
           && amounts[4] in amounts && amounts[5] in amounts && amounts[6] in amounts;
  }

  /** An import fails on overflow exactly if one of the fourteen amounts of its summaries is not a safe integer. */
  lemma OverflowsExactlyWhen(results: seq<Classified>)
    ensures Overflows(results) <==> exists c: Currency :: AmountTooLarge(Summarize(results, c))
  {
    FitsExactlyWhen(Summarize(results, ETB));
    FitsExactlyWhen(Summarize(results, USD));
  }

  // ----- leases -----

  ghost predicate ClaimedApart(s: State, i: nat, j: nat) {
    i < j < |s.claims| && s.claims[i].importId == s.claims[j].importId ==> s.claims[i].at + 30000 <= s.claims[j].at
  }

  /** Whatever the clocks and however workers compete: two claims of one import are at least the lease of 30 seconds apart. */
  lemma {:induction false} ClaimsAreSeparated(steps: seq<Step>, i: nat, j: nat)
    ensures ClaimedApart(Execute(steps), i, j)
    decreases |steps|
  {
    if steps != [] {
      var s, step := Execute(steps[..|steps| - 1]), steps[|steps| - 1];
      forall x: nat, y: nat ensures ClaimedApart(s, x, y) { ClaimsAreSeparated(steps[..|steps| - 1], x, y); }
      CompletedExactlyOnce(steps[..|steps| - 1]);
      assert ClaimedApart(s, i, j);
      if step.Claim? {
        assert LockOk(s, step.id);
        NextClaimIsApart(s, step.id, step.owner, step.now, i, j);
      }
    }
  }

  /** When an import can be claimed, the leases of all earlier claims of it are over. */
  lemma EarlierLeasesAreOver(s: State, id: Id, now: int, k: nat)
    requires LockOk(s, id) && Claimable(s, id, now) && k < |s.claims| && s.claims[k].importId == id
    requires forall x: nat, y: nat :: ClaimedApart(s, x, y)
    ensures s.claims[k].at + 30000 <= now
  {
    var last: nat :| LastClaim(s, id, last) && s.imports[id].leaseExpiresAt == Some(s.claims[last].at + LEASE);
    assert ClaimedApart(s, k, last);
  }

  lemma NextClaimIsApart(s: State, id: Id, owner: Owner, now: int, i: nat, j: nat)
    requires LockOk(s, id) && forall x: nat, y: nat :: ClaimedApart(s, x, y)
    ensures ClaimedApart(ClaimTx(s, id, owner, now), i, j)
  {
    assert ClaimedApart(s, i, j);
    if Claimable(s, id, now) && i < j == |s.claims| && s.claims[i].importId == id { EarlierLeasesAreOver(s, id, now, i); }
  }

  /** In every reachable state a claim succeeds exactly if the import is staged and 30 seconds have passed since each earlier
      claim of it. */
  lemma ClaimedExactlyWhen(steps: seq<Step>, id: Id, owner: Owner, now: int)
    ensures var s := Execute(steps);
            ClaimTx(s, id, owner, now) != s <==>
              && id in s.imports && s.imports[id].status == Staged
              && forall k | 0 <= k < |s.claims| && s.claims[k].importId == id :: s.claims[k].at + 30000 <= now
  {
    var s := Execute(steps);
    assert LockOk(s, id) by { CompletedExactlyOnce(steps); }
    forall x: nat, y: nat ensures ClaimedApart(s, x, y) { ClaimsAreSeparated(steps, x, y); }
    if Claimable(s, id, now) {
      assert |ClaimTx(s, id, owner, now).claims| == |s.claims| + 1;
      forall k: nat | k < |s.claims| && s.claims[k].importId == id ensures s.claims[k].at + 30000 <= now {
        EarlierLeasesAreOver(s, id, now, k);
      }
    }
  }

  /** If two calls share an owner string, the earlier one can commit under the later one's lease. */
  lemma ReusedOwnerBreaksFencing()
    ensures var s := Execute([Stage(1, []), Claim(1, "w", 0), Claim(1, "w", 40000)]);
            && |s.claims| == 2 && s.claims[0].importId == 1 && !LastClaim(s, 1, 0)
            && Apply(s, Process(0, 50000, [], [])) != s
  {
    var steps := [Stage(1, []), Claim(1, "w", 0), Claim(1, "w", 40000)];
    assert steps[..2] == [Stage(1, []), Claim(1, "w", 0)] && steps[..2][..1] == [Stage(1, [])] && steps[..2][..1][..0] == [];
    var s1 := State(map[1 := Import([], Staged, None, None)], map[], map[], [], []);
    assert Execute(steps[..2][..1]) == s1;
    var s2 := ClaimTx(s1, 1, "w", 0);
    assert Execute(steps[..2]) == s2;
    var s3 := ClaimTx(s2, 1, "w", 40000);
    assert Execute(steps) == s3;
    assert s3.claims == [ClaimEntry("w", 1, 0), ClaimEntry("w", 1, 40000)];
    assert LastClaim(s3, 1, 1) && IsClassification([], [], []);
    LatestClaimDecides(steps, 0, 50000, [], []);
  }

  // ----- the tables in place -----

  class ReconciliationStore {
    var imports: map<Id, Import>
    var results: map<Id, seq<Classified>>
    var summaries: map<Id, map<Currency, Summary>>
    var events: seq<CompletionEvent>
    ghost var claims: seq<ClaimEntry>

    constructor ()
      ensures Tables() == EMPTY
    {
      imports, results, summaries, events, claims := map[], map[], map[], [], [];
    }

    ghost function Tables(): State
      reads this
    {
      State(imports, results, summaries, events, claims)
    }

    /** The claim statement on the row its query picked. */
    method ClaimImport(id: Id, owner: Owner, now: int) returns (claimed: bool)
      modifies `imports, `claims
      ensures Tables() == ClaimTx(old(Tables()), id, owner, now)
      ensures claimed <==> Claimable(old(Tables()), id, now)
    {
      claimed := id in imports && imports[id].status == Staged
                 && (imports[id].leaseExpiresAt.None? || imports[id].leaseExpiresAt.value <= now);
      if claimed {
        imports := imports[id := imports[id].(lockedBy := Some(owner), leaseExpiresAt := Some(now + LEASE))];
        claims := claims + [ClaimEntry(owner, id, now)];
      }
    }

    /** The processing transaction: classify, summarize, complete or fail, and write the evidence. */
    method ProcessImport(id: Id, owner: Owner, now: int, platformRows: seq<Platform>)
      returns (ownershipLost: bool, ghost classified: seq<Classified>)
      requires id in imports
      modifies this
      ensures IsClassification(old(imports)[id].providerRows, platformRows, classified)
      ensures Tables() == ProcessTx(old(Tables()), id, owner, now, classified)
      ensures ownershipLost <==> !Owns(old(Tables()), id, owner, now)
    {
      var row := imports[id];
      var rows := Classify(row.providerRows, platformRows);
      classified := rows;
      ownershipLost := !(row.status == Staged && row.lockedBy == Some(owner)
                         && row.leaseExpiresAt.Some? && now < row.leaseExpiresAt.value);
      if ownershipLost {
        return;
      }
      if Overflows(rows) {
        imports := imports[id := Finish(row, Failed("aggregate_overflow"))];
        return;
      }
      imports := imports[id := Finish(row, Completed)];
      results := results[id := rows];
      summaries := summaries[id := SummariesOf(rows)];
      events := events + [EventOf(id, rows)];
    }
  }
}
