/** What a classification conserves, and what the per-currency summaries of an import therefore say. */
module ReconciliationTotals {
  import opened Basics
  import opened Sums
  import opened ReconciliationClassifier

  ghost predicate DistinctRecords(rows: seq<Platform>) {
    forall q, q' | 0 <= q < q' < |rows| :: RecordKey(rows[q]) != RecordKey(rows[q'])
  }

  // ----- partition -----

  lemma {:induction false} FirstClaimerGets(providers: seq<Provider>, rows: seq<Platform>, n: nat, key: string) returns (i: nat, q: nat, via: MatchedBy)
    requires TakenBefore(providers, rows, n, key)
    ensures i < n && Gets(providers, rows, i, q, via) && RecordKey(rows[q]) == key
    decreases n
  {
    i :| i < n && Claims(providers, rows, i, key);
    if TakenBefore(providers, rows, i, key) {
      i, q, via := FirstClaimerGets(providers, rows, i, key);
    } else {
      q, via :| AsksFor(providers[i], rows, q, via) && RecordKey(rows[q]) == key;
    }
  }

  /** No record is given to two provider rows. */
  lemma GetsOnce(providers: seq<Provider>, rows: seq<Platform>, i: nat, q: nat, via: MatchedBy, i': nat, q': nat, via': MatchedBy)
    requires Gets(providers, rows, i, q, via) && Gets(providers, rows, i', q', via')
    requires RecordKey(rows[q]) == RecordKey(rows[q'])
    ensures i == i'
  {
    assert Claims(providers, rows, i, RecordKey(rows[q])) && Claims(providers, rows, i', RecordKey(rows[q']));
  }

  lemma {:induction false} UnclaimedAre(providers: seq<Provider>, rows: seq<Platform>, n: nat)
    requires n <= |rows|
    ensures Distinct(Unclaimed(providers, rows, n))
    ensures forall q: nat :: q in Unclaimed(providers, rows, n) <==>
              q < n && !TakenBefore(providers, rows, |providers|, RecordKey(rows[q]))
  {
    if n > 0 { UnclaimedAre(providers, rows, n - 1); }
  }

  /** A result holds a platform row exactly if it is the match of a provider row or an unclaimed record. */
  lemma HoldsPlatform(providers: seq<Provider>, rows: seq<Platform>, results: seq<Classified>, i: nat)
    requires IsClassification(providers, rows, results) && i < |providers|
    ensures results[i].platform.Some? <==> exists q: nat, via :: Gets(providers, rows, i, q, via)
    ensures results[i].platform.Some? ==>
              exists q: nat, via :: Gets(providers, rows, i, q, via) && results[i].platform == Some(rows[q])
                && results[i].matchedBy == Some(via) && results[i].bucket == Compare(providers[i], rows[q])
  {
    assert ResultOf(providers, rows, i, results[i]);
  }

  /** Record q went to one of the first n provider rows. */
  ghost predicate GotBefore(providers: seq<Provider>, rows: seq<Platform>, n: nat, q: nat) {
    exists i: nat, via | i < n :: Gets(providers, rows, i, q, via)
  }

  /** The positions of the platform rows that go to the first n provider rows. */
  ghost function Matched(providers: seq<Provider>, rows: seq<Platform>, n: nat): seq<nat> {
    if n == 0 then [] else
    var last: nat := n - 1;
    Matched(providers, rows, last)
    + (if exists q: nat, via :: Gets(providers, rows, last, q, via) then
         var q: nat, via :| Gets(providers, rows, last, q, via);
         [q]
       else [])
  }

  lemma {:induction false} MatchedAre(providers: seq<Provider>, rows: seq<Platform>, n: nat)
    ensures Distinct(Matched(providers, rows, n))
    ensures forall q: nat :: q in Matched(providers, rows, n) <==> GotBefore(providers, rows, n, q)
  {
    if n > 0 {
      var last: nat := n - 1;
      MatchedAre(providers, rows, last);
      if q: nat, via :| Gets(providers, rows, last, q, via) {
        OneMoreMatched(providers, rows, last, q, via, Matched(providers, rows, last));
      }
    }
  }

  lemma OneMoreMatched(providers: seq<Provider>, rows: seq<Platform>, i: nat, q: nat, via: MatchedBy, list: seq<nat>)
    requires Gets(providers, rows, i, q, via) && Distinct(list)
    requires forall x: nat :: x in list <==> GotBefore(providers, rows, i, x)
    ensures Distinct(list + [q]) && forall x: nat :: x in list + [q] <==> GotBefore(providers, rows, i + 1, x)
    ensures forall q': nat, via' :: Gets(providers, rows, i, q', via') ==> q' == q
  {
    forall q': nat, via' | Gets(providers, rows, i, q', via') ensures q' == q {
      AsksForOne(providers[i], rows, q, via, q', via');
    }
    forall i': nat, via' | i' < i ensures !Gets(providers, rows, i', q, via') {
      if Gets(providers, rows, i', q, via') { GetsOnce(providers, rows, i, q, via, i', q, via'); }
    }
    DistinctAppend(list, q);
  }

  /** Every provider row is in exactly one result, at its own position; every platform row is in exactly one result. */
  lemma ClassificationIsPartition(providers: seq<Provider>, rows: seq<Platform>, results: seq<Classified>)
    requires IsClassification(providers, rows, results) && DistinctRecords(rows)
    ensures forall i | 0 <= i < |results| ::
              if i < |providers| then results[i].provider == Some(providers[i])
              else results[i].provider == None && results[i].bucket == PlatformOnly
    ensures forall q | 0 <= q < |rows| :: InSomeResult(rows, results, q)
    ensures forall q, r, r' | 0 <= q < |rows| && InResult(rows, results, q, r) && InResult(rows, results, q, r') :: r == r'
  {
    forall i | 0 <= i < |results|
      ensures if i < |providers| then results[i].provider == Some(providers[i])
              else results[i].provider == None && results[i].bucket == PlatformOnly
    {
      if i < |providers| {
        assert ResultOf(providers, rows, i, results[i]);
      } else {
        assert results[|providers| + (i - |providers|)] == PlatformOnlyResult(rows[Unclaimed(providers, rows, |rows|)[i - |providers|]]);
      }
    }
    forall q | 0 <= q < |rows| ensures InSomeResult(rows, results, q) {
      RowLostExactlyWhen(providers, rows, results, q);
    }
    forall q, r, r' | 0 <= q < |rows| && InResult(rows, results, q, r) && InResult(rows, results, q, r') ensures r == r' {
      if r <= r' { RecordIsOnce(providers, rows, results, q, r, r'); } else { RecordIsOnce(providers, rows, results, q, r', r); }
    }
  }

  ghost predicate InResult(rows: seq<Platform>, results: seq<Classified>, q: int, r: int) {
    0 <= q < |rows| && 0 <= r < |results| && results[r].platform == Some(rows[q])
  }

  ghost predicate InSomeResult(rows: seq<Platform>, results: seq<Classified>, q: int) {
    exists r :: InResult(rows, results, q, r)
  }

  /** A result that holds record q as a match has a provider row that got it. */
  lemma MatchHolds(providers: seq<Provider>, rows: seq<Platform>, results: seq<Classified>, q: nat, r: nat) returns (via: MatchedBy)
    requires IsClassification(providers, rows, results) && DistinctRecords(rows)
    requires InResult(rows, results, q, r) && r < |providers|
    ensures Gets(providers, rows, r, q, via) && TakenBefore(providers, rows, |providers|, RecordKey(rows[q]))
  {
    HoldsPlatform(providers, rows, results, r);
    var a: nat;
    a, via :| Gets(providers, rows, r, a, via) && results[r].platform == Some(rows[a]);
    assert a == q;
    assert Claims(providers, rows, r, RecordKey(rows[q]));
  }

  /** A result that holds record q as platform-only is at the position of the unclaimed record. */
  lemma OnlyHolds(providers: seq<Provider>, rows: seq<Platform>, results: seq<Classified>, q: nat, r: nat)
    requires IsClassification(providers, rows, results) && DistinctRecords(rows)
    requires InResult(rows, results, q, r) && r >= |providers|
    ensures Unclaimed(providers, rows, |rows|)[r - |providers|] == q
    ensures !TakenBefore(providers, rows, |providers|, RecordKey(rows[q]))
  {
    UnclaimedAre(providers, rows, |rows|);
    var unclaimed := Unclaimed(providers, rows, |rows|);
    var k := r - |providers|;
    assert results[|providers| + k] == PlatformOnlyResult(rows[unclaimed[k]]);
    assert unclaimed[k] in unclaimed;
  }

  lemma RecordIsOnce(providers: seq<Provider>, rows: seq<Platform>, results: seq<Classified>, q: nat, r: nat, r': nat)
    requires IsClassification(providers, rows, results) && DistinctRecords(rows)
    requires InResult(rows, results, q, r) && InResult(rows, results, q, r') && r <= r'
    ensures r == r'
  {
    if r' < |providers| {
      var via := MatchHolds(providers, rows, results, q, r);
      var via' := MatchHolds(providers, rows, results, q, r');
      GetsOnce(providers, rows, r, q, via, r', q, via');
    } else {
      OnlyHolds(providers, rows, results, q, r');
      if r < |providers| {
        var via := MatchHolds(providers, rows, results, q, r);
      } else {
        OnlyHolds(providers, rows, results, q, r);
        UnclaimedAre(providers, rows, |rows|);
      }
    }
  }

  /** A platform-only result holds a row whose record key nobody claims. */
  lemma PlatformOnlyIsUnclaimed(providers: seq<Provider>, rows: seq<Platform>, results: seq<Classified>, r: nat)
    requires IsClassification(providers, rows, results) && |providers| <= r < |results|
    ensures results[r].platform.Some? && !TakenBefore(providers, rows, |providers|, RecordKey(results[r].platform.value))
  {
    UnclaimedAre(providers, rows, |rows|);
    var unclaimed := Unclaimed(providers, rows, |rows|);
    var k := r - |providers|;
    assert unclaimed[k] in unclaimed && results[|providers| + k] == PlatformOnlyResult(rows[unclaimed[k]]);
  }

  /** All results that hold a row of a claimed key hold the row its claimer got. */
  lemma OnlyGetterHolds(providers: seq<Provider>, rows: seq<Platform>, results: seq<Classified>, q: nat,
                        i: nat, q': nat, via: MatchedBy, r: nat)
    requires IsClassification(providers, rows, results) && InResult(rows, results, q, r)
    requires Gets(providers, rows, i, q', via) && RecordKey(rows[q']) == RecordKey(rows[q])
    ensures rows[q'] == rows[q]
  {
    if r < |providers| {
      HoldsPlatform(providers, rows, results, r);
      var b: nat, other :| Gets(providers, rows, r, b, other) && results[r].platform == Some(rows[b]);
      GetsOnce(providers, rows, i, q', via, r, b, other);
      AsksForOne(providers[i], rows, q', via, b, other);
    } else {
      PlatformOnlyIsUnclaimed(providers, rows, results, r);
      assert Claims(providers, rows, i, RecordKey(rows[q]));
    }
  }

  /** A claimed record is in the result of the row that gets it, and nowhere else. */
  lemma ClaimedIsWithItsGetter(providers: seq<Provider>, rows: seq<Platform>, results: seq<Classified>, q: nat,
                               i: nat, q': nat, via: MatchedBy)
    requires IsClassification(providers, rows, results) && q < |rows|
    requires Gets(providers, rows, i, q', via) && RecordKey(rows[q']) == RecordKey(rows[q])
    ensures InSomeResult(rows, results, q) <==> rows[q'] == rows[q]
  {
    HoldsPlatform(providers, rows, results, i);
    var a: nat, own :| Gets(providers, rows, i, a, own) && results[i].platform == Some(rows[a]);
    AsksForOne(providers[i], rows, q', via, a, own);
    if rows[q'] == rows[q] { assert InResult(rows, results, q, i); }
    forall r | InResult(rows, results, q, r) ensures rows[q'] == rows[q] {
      OnlyGetterHolds(providers, rows, results, q, i, q', via, r);
    }
  }

  /** A platform row is in no result exactly if a provider row gets a different row with the same record key. */
  lemma RowLostExactlyWhen(providers: seq<Provider>, rows: seq<Platform>, results: seq<Classified>, q: nat)
    requires IsClassification(providers, rows, results) && q < |rows|
    ensures !InSomeResult(rows, results, q) <==>
              exists i: nat, q': nat, via :: Gets(providers, rows, i, q', via)
                && RecordKey(rows[q']) == RecordKey(rows[q]) && rows[q'] != rows[q]
  {
    var key := RecordKey(rows[q]);
    if TakenBefore(providers, rows, |providers|, key) {
      var i, q', via := FirstClaimerGets(providers, rows, |providers|, key);
      ClaimedIsWithItsGetter(providers, rows, results, q, i, q', via);
    } else {
      UnclaimedAre(providers, rows, |rows|);
      var k :| 0 <= k < |Unclaimed(providers, rows, |rows|)| && Unclaimed(providers, rows, |rows|)[k] == q;
      assert InResult(rows, results, q, |providers| + k);
    }
    forall i: nat, q': nat, via | Gets(providers, rows, i, q', via) && RecordKey(rows[q']) == key && rows[q'] != rows[q]
      ensures !InSomeResult(rows, results, q)
    {
      ClaimedIsWithItsGetter(providers, rows, results, q, i, q', via);
    }
  }

  /** A record key that a provider row claims and that two different platform rows carry. */
  ghost predicate SharedClaimedKey(providers: seq<Provider>, rows: seq<Platform>, j: nat, q: nat, q': nat) {
    && q < |rows| && q' < |rows| && Claims(providers, rows, j, RecordKey(rows[q]))
    && RecordKey(rows[q]) == RecordKey(rows[q']) && rows[q] != rows[q']
  }

  /** Every platform row is in some result exactly if no claimed record key belongs to two different platform rows. */
  lemma NoRowLostExactlyWhen(providers: seq<Provider>, rows: seq<Platform>, results: seq<Classified>)
    requires IsClassification(providers, rows, results)
    ensures (forall q: nat | q < |rows| :: InSomeResult(rows, results, q)) <==>
              !(exists j: nat, q: nat, q': nat :: SharedClaimedKey(providers, rows, j, q, q'))
  {
    if j: nat, q: nat, q': nat :| SharedClaimedKey(providers, rows, j, q, q') {
      var i, got, via := FirstClaimerGets(providers, rows, |providers|, RecordKey(rows[q]));
      var lost := if rows[got] == rows[q] then q' else q;
      ClaimedIsWithItsGetter(providers, rows, results, lost, i, got, via);
    }
    forall q: nat | q < |rows| && !InSomeResult(rows, results, q)
      ensures exists j: nat, a: nat, b: nat :: SharedClaimedKey(providers, rows, j, a, b)
    {
      RowLostExactlyWhen(providers, rows, results, q);
      var i: nat, q': nat, via :| Gets(providers, rows, i, q', via) && RecordKey(rows[q']) == RecordKey(rows[q]) && rows[q'] != rows[q];
      assert SharedClaimedKey(providers, rows, i, q', q);
    }
  }

  /** Two platform rows with one record key: matching the first swallows the second. */
  lemma SharedRecordKeyLosesRow(results: seq<Classified>)
    requires var a := Platform("payment", "p1", "payment", "ref-a", None, ETB, 10, 1, 9);
             var p := Provider("t1", "payment", "ref-a", None, ETB, 10, 1, 9, true);
             IsClassification([p], [a, a.(providerRef := "ref-b")], results)
    ensures !InSomeResult([Platform("payment", "p1", "payment", "ref-a", None, ETB, 10, 1, 9),
                           Platform("payment", "p1", "payment", "ref-b", None, ETB, 10, 1, 9)], results, 1)
  {
    var a := Platform("payment", "p1", "payment", "ref-a", None, ETB, 10, 1, 9);
    var b := a.(providerRef := "ref-b");
    var p := Provider("t1", "payment", "ref-a", None, ETB, 10, 1, 9, true);
    var providers, rows := [p], [a, b];
    assert Key("payment", "ref-b")[|"payment:ref-"|] != Key("payment", "ref-a")[|"payment:ref-"|];
    assert OnlyRow(rows, ProviderRefKey, Key("payment", "ref-a"), 0);
    var first: nat, own := 0, ByProviderRef;
    assert AsksFor(providers[0], rows, first, own) && RecordKey(rows[first]) == RecordKey(rows[0]);
    assert FirstSeen(providers, 0);
    assert Claims(providers, rows, 0, RecordKey(rows[0]));
    assert RecordKey(rows[1]) == RecordKey(rows[0]);
    assert TakenBefore(providers, rows, 1, RecordKey(rows[0]));
    assert Unclaimed(providers, rows, 0) == [] && Unclaimed(providers, rows, 1) == [] && Unclaimed(providers, rows, 2) == [];
    assert ResultOf(providers, rows, 0, results[0]);
    assert Gets(providers, rows, 0, first, own);
    var q: nat, via :| Gets(providers, rows, 0, q, via) && results[0].platform == Some(rows[q]);
    AsksForOne(p, rows, 0, ByProviderRef, q, via);
  }

  // ----- conservation -----

  /** The measure of a result's provider row, and of its platform row. */
  function OfProvider(w: Provider -> int): Classified -> int {
    (r: Classified) => if r.provider.Some? then w(r.provider.value) else 0
  }

  function OfPlatform(w: Platform -> int): Classified -> int {
    (r: Classified) => if r.platform.Some? then w(r.platform.value) else 0
  }

  /** Any measure of the provider rows is conserved. */
  lemma ProvidersConserved(providers: seq<Provider>, rows: seq<Platform>, results: seq<Classified>, w: Provider -> int)
    requires IsClassification(providers, rows, results)
    ensures SumBy(results, OfProvider(w)) == SumBy(providers, w)
  {
    var n := |providers|;
    assert results == results[..n] + results[n..];
    SumByAppend(results[..n], results[n..], OfProvider(w));
    forall i | 0 <= i < n ensures OfProvider(w)(results[..n][i]) == w(providers[i]) {
      assert ResultOf(providers, rows, i, results[i]);
    }
    SumByCong(results[..n], OfProvider(w), providers, w);
    forall i | 0 <= i < |results[n..]| ensures OfProvider(w)(results[n..][i]) == 0 {
      assert results[n + i] == PlatformOnlyResult(rows[Unclaimed(providers, rows, |rows|)[i]]);
    }
    SumByZero(results[n..], OfProvider(w));
  }

  lemma {:induction false} SumByZero<T>(xs: seq<T>, f: T -> int)
    requires forall i | 0 <= i < |xs| :: f(xs[i]) == 0
    ensures SumBy(xs, f) == 0
  {
    if xs != [] { SumByZero(xs[..|xs| - 1], f); }
  }

  lemma {:induction false} MatchedSum(providers: seq<Provider>, rows: seq<Platform>, results: seq<Classified>, n: nat,
                                      w: Platform -> int, at: nat -> int)
    requires IsClassification(providers, rows, results) && n <= |providers|
    requires forall q: nat | q < |rows| :: at(q) == w(rows[q])
    ensures SumBy(results[..n], OfPlatform(w)) == SumBy(Matched(providers, rows, n), at)
  {
    if n > 0 {
      var last: nat := n - 1;
      MatchedSum(providers, rows, results, last, w, at);
      assert results[..n][..last] == results[..last];
      NextMatched(providers, rows, results, last);
      var before, after := Matched(providers, rows, last), Matched(providers, rows, n);
      if after != before { assert after[..|after| - 1] == before; }
    }
  }

  /** A result that holds a platform row holds the matched one. */
  lemma NextMatched(providers: seq<Provider>, rows: seq<Platform>, results: seq<Classified>, last: nat)
    requires IsClassification(providers, rows, results) && last < |providers|
    ensures var before, after := Matched(providers, rows, last), Matched(providers, rows, last + 1);
            match results[last].platform
            case None => after == before
            case Some(p) => exists q: nat | q < |rows| :: after == before + [q] && rows[q] == p
  {
    HoldsPlatform(providers, rows, results, last);
    if results[last].platform.Some? {
      var q: nat, via :| Gets(providers, rows, last, q, via)
        && Matched(providers, rows, last + 1) == Matched(providers, rows, last) + [q];
      var q': nat, via' :| Gets(providers, rows, last, q', via') && results[last].platform == Some(rows[q']);
      AsksForOne(providers[last], rows, q, via, q', via');
    }
  }

  lemma UnclaimedSum(providers: seq<Provider>, rows: seq<Platform>, results: seq<Classified>, w: Platform -> int, at: nat -> int)
    requires IsClassification(providers, rows, results)
    requires forall q: nat | q < |rows| :: at(q) == w(rows[q])
    ensures SumBy(results[|providers|..], OfPlatform(w)) == SumBy(Unclaimed(providers, rows, |rows|), at)
  {
    var tail, unclaimed := results[|providers|..], Unclaimed(providers, rows, |rows|);
    forall k | 0 <= k < |unclaimed| ensures OfPlatform(w)(tail[k]) == at(unclaimed[k]) {
      assert results[|providers| + k] == PlatformOnlyResult(rows[unclaimed[k]]);
    }
    SumByCong(tail, OfPlatform(w), unclaimed, at);
  }

  /** The positions of the platform rows that the results hold: the matched ones, then the unclaimed ones. */
  ghost function Held(providers: seq<Provider>, rows: seq<Platform>): seq<nat> {
    Matched(providers, rows, |providers|) + Unclaimed(providers, rows, |rows|)
  }

  lemma HeldSum(providers: seq<Provider>, rows: seq<Platform>, results: seq<Classified>, w: Platform -> int, at: nat -> int)
    requires IsClassification(providers, rows, results)
    requires forall q: nat | q < |rows| :: at(q) == w(rows[q])
    ensures SumBy(results, OfPlatform(w)) == SumBy(Held(providers, rows), at)
  {
    var n := |providers|;
    assert results == results[..n] + results[n..];
    SumByAppend(results[..n], results[n..], OfPlatform(w));
    MatchedSum(providers, rows, results, n, w, at);
    UnclaimedSum(providers, rows, results, w, at);
    SumByAppend(Matched(providers, rows, n), Unclaimed(providers, rows, |rows|), at);
  }

  /** No record key that a provider row claims belongs to two platform rows. */
  ghost predicate ClaimsSingleRows(providers: seq<Provider>, rows: seq<Platform>) {
    forall j: nat, q: nat, q': nat | q < |rows| && q' < |rows| ::
      Claims(providers, rows, j, RecordKey(rows[q])) && RecordKey(rows[q]) == RecordKey(rows[q']) ==> q == q'
  }

  /** A platform row is held at most once; one that is not held shares its claimed key with the row that went to the claimer. */
  lemma HeldAre(providers: seq<Provider>, rows: seq<Platform>)
    ensures Distinct(Held(providers, rows)) && forall q: nat | q in Held(providers, rows) :: q < |rows|
    ensures forall q: nat :: q in Held(providers, rows) <==>
              q < |rows| && (GotBefore(providers, rows, |providers|, q) || !TakenBefore(providers, rows, |providers|, RecordKey(rows[q])))
  {
    MatchedAre(providers, rows, |providers|);
    UnclaimedAre(providers, rows, |rows|);
    var matched, unclaimed := Matched(providers, rows, |providers|), Unclaimed(providers, rows, |rows|);
    forall q: nat | q in matched ensures q < |rows| && TakenBefore(providers, rows, |providers|, RecordKey(rows[q])) {
      var i: nat, via :| i < |providers| && Gets(providers, rows, i, q, via);
      assert Claims(providers, rows, i, RecordKey(rows[q]));
    }
    forall i, j | 0 <= i < j < |matched + unclaimed| ensures (matched + unclaimed)[i] != (matched + unclaimed)[j] {
      if i < |matched| <= j { assert matched[i] in matched && unclaimed[j - |matched|] in unclaimed; }
    }
  }

  /** Of two rows with one claimed key only one is held. */
  lemma SharedKeyHeldOnce(providers: seq<Provider>, rows: seq<Platform>, j: nat, q: nat, q': nat)
    requires q < |rows| && q' < |rows| && q != q'
    requires Claims(providers, rows, j, RecordKey(rows[q])) && RecordKey(rows[q]) == RecordKey(rows[q'])
    ensures q !in Held(providers, rows) || q' !in Held(providers, rows)
  {
    HeldAre(providers, rows);
    if q in Held(providers, rows) && q' in Held(providers, rows) {
      var i: nat, via :| i < |providers| && Gets(providers, rows, i, q, via);
      var i': nat, via' :| i' < |providers| && Gets(providers, rows, i', q', via');
      GetsOnce(providers, rows, i, q, via, i', q', via');
      AsksForOne(providers[i], rows, q, via, q', via');
    }
  }

  /** If claimed keys are not shared, every platform row is held. */
  lemma AllHeld(providers: seq<Provider>, rows: seq<Platform>)
    requires ClaimsSingleRows(providers, rows)
    ensures forall q: nat :: q in Held(providers, rows) <==> q < |rows|
  {
    HeldAre(providers, rows);
    forall q: nat | q < |rows| ensures q in Held(providers, rows) {
      if TakenBefore(providers, rows, |providers|, RecordKey(rows[q])) {
        var i, q', via := FirstClaimerGets(providers, rows, |providers|, RecordKey(rows[q]));
        assert Claims(providers, rows, i, RecordKey(rows[q]));
      }
    }
  }

  function Positions(n: nat): (r: seq<nat>)
    ensures |r| == n && forall q: nat | q < n :: r[q] == q
  {
    seq(n, (q: nat) => q)
  }

  lemma SumOverPositions(rows: seq<Platform>, list: seq<nat>, w: Platform -> int, at: nat -> int)
    requires Distinct(list) && forall q: nat :: q in list <==> q < |rows|
    requires forall q: nat | q < |rows| :: at(q) == w(rows[q])
    ensures SumBy(list, at) == SumBy(rows, w)
  {
    var all := Positions(|rows|);
    forall q: nat ensures q in Range(all) <==> q in Range(list) {
      if q < |rows| { assert all[q] == q; }
    }
    SumByPermutation(list, all, at);
    SumByCong(all, at, rows, w);
  }

  /** Any measure of the platform rows is conserved, provided no claimed record key is shared. */
  lemma PlatformsConserved(providers: seq<Provider>, rows: seq<Platform>, results: seq<Classified>, w: Platform -> int)
    requires IsClassification(providers, rows, results) && ClaimsSingleRows(providers, rows)
    ensures SumBy(results, OfPlatform(w)) == SumBy(rows, w)
  {
    var at := (q: nat) => if q < |rows| then w(rows[q]) else 0;
    HeldSum(providers, rows, results, w, at);
    HeldAre(providers, rows);
    AllHeld(providers, rows);
    SumOverPositions(rows, Held(providers, rows), w, at);
  }

  lemma {:induction false} CountIsLength<T>(xs: seq<T>, one: T -> int)
    requires forall i | 0 <= i < |xs| :: one(xs[i]) == 1
    ensures SumBy(xs, one) == |xs|
  {
    if xs != [] { CountIsLength(xs[..|xs| - 1], one); }
  }

  /** A duplicate-free list of positions that misses one is shorter. */
  lemma MissingOneIsShorter(list: seq<nat>, n: nat, missing: nat)
    requires Distinct(list) && missing < n && missing !in list && forall q | q in list :: q < n
    ensures |list| < n
  {
    var all := Positions(n);
    var one := (q: nat) => 1;
    SumOfList(list, one, seq(|list|, i => 1));
    SumOfList(all, one, seq(n, i => 1));
    assert all[missing] == missing;
    forall q: nat | q in Range(list) ensures q in Range(all) - {missing} { assert all[q] == q; }
    var rest := Range(all) - {missing} - Range(list);
    assert Range(all) - {missing} == Range(list) + rest;
  }

  /** And otherwise not even their number is: the condition is exact. */
  lemma SharedKeyFallsShort(providers: seq<Provider>, rows: seq<Platform>, results: seq<Classified>)
    requires IsClassification(providers, rows, results) && !ClaimsSingleRows(providers, rows)
    ensures SumBy(results, OfPlatform((p: Platform) => 1)) < |rows| == SumBy(rows, (p: Platform) => 1)
  {
    var one := (p: Platform) => 1;
    var at := (q: nat) => 1;
    var j: nat, q: nat, q': nat :| q < |rows| && q' < |rows| && Claims(providers, rows, j, RecordKey(rows[q]))
      && RecordKey(rows[q]) == RecordKey(rows[q']) && q != q';
    SharedKeyHeldOnce(providers, rows, j, q, q');
    HeldSum(providers, rows, results, one, at);
    HeldAre(providers, rows);
    CountIsLength(Held(providers, rows), at);
    CountIsLength(rows, one);
    MissingOneIsShorter(Held(providers, rows), |rows|, if q in Held(providers, rows) then q' else q);
  }

  /** What the platform reader delivers: the record type is the event type, which has no colon, and a public identifier
      occurs once per event type. */
  ghost predicate FromReader(rows: seq<Platform>) {
    && (forall q | 0 <= q < |rows| :: rows[q].recordType == rows[q].eventType && ':' !in rows[q].recordType)
    && forall q, q' | 0 <= q < q' < |rows| :: (rows[q].eventType, rows[q].publicRef) != (rows[q'].eventType, rows[q'].publicRef)
  }

  /** The reader's rows are neither lost nor counted twice, whatever the provider reports. */
  lemma ReaderRowsAreConserved(providers: seq<Provider>, rows: seq<Platform>, results: seq<Classified>, w: Platform -> int)
    requires IsClassification(providers, rows, results) && FromReader(rows)
    ensures DistinctRecords(rows) && ClaimsSingleRows(providers, rows)
    ensures forall q: nat | q < |rows| :: InSomeResult(rows, results, q)
    ensures SumBy(results, OfPlatform(w)) == SumBy(rows, w)
  {
    forall q, q' | 0 <= q < q' < |rows| ensures RecordKey(rows[q]) != RecordKey(rows[q']) {
      if RecordKey(rows[q]) == RecordKey(rows[q']) {
        KeyIsInjective(rows[q].recordType, rows[q].publicRef, rows[q'].recordType, rows[q'].publicRef);
      }
    }
    ClassificationIsPartition(providers, rows, results);
    PlatformsConserved(providers, rows, results, w);
  }

  // ----- summaries -----

  function Select(results: seq<Classified>, c: Currency): seq<Classified> {
    if results == [] then [] else
    var n := |results| - 1;
    Select(results[..n], c) + (if results[n].currency == c then [results[n]] else [])
  }

  function CountOf(b: Bucket): Classified -> int {
    (r: Classified) => if r.bucket == b then 1 else 0
  }

  datatype Summary = Summary(
    providerGross: int, providerFee: int, providerNet: int, platformGross: int, platformFee: int, platformNet: int,
    unexplained: int, counts: map<Bucket, int>)

  function Summarize(results: seq<Classified>, c: Currency): Summary {
    var selected := Select(results, c);
    var providerNet := SumBy(selected, OfProvider((p: Provider) => p.net));
    var platformNet := SumBy(selected, OfPlatform((p: Platform) => p.net));
    Summary(
      SumBy(selected, OfProvider((p: Provider) => p.gross)), SumBy(selected, OfProvider((p: Provider) => p.fee)), providerNet,
      SumBy(selected, OfPlatform((p: Platform) => p.gross)), SumBy(selected, OfPlatform((p: Platform) => p.fee)), platformNet,
      providerNet - platformNet,
      map b: Bucket :: SumBy(selected, CountOf(b)))
  }

  /** A result belongs to the summary of its own currency. */
  lemma {:induction false} SelectSums(results: seq<Classified>, c: Currency, f: Classified -> int, g: Classified -> int)
    requires forall i | 0 <= i < |results| :: g(results[i]) == if results[i].currency == c then f(results[i]) else 0
    ensures SumBy(Select(results, c), f) == SumBy(results, g)
    decreases |results|
  {
    if results != [] {
      var n := |results| - 1;
      SelectSums(results[..n], c, f, g);
      var selected := Select(results[..n], c);
      assert (selected + [results[n]])[..|selected|] == selected && selected + [] == selected;
    }
  }

  /** The two summaries together cover every result. */
  lemma BothCurrencies(results: seq<Classified>, f: Classified -> int)
    ensures SumBy(Select(results, ETB), f) + SumBy(Select(results, USD), f) == SumBy(results, f)
  {
    var etb := (r: Classified) => if r.currency == ETB then f(r) else 0;
    var usd := (r: Classified) => if r.currency == USD then f(r) else 0;
    SelectSums(results, ETB, f, etb);
    SelectSums(results, USD, f, usd);
    SumByAdd(results, etb, usd, f);
  }

  /** Provider totals of a summary are the totals of the provider rows of that currency. */
  lemma SummaryProviders(providers: seq<Provider>, rows: seq<Platform>, results: seq<Classified>, c: Currency, w: Provider -> int)
    requires IsClassification(providers, rows, results)
    ensures SumBy(Select(results, c), OfProvider(w)) == SumBy(providers, (p: Provider) => if p.currency == c then w(p) else 0)
  {
    var own := (p: Provider) => if p.currency == c then w(p) else 0;
    forall i | 0 <= i < |results|
      ensures OfProvider(own)(results[i]) == if results[i].currency == c then OfProvider(w)(results[i]) else 0
    {
      if i < |providers| {
        assert ResultOf(providers, rows, i, results[i]);
      } else {
        assert results[|providers| + (i - |providers|)] == PlatformOnlyResult(rows[Unclaimed(providers, rows, |rows|)[i - |providers|]]);
      }
    }
    SelectSums(results, c, OfProvider(w), OfProvider(own));
    ProvidersConserved(providers, rows, results, own);
  }

  /** What a currency mismatch moves into the summary of currency c. */
  function Shift(c: Currency, w: Platform -> int): Classified -> int {
    (r: Classified) =>
      if r.bucket == CurrencyMismatch && r.platform.Some?
      then (if r.currency == c then w(r.platform.value) else 0) - (if r.platform.value.currency == c then w(r.platform.value) else 0)
      else 0
  }

  /** Platform totals of a summary are off from the platform rows of that currency only by the currency mismatches. */
  lemma SummaryPlatforms(providers: seq<Provider>, rows: seq<Platform>, results: seq<Classified>, c: Currency, w: Platform -> int)
    requires IsClassification(providers, rows, results) && ClaimsSingleRows(providers, rows)
    ensures SumBy(Select(results, c), OfPlatform(w))
         == SumBy(rows, (p: Platform) => if p.currency == c then w(p) else 0) + SumBy(results, Shift(c, w))
  {
    var own := (p: Platform) => if p.currency == c then w(p) else 0;
    var selected := (r: Classified) => if r.currency == c then OfPlatform(w)(r) else 0;
    SelectSums(results, c, OfPlatform(w), selected);
    forall i | 0 <= i < |results| ensures selected(results[i]) == OfPlatform(own)(results[i]) + Shift(c, w)(results[i]) {
      OnlyMismatchesDiffer(providers, rows, results, i);
    }
    SumByAdd(results, OfPlatform(own), Shift(c, w), selected);
    PlatformsConserved(providers, rows, results, own);
  }

  lemma OnlyMismatchesDiffer(providers: seq<Provider>, rows: seq<Platform>, results: seq<Classified>, i: nat)
    requires IsClassification(providers, rows, results) && i < |results|
    ensures results[i].platform.Some? ==>
              (results[i].platform.value.currency != results[i].currency <==> results[i].bucket == CurrencyMismatch)
  {
    if i < |providers| {
      assert ResultOf(providers, rows, i, results[i]);
    } else {
      assert results[|providers| + (i - |providers|)] == PlatformOnlyResult(rows[Unclaimed(providers, rows, |rows|)[i - |providers|]]);
    }
  }

  /** The unexplained differences of the two currencies add up to the difference of the inputs. */
  lemma UnexplainedIsInputDifference(providers: seq<Provider>, rows: seq<Platform>, results: seq<Classified>)
    requires IsClassification(providers, rows, results) && ClaimsSingleRows(providers, rows)
    ensures Summarize(results, ETB).unexplained + Summarize(results, USD).unexplained
         == SumBy(providers, (p: Provider) => p.net) - SumBy(rows, (p: Platform) => p.net)
  {
    var a, b := (p: Provider) => p.net, (p: Platform) => p.net;
    BothCurrencies(results, OfProvider(a));
    BothCurrencies(results, OfPlatform(b));
    ProvidersConserved(providers, rows, results, a);
    PlatformsConserved(providers, rows, results, b);
  }

  // ----- what a report says -----

  /** The result pairs a provider row with a platform row of the same currency and the same three amounts. */
  predicate Agrees(r: Classified) {
    && r.provider.Some? && r.platform.Some?
    && var p, q := r.provider.value, r.platform.value;
       p.currency == q.currency && p.gross == q.gross && p.fee == q.fee && p.net == q.net
  }

  predicate ExactMatch(r: Classified) { Agrees(r) && r.provider.value.succeeded }

  predicate FailedMatch(r: Classified) { Agrees(r) && !r.provider.value.succeeded }

  predicate AmountsDiffer(r: Classified) {
    && r.provider.Some? && r.platform.Some? && r.provider.value.currency == r.platform.value.currency
    && !(r.provider.value.gross == r.platform.value.gross && r.provider.value.fee == r.platform.value.fee
         && r.provider.value.net == r.platform.value.net)
  }

  predicate CurrenciesDiffer(r: Classified) {
    r.provider.Some? && r.platform.Some? && r.provider.value.currency != r.platform.value.currency
  }

  /** Every result of a classification is in the bucket that its rows call for, with the reason of that bucket. */
  lemma BucketMeans(providers: seq<Provider>, rows: seq<Platform>, results: seq<Classified>, i: nat)
    requires IsClassification(providers, rows, results) && i < |results|
    ensures var r := results[i];
            var duplicate := i < |providers| && exists j | 0 <= j < i :: providers[j].transactionId == providers[i].transactionId;
            && (r.bucket == MatchedExact <==> ExactMatch(r)) && (r.bucket == StatusMismatch <==> FailedMatch(r))
            && (r.bucket == AmountMismatch <==> AmountsDiffer(r)) && (r.bucket == CurrencyMismatch <==> CurrenciesDiffer(r))
            && (r.bucket == PlatformOnly <==> r.provider.None?) && (r.bucket == DuplicateProviderRow <==> duplicate)
            && (r.bucket == ProviderOnly <==> r.provider.Some? && r.platform.None? && !duplicate)
            && (r.matchedBy.Some? <==> r.provider.Some? && r.platform.Some?)
            && (r.currency == if r.provider.Some? then r.provider.value.currency else
                              if r.platform.Some? then r.platform.value.currency else r.currency)
            && r.reasonCode == (match r.bucket
                                case MatchedExact => "exact_match"
                                case AmountMismatch => "amounts_differ"
                                case CurrencyMismatch => "currency_differs"
                                case StatusMismatch => "provider_status_failed"
                                case ProviderOnly => "platform_record_not_found"
                                case PlatformOnly => "provider_record_not_found"
                                case DuplicateProviderRow => "duplicate_provider_transaction_id")
  {
    if i < |providers| {
      assert ResultOf(providers, rows, i, results[i]);
    } else {
      assert results[|providers| + (i - |providers|)] == PlatformOnlyResult(rows[Unclaimed(providers, rows, |rows|)[i - |providers|]]);
    }
  }

  function CountIf(f: Classified -> bool, c: Currency): Classified -> int {
    (r: Classified) => if r.currency == c && f(r) then 1 else 0
  }

  lemma CountMeans(results: seq<Classified>, c: Currency, b: Bucket, f: Classified -> bool)
    requires forall i | 0 <= i < |results| :: results[i].bucket == b <==> f(results[i])
    ensures Summarize(results, c).counts[b] == SumBy(results, CountIf(f, c))
  {
    SelectSums(results, c, CountOf(b), CountIf(f, c));
  }

  /** The counts of a summary count the results of its currency by what their rows say. */
  lemma SummaryCounts(providers: seq<Provider>, rows: seq<Platform>, results: seq<Classified>, c: Currency)
    requires IsClassification(providers, rows, results)
    ensures var counts := Summarize(results, c).counts;
            && counts[MatchedExact] == SumBy(results, CountIf(ExactMatch, c))
            && counts[StatusMismatch] == SumBy(results, CountIf(FailedMatch, c))
            && counts[AmountMismatch] == SumBy(results, CountIf(AmountsDiffer, c))
            && counts[CurrencyMismatch] == SumBy(results, CountIf(CurrenciesDiffer, c))
            && counts[PlatformOnly] == SumBy(results, CountIf((r: Classified) => r.provider.None?, c))
  {
    forall i: nat | i < |results|
      ensures results[i].bucket == MatchedExact <==> ExactMatch(results[i])
      ensures results[i].bucket == StatusMismatch <==> FailedMatch(results[i])
      ensures results[i].bucket == AmountMismatch <==> AmountsDiffer(results[i])
      ensures results[i].bucket == CurrencyMismatch <==> CurrenciesDiffer(results[i])
      ensures results[i].bucket == PlatformOnly <==> results[i].provider.None?
    {
      BucketMeans(providers, rows, results, i);
    }
    CountMeans(results, c, MatchedExact, ExactMatch);
    CountMeans(results, c, StatusMismatch, FailedMatch);
    CountMeans(results, c, AmountMismatch, AmountsDiffer);
    CountMeans(results, c, CurrencyMismatch, CurrenciesDiffer);
    CountMeans(results, c, PlatformOnly, (r: Classified) => r.provider.None?);
  }

  function OneIf(f: Classified -> bool): Classified -> int {
    (r: Classified) => if f(r) then 1 else 0
  }

  lemma MatchedMeans(providers: seq<Provider>, rows: seq<Platform>, results: seq<Classified>)
    requires IsClassification(providers, rows, results)
    ensures SumBy(results, CountOf(MatchedExact)) == SumBy(results, OneIf(ExactMatch))
  {
    forall i: nat | i < |results| ensures results[i].bucket == MatchedExact <==> ExactMatch(results[i]) {
      BucketMeans(providers, rows, results, i);
    }
    SumByCong(results, CountOf(MatchedExact), results, OneIf(ExactMatch));
  }

  function InCurrency(c: Currency, w: Provider -> int): Provider -> int {
    (p: Provider) => if p.currency == c then w(p) else 0
  }

  function HeldIn(c: Currency, w: Platform -> int): Classified -> int {
    (r: Classified) => if r.currency == c && r.platform.Some? then w(r.platform.value) else 0
  }

  lemma PlatformField(results: seq<Classified>, c: Currency, w: Platform -> int)
    ensures SumBy(Select(results, c), OfPlatform(w)) == SumBy(results, HeldIn(c, w))
  {
    SelectSums(results, c, OfPlatform(w), HeldIn(c, w));
  }

  /** The seven amounts of a summary: gross, fee and net of the provider rows of its currency and of the platform rows in its
      results, and the difference of the two nets. */
  lemma SummaryAmounts(providers: seq<Provider>, rows: seq<Platform>, results: seq<Classified>, c: Currency)
    requires IsClassification(providers, rows, results)
    ensures var s := Summarize(results, c);
            && s.providerGross == SumBy(providers, InCurrency(c, (p: Provider) => p.gross))
            && s.providerFee == SumBy(providers, InCurrency(c, (p: Provider) => p.fee))
            && s.providerNet == SumBy(providers, InCurrency(c, (p: Provider) => p.net))
            && s.platformGross == SumBy(results, HeldIn(c, (q: Platform) => q.gross))
            && s.platformFee == SumBy(results, HeldIn(c, (q: Platform) => q.fee))
            && s.platformNet == SumBy(results, HeldIn(c, (q: Platform) => q.net))
            && s.unexplained == SumBy(providers, InCurrency(c, (p: Provider) => p.net)) - SumBy(results, HeldIn(c, (q: Platform) => q.net))
  {
    SummaryProviders(providers, rows, results, c, (p: Provider) => p.gross);
    SummaryProviders(providers, rows, results, c, (p: Provider) => p.fee);
    SummaryProviders(providers, rows, results, c, (p: Provider) => p.net);
    PlatformField(results, c, (q: Platform) => q.gross);
    PlatformField(results, c, (q: Platform) => q.fee);
    PlatformField(results, c, (q: Platform) => q.net);
    CongInCurrency(providers, c, (p: Provider) => p.gross);
    CongInCurrency(providers, c, (p: Provider) => p.fee);
    CongInCurrency(providers, c, (p: Provider) => p.net);
  }

  lemma CongInCurrency(providers: seq<Provider>, c: Currency, w: Provider -> int)
    ensures SumBy(providers, InCurrency(c, w)) == SumBy(providers, (p: Provider) => if p.currency == c then w(p) else 0)
  {
    SumByCong(providers, InCurrency(c, w), providers, (p: Provider) => if p.currency == c then w(p) else 0);
  }

  function CountTotal(s: Summary): int
    requires forall b: Bucket :: b in s.counts
  {
    s.counts[MatchedExact] + s.counts[AmountMismatch] + s.counts[CurrencyMismatch] + s.counts[StatusMismatch]
    + s.counts[ProviderOnly] + s.counts[PlatformOnly] + s.counts[DuplicateProviderRow]
  }

  lemma {:induction false} CountsCover(results: seq<Classified>)
    ensures SumBy(results, CountOf(MatchedExact)) + SumBy(results, CountOf(AmountMismatch)) + SumBy(results, CountOf(CurrencyMismatch))
            + SumBy(results, CountOf(StatusMismatch)) + SumBy(results, CountOf(ProviderOnly)) + SumBy(results, CountOf(PlatformOnly))
            + SumBy(results, CountOf(DuplicateProviderRow)) == |results|
    decreases |results|
  {
    if results != [] { CountsCover(results[..|results| - 1]); }
  }

  /** The fourteen counts of the two summaries count every result once. */
  lemma CountsAddUp(results: seq<Classified>)
    ensures CountTotal(Summarize(results, ETB)) + CountTotal(Summarize(results, USD)) == |results|
  {
    CountsCover(Select(results, ETB));
    CountsCover(Select(results, USD));
    SelectLengths(results);
  }

  lemma {:induction false} SelectLengths(results: seq<Classified>)
    ensures |Select(results, ETB)| + |Select(results, USD)| == |results|
    decreases |results|
  {
    if results != [] { SelectLengths(results[..|results| - 1]); }
  }
}
