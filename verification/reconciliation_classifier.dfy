/** Matching of provider rows with platform records, and the per-currency summaries of an import. */
module ReconciliationClassifier {
  import opened Basics

  datatype Provider = Provider(
    transactionId: string, eventType: string, providerRef: string, externalRef: Option<string>,
    currency: Currency, gross: int, fee: int, net: int, succeeded: bool)

  datatype Platform = Platform(
    recordType: string, publicRef: string, eventType: string, providerRef: string, externalRef: Option<string>,
    currency: Currency, gross: int, fee: int, net: int)

  datatype Bucket =
    | MatchedExact | AmountMismatch | CurrencyMismatch | StatusMismatch
    | ProviderOnly | PlatformOnly | DuplicateProviderRow

  datatype MatchedBy = ByProviderRef | ByExternalRef

  datatype Classified = Classified(
    bucket: Bucket, currency: Currency, matchedBy: Option<MatchedBy>, platform: Option<Platform>, provider: Option<Provider>,
    reasonCode: string)

  // ----- keys -----

  function Key(kind: string, reference: string): string {
    kind + ":" + reference
  }

  function RecordKey(p: Platform): string { Key(p.recordType, p.publicRef) }

  function ProviderRefKey(p: Platform): Option<string> { Some(Key(p.eventType, p.providerRef)) }

  function ExternalRefKey(p: Platform): Option<string> {
    match p.externalRef
    case None => None
    case Some(r) => Some(Key(p.eventType, r))
  }

  /** Concatenated keys identify the pair as long as the kinds contain no colon. */
  lemma KeyIsInjective(a: string, r: string, b: string, q: string)
    requires ':' !in a && ':' !in b && Key(a, r) == Key(b, q)
    ensures a == b && r == q
  {
    var k := Key(a, r);
    assert k[|a|] == ':' && k[|b|] == ':';
    assert a == k[..|a|] && b == k[..|b|];
    assert r == k[|a| + 1..] && q == k[|b| + 1..];
  }

  // ----- the declarative definition -----

  /** Row q is the only one with the key. */
  ghost predicate OnlyRow(rows: seq<Platform>, keyFor: Platform -> Option<string>, key: string, q: nat) {
    && q < |rows| && keyFor(rows[q]) == Some(key)
    && forall k | 0 <= k < |rows| && k != q :: keyFor(rows[k]) != Some(key)
  }

  /** The platform row a provider row asks for: the unique row of its provider reference, or else of its external one. */
  ghost predicate AsksFor(p: Provider, rows: seq<Platform>, q: nat, via: MatchedBy) {
    match via
    case ByProviderRef => OnlyRow(rows, ProviderRefKey, Key(p.eventType, p.providerRef), q)
    case ByExternalRef =>
      && (forall k: nat :: !OnlyRow(rows, ProviderRefKey, Key(p.eventType, p.providerRef), k))
      && p.externalRef.Some? && OnlyRow(rows, ExternalRefKey, Key(p.eventType, p.externalRef.value), q)
  }

  ghost predicate FirstSeen(providers: seq<Provider>, i: nat)
    requires i < |providers|
  {
    forall j | 0 <= j < i :: providers[j].transactionId != providers[i].transactionId
  }

  /** A provider row that is no duplicate asks for a record with the given key. */
  ghost predicate Claims(providers: seq<Provider>, rows: seq<Platform>, j: nat, key: string) {
    && j < |providers| && FirstSeen(providers, j)
    && exists q: nat, via :: AsksFor(providers[j], rows, q, via) && RecordKey(rows[q]) == key
  }

  ghost predicate TakenBefore(providers: seq<Provider>, rows: seq<Platform>, i: nat, key: string) {
    exists j: nat | j < i :: Claims(providers, rows, j, key)
  }

  /** Provider row i gets platform row q. */
  ghost predicate Gets(providers: seq<Provider>, rows: seq<Platform>, i: nat, q: nat, via: MatchedBy) {
    && i < |providers| && FirstSeen(providers, i) && AsksFor(providers[i], rows, q, via)
    && !TakenBefore(providers, rows, i, RecordKey(rows[q]))
  }

  function Compare(p: Provider, q: Platform): Bucket {
    if q.currency != p.currency then CurrencyMismatch
    else if q.gross != p.gross || q.fee != p.fee || q.net != p.net then AmountMismatch
    else if !p.succeeded then StatusMismatch
    else MatchedExact
  }

  /** The reason that goes with a bucket. */
  function ReasonFor(b: Bucket): string {
    match b
    case MatchedExact => "exact_match"
    case AmountMismatch => "amounts_differ"
    case CurrencyMismatch => "currency_differs"
    case StatusMismatch => "provider_status_failed"
    case ProviderOnly => "platform_record_not_found"
    case PlatformOnly => "provider_record_not_found"
    case DuplicateProviderRow => "duplicate_provider_transaction_id"
  }

  /** The result of provider row i. */
  ghost predicate ResultOf(providers: seq<Provider>, rows: seq<Platform>, i: nat, r: Classified)
    requires i < |providers|
  {
    var p := providers[i];
    && r.provider == Some(p) && r.currency == p.currency && r.reasonCode == ReasonFor(r.bucket)
    && (if !FirstSeen(providers, i) then r.bucket == DuplicateProviderRow && r.platform == None && r.matchedBy == None
        else if exists q: nat, via :: Gets(providers, rows, i, q, via) then
          exists q: nat, via :: Gets(providers, rows, i, q, via)
            && r.platform == Some(rows[q]) && r.matchedBy == Some(via) && r.bucket == Compare(p, rows[q])
        else r.bucket == ProviderOnly && r.platform == None && r.matchedBy == None)
  }

  function PlatformOnlyResult(q: Platform): Classified {
    Classified(PlatformOnly, q.currency, None, Some(q), None, "provider_record_not_found")
  }

  /** The first n platform rows that no provider row claims, as their positions in order. */
  ghost function Unclaimed(providers: seq<Provider>, rows: seq<Platform>, n: nat): (r: seq<nat>)
    requires n <= |rows|
    ensures forall k | 0 <= k < |r| :: r[k] < n
  {
    if n == 0 then [] else
    Unclaimed(providers, rows, n - 1)
    + (if TakenBefore(providers, rows, |providers|, RecordKey(rows[n - 1])) then [] else [n - 1])
  }

  /** The whole classification: one result per provider row in input order, then the unclaimed platform rows. */
  ghost predicate IsClassification(providers: seq<Provider>, rows: seq<Platform>, results: seq<Classified>) {
    var unclaimed := Unclaimed(providers, rows, |rows|);
    && |results| == |providers| + |unclaimed|
    && (forall i | 0 <= i < |providers| :: ResultOf(providers, rows, i, results[i]))
    && (forall k | 0 <= k < |unclaimed| :: results[|providers| + k] == PlatformOnlyResult(rows[unclaimed[k]]))
  }

  // ----- the matcher with maps and sets -----

  function Matching(rows: seq<Platform>, keyFor: Platform -> Option<string>, key: string): seq<Platform> {
    if rows == [] then [] else
    var n := |rows| - 1;
    Matching(rows[..n], keyFor, key) + (if keyFor(rows[n]) == Some(key) then [rows[n]] else [])
  }

  lemma {:induction false} MatchingIsUnique(rows: seq<Platform>, keyFor: Platform -> Option<string>, key: string)
    ensures |Matching(rows, keyFor, key)| == 0 <==> forall k | 0 <= k < |rows| :: keyFor(rows[k]) != Some(key)
    ensures |Matching(rows, keyFor, key)| == 1 <==> exists q: nat :: OnlyRow(rows, keyFor, key, q)
    ensures |Matching(rows, keyFor, key)| == 1 ==>
              forall q: nat :: OnlyRow(rows, keyFor, key, q) ==> rows[q] == Matching(rows, keyFor, key)[0]
  {
    if rows != [] {
      var n := |rows| - 1;
      var init := rows[..n];
      MatchingIsUnique(init, keyFor, key);
      forall q: nat | q < n ensures OnlyRow(rows, keyFor, key, q) <==> OnlyRow(init, keyFor, key, q) && keyFor(rows[n]) != Some(key) {
        if OnlyRow(rows, keyFor, key, q) { assert rows[n] == rows[n]; }
      }
      assert OnlyRow(rows, keyFor, key, n) <==> keyFor(rows[n]) == Some(key) && |Matching(init, keyFor, key)| == 0;
    }
  }

  method UniqueIndex(rows: seq<Platform>, keyFor: Platform -> Option<string>) returns (index: map<string, Platform>)
    ensures forall key :: key in index <==> exists q: nat :: OnlyRow(rows, keyFor, key, q)
    ensures forall key, q: nat :: OnlyRow(rows, keyFor, key, q) ==> key in index && index[key] == rows[q]
  {
    var grouped: map<string, seq<Platform>> := map[];
    for i := 0 to |rows|
      invariant forall key :: key in grouped <==> Matching(rows[..i], keyFor, key) != []
      invariant forall key | key in grouped :: grouped[key] == Matching(rows[..i], keyFor, key)
    {
      assert rows[..i + 1][..i] == rows[..i];
      match keyFor(rows[i]) {
        case None =>
        case Some(key) =>
          var matches := if key in grouped then grouped[key] else [];
          grouped := grouped[key := matches + [rows[i]]];
      }
    }
    assert rows[..|rows|] == rows;
    index := map key | key in grouped && |grouped[key]| == 1 :: grouped[key][0];
    forall key { MatchingIsUnique(rows, keyFor, key); }
  }

  lemma AsksForOne(p: Provider, rows: seq<Platform>, q: nat, via: MatchedBy, q': nat, via': MatchedBy)
    requires AsksFor(p, rows, q, via) && AsksFor(p, rows, q', via')
    ensures q == q' && via == via'
  {
  }

  /** The lookups of a provider row in the two indexes find the row it asks for. */
  method Lookup(p: Provider, rows: seq<Platform>, providerRefs: map<string, Platform>, externalRefs: map<string, Platform>)
    returns (platform: Option<Platform>, matchedBy: Option<MatchedBy>)
    requires forall key :: key in providerRefs <==> exists q: nat :: OnlyRow(rows, ProviderRefKey, key, q)
    requires forall key, q: nat :: OnlyRow(rows, ProviderRefKey, key, q) ==> key in providerRefs && providerRefs[key] == rows[q]
    requires forall key :: key in externalRefs <==> exists q: nat :: OnlyRow(rows, ExternalRefKey, key, q)
    requires forall key, q: nat :: OnlyRow(rows, ExternalRefKey, key, q) ==> key in externalRefs && externalRefs[key] == rows[q]
    ensures platform.Some? == matchedBy.Some?
    ensures platform.Some? <==> exists q: nat, via :: AsksFor(p, rows, q, via)
    ensures forall q: nat, via :: AsksFor(p, rows, q, via) ==> platform == Some(rows[q]) && matchedBy == Some(via)
  {
    platform, matchedBy := None, None;
    var key := Key(p.eventType, p.providerRef);
    if key in providerRefs {
      platform, matchedBy := Some(providerRefs[key]), Some(ByProviderRef);
      ghost var q: nat :| OnlyRow(rows, ProviderRefKey, key, q);
      assert AsksFor(p, rows, q, ByProviderRef);
    }
    if platform.None? && p.externalRef.Some? {
      var external := Key(p.eventType, p.externalRef.value);
      if external in externalRefs {
        platform, matchedBy := Some(externalRefs[external]), Some(ByExternalRef);
        ghost var q: nat :| OnlyRow(rows, ExternalRefKey, external, q);
        assert AsksFor(p, rows, q, ByExternalRef);
      }
    }
  }

  /** What the bookkeeping after n provider rows knows. */
  ghost predicate Processed(providers: seq<Provider>, rows: seq<Platform>, n: nat, consumed: set<string>, seen: set<string>) {
    && n <= |providers|
    && (forall key :: key in consumed <==> TakenBefore(providers, rows, n, key))
    && (forall t :: t in seen <==> exists j: nat | j < n :: providers[j].transactionId == t)
  }

  /** A duplicate or unmatched row consumes nothing, any other row consumes what it asks for. */
  lemma ProcessNext(providers: seq<Provider>, rows: seq<Platform>, n: nat, consumed: set<string>, seen: set<string>)
    requires n < |providers| && Processed(providers, rows, n, consumed, seen)
    ensures providers[n].transactionId in seen <==> !FirstSeen(providers, n)
    ensures Processed(providers, rows, n + 1,
              consumed + (set q | 0 <= q < |rows| && Claims(providers, rows, n, RecordKey(rows[q])) :: RecordKey(rows[q])),
              seen + {providers[n].transactionId})
  {
    var claimed := set q | 0 <= q < |rows| && Claims(providers, rows, n, RecordKey(rows[q])) :: RecordKey(rows[q]);
    forall key ensures key in consumed + claimed <==> TakenBefore(providers, rows, n + 1, key) {
      if Claims(providers, rows, n, key) {
        var q: nat, via :| AsksFor(providers[n], rows, q, via) && RecordKey(rows[q]) == key;
        assert key in claimed;
      }
    }
  }

  lemma ConsumesNothing(providers: seq<Provider>, rows: seq<Platform>, i: nat, consumed: set<string>, platform: Option<Platform>)
    requires i < |providers| && FirstSeen(providers, i)
    requires forall key :: key in consumed <==> TakenBefore(providers, rows, i, key)
    requires platform.Some? <==> exists q: nat, via :: AsksFor(providers[i], rows, q, via)
    requires forall q: nat, via :: AsksFor(providers[i], rows, q, via) ==> platform == Some(rows[q])
    requires platform.None? || RecordKey(platform.value) in consumed
    ensures consumed + (set q | 0 <= q < |rows| && Claims(providers, rows, i, RecordKey(rows[q])) :: RecordKey(rows[q])) == consumed
    ensures !exists q: nat, via :: Gets(providers, rows, i, q, via)
  {
    forall key | Claims(providers, rows, i, key) ensures key in consumed {}
  }

  lemma ConsumesOne(providers: seq<Provider>, rows: seq<Platform>, i: nat, consumed: set<string>, platform: Platform, matchedBy: MatchedBy)
    requires i < |providers| && FirstSeen(providers, i)
    requires forall key :: key in consumed <==> TakenBefore(providers, rows, i, key)
    requires exists q: nat, via :: AsksFor(providers[i], rows, q, via)
    requires forall q: nat, via :: AsksFor(providers[i], rows, q, via) ==> platform == rows[q] && matchedBy == via
    requires RecordKey(platform) !in consumed
    ensures consumed + (set q | 0 <= q < |rows| && Claims(providers, rows, i, RecordKey(rows[q])) :: RecordKey(rows[q]))
         == consumed + {RecordKey(platform)}
    ensures exists q: nat :: Gets(providers, rows, i, q, matchedBy) && rows[q] == platform
  {
    var q: nat, via :| AsksFor(providers[i], rows, q, via);
    assert Gets(providers, rows, i, q, matchedBy);
    assert Claims(providers, rows, i, RecordKey(rows[q]));
    forall key | Claims(providers, rows, i, key) ensures key == RecordKey(platform) {}
  }

  /** The comparison of a provider row with its record. */
  method CompareRows(p: Provider, q: Platform) returns (bucket: Bucket, reasonCode: string)
    ensures bucket == Compare(p, q) && reasonCode == ReasonFor(bucket)
  {
    bucket, reasonCode := MatchedExact, "exact_match";
    if q.currency != p.currency {
      bucket, reasonCode := CurrencyMismatch, "currency_differs";
    } else if q.gross != p.gross || q.fee != p.fee || q.net != p.net {
      bucket, reasonCode := AmountMismatch, "amounts_differ";
    } else if !p.succeeded {
      bucket, reasonCode := StatusMismatch, "provider_status_failed";
    }
  }

  /** Classifies one provider row and updates what is consumed and seen. */
  method ClassifyRow(providers: seq<Provider>, rows: seq<Platform>, i: nat, providerRefs: map<string, Platform>,
                     externalRefs: map<string, Platform>, consumed: set<string>, seen: set<string>)
    returns (result: Classified, consumed': set<string>, seen': set<string>)
    requires forall key :: key in providerRefs <==> exists q: nat :: OnlyRow(rows, ProviderRefKey, key, q)
    requires forall key, q: nat :: OnlyRow(rows, ProviderRefKey, key, q) ==> key in providerRefs && providerRefs[key] == rows[q]
    requires forall key :: key in externalRefs <==> exists q: nat :: OnlyRow(rows, ExternalRefKey, key, q)
    requires forall key, q: nat :: OnlyRow(rows, ExternalRefKey, key, q) ==> key in externalRefs && externalRefs[key] == rows[q]
    requires i < |providers| && Processed(providers, rows, i, consumed, seen)
    ensures ResultOf(providers, rows, i, result)
    ensures Processed(providers, rows, i + 1, consumed', seen')
  {
    var p := providers[i];
    ProcessNext(providers, rows, i, consumed, seen);
    seen' := seen + {p.transactionId};
    if p.transactionId in seen {
      assert forall key :: !Claims(providers, rows, i, key);
      return Classified(DuplicateProviderRow, p.currency, None, None, Some(p), "duplicate_provider_transaction_id"), consumed, seen';
    }
    var platform, matchedBy := Lookup(p, rows, providerRefs, externalRefs);
    if platform.None? || RecordKey(platform.value) in consumed {
      ConsumesNothing(providers, rows, i, consumed, platform);
      return Classified(ProviderOnly, p.currency, None, None, Some(p), "platform_record_not_found"), consumed, seen';
    }
    ConsumesOne(providers, rows, i, consumed, platform.value, matchedBy.value);
    consumed' := consumed + {RecordKey(platform.value)};
    var bucket, reasonCode := CompareRows(p, platform.value);
    result := Classified(bucket, p.currency, matchedBy, platform, Some(p), reasonCode);
  }

  /** The map-and-set matcher refines the declarative classification. */
  method Classify(providers: seq<Provider>, rows: seq<Platform>) returns (results: seq<Classified>)
    ensures IsClassification(providers, rows, results)
  {
    var providerRefs := UniqueIndex(rows, ProviderRefKey);
    var externalRefs := UniqueIndex(rows, ExternalRefKey);
    var consumed: set<string>, seen: set<string> := {}, {};
    results := [];
    for i := 0 to |providers|
      invariant Processed(providers, rows, i, consumed, seen)
      invariant |results| == i && forall k | 0 <= k < i :: ResultOf(providers, rows, k, results[k])
    {
      var result;
      result, consumed, seen := ClassifyRow(providers, rows, i, providerRefs, externalRefs, consumed, seen);
      results := results + [result];
    }
    for k := 0 to |rows|
      invariant |results| == |providers| + |Unclaimed(providers, rows, k)|
      invariant forall i | 0 <= i < |providers| :: ResultOf(providers, rows, i, results[i])
      invariant forall j | 0 <= j < |Unclaimed(providers, rows, k)| ::
                  results[|providers| + j] == PlatformOnlyResult(rows[Unclaimed(providers, rows, k)[j]])
    {
      if RecordKey(rows[k]) !in consumed {
        results := results + [PlatformOnlyResult(rows[k])];
      }
    }
  }
}
