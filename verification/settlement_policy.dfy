/** The settlement fee schedule and the bounded accumulation of a run's items. */
module SettlementPolicy {
  import opened Basics
  import opened Sums

  datatype FeePolicy = FeePolicy(basisPoints: nat, flatFee: nat)

  /** The fixed schedule settlement_fee_v1 that a run accepts. */
  function ExpectedPolicy(currency: Currency): FeePolicy {
    match currency
    case ETB => FeePolicy(200, 600)
    case USD => FeePolicy(200, 25)
  }

  /** Flat fee plus the proportional part, truncated as bigint division truncates. */
  function CalculateFee(gross: nat, policy: FeePolicy): nat {
    policy.flatFee + gross * policy.basisPoints / 10000
  }

  function Fee(gross: nat, currency: Currency): nat {
    CalculateFee(gross, ExpectedPolicy(currency))
  }

  /** A payment can be settled exactly from this gross upwards; below it the fee eats the gross. */
  function SmallestSettleable(currency: Currency): nat {
    match currency
    case ETB => 613
    case USD => 26
  }

  /** The whole family of payments that makes a run fail with SettlementFeeExceedsGrossError. */
  lemma FeeBelowGross(gross: nat, currency: Currency)
    ensures Fee(gross, currency) < gross <==> gross >= SmallestSettleable(currency)
  {
    assert gross * 200 / 10000 == gross / 50;
  }

  function Fees(grosses: seq<nat>, currency: Currency): (r: seq<int>)
    ensures |r| == |grosses|
  {
    seq(|grosses|, i requires 0 <= i < |grosses| => Fee(grosses[i], currency))
  }

  /** The first n candidates are individually settleable and their sums are representable. */
  ghost predicate WithinBounds(grosses: seq<Positive>, currency: Currency, n: nat) {
    && n <= |grosses|
    && (forall i | 0 <= i < n :: Fee(grosses[i], currency) < grosses[i])
    && Total(grosses[..n]) <= MAX_SAFE_INTEGER
    && Total(Fees(grosses[..n], currency)) <= MAX_SAFE_INTEGER
  }

  /** The prefix cannot grow although its next candidate is settleable. */
  ghost predicate Maximal(grosses: seq<Positive>, currency: Currency, n: nat) {
    && WithinBounds(grosses, currency, n)
    && (n < |grosses| ==> Fee(grosses[n], currency) < grosses[n] && !WithinBounds(grosses, currency, n + 1))
  }

  /** The candidate after the prefix is one whose fee reaches its gross. */
  ghost predicate BlockedAt(grosses: seq<Positive>, currency: Currency, n: nat) {
    n < |grosses| && WithinBounds(grosses, currency, n) && Fee(grosses[n], currency) >= grosses[n]
  }

  datatype RunError = FeeExceedsGross

  /** The outcome of the accumulation from the first k candidates on, for candidates with the given fees. */
  function Accumulate(grosses: seq<Positive>, fees: seq<int>, k: nat, gross: int, fee: int): (r: Result<nat, RunError>)
    requires k <= |grosses| == |fees|
    ensures r.Ok? ==> k <= r.value <= |grosses|
    decreases |grosses| - k
  {
    if k == |grosses| then Ok(k)
    else if fees[k] >= grosses[k] then Err(FeeExceedsGross)
    else if gross + grosses[k] > MAX_SAFE_INTEGER || fee + fees[k] > MAX_SAFE_INTEGER then Ok(k)
    else Accumulate(grosses, fees, k + 1, gross + grosses[k], fee + fees[k])
  }

  function BoundedCount(grosses: seq<Positive>, currency: Currency): (r: Result<nat, RunError>)
    ensures r.Ok? ==> r.value <= |grosses|
  {
    Accumulate(grosses, Fees(grosses, currency), 0, 0, 0)
  }

  lemma NextTotals(grosses: seq<Positive>, currency: Currency, k: nat)
    requires k < |grosses|
    ensures Total(grosses[..k + 1]) == Total(grosses[..k]) + grosses[k]
    ensures Total(Fees(grosses[..k + 1], currency)) == Total(Fees(grosses[..k], currency)) + Fee(grosses[k], currency)
  {
    assert grosses[..k + 1][..k] == grosses[..k];
    assert Fees(grosses[..k + 1], currency)[..k] == Fees(grosses[..k], currency);
  }

  /** A settleable candidate that fits joins the prefix. */
  lemma PrefixGrows(grosses: seq<Positive>, currency: Currency, k: nat)
    requires k < |grosses| && WithinBounds(grosses, currency, k) && Fee(grosses[k], currency) < grosses[k]
    requires Total(grosses[..k]) + grosses[k] <= MAX_SAFE_INTEGER
    requires Total(Fees(grosses[..k], currency)) + Fee(grosses[k], currency) <= MAX_SAFE_INTEGER
    ensures WithinBounds(grosses, currency, k + 1)
    ensures Total(grosses[..k + 1]) == Total(grosses[..k]) + grosses[k]
    ensures Total(Fees(grosses[..k + 1], currency)) == Total(Fees(grosses[..k], currency)) + Fee(grosses[k], currency)
  {
    NextTotals(grosses, currency, k);
  }

  /** The accumulation as the run performs it: one pass that stops at the first overflow. */
  method AccumulateItems(grosses: seq<Positive>, currency: Currency)
    returns (outcome: Result<nat, RunError>, paymentGross: nat, feeTotal: nat)
    ensures outcome == BoundedCount(grosses, currency)
    ensures outcome.Ok? ==>
      && WithinBounds(grosses, currency, outcome.value)
      && paymentGross == Total(grosses[..outcome.value])
      && feeTotal == Total(Fees(grosses[..outcome.value], currency))
  {
    paymentGross, feeTotal := 0, 0;
    var k := 0;
    while k < |grosses|
      invariant 0 <= k <= |grosses|
      invariant WithinBounds(grosses, currency, k)
      invariant paymentGross == Total(grosses[..k]) && feeTotal == Total(Fees(grosses[..k], currency))
      invariant BoundedCount(grosses, currency) == Accumulate(grosses, Fees(grosses, currency), k, paymentGross, feeTotal)
    {
      var fee := Fee(grosses[k], currency);
      if fee >= grosses[k] {
        return Err(FeeExceedsGross), paymentGross, feeTotal;
      }
      if paymentGross + grosses[k] > MAX_SAFE_INTEGER || feeTotal + fee > MAX_SAFE_INTEGER {
        return Ok(k), paymentGross, feeTotal;
      }
      PrefixGrows(grosses, currency, k);
      paymentGross, feeTotal, k := paymentGross + grosses[k], feeTotal + fee, k + 1;
    }
    outcome := Ok(k);
  }

  lemma {:induction false} LongerIsLarger(grosses: seq<Positive>, currency: Currency, m: nat, n: nat)
    requires m <= n <= |grosses|
    ensures Total(grosses[..m]) + (n - m) <= Total(grosses[..n])
    ensures Total(Fees(grosses[..m], currency)) <= Total(Fees(grosses[..n], currency))
    decreases n
  {
    if m < n {
      LongerIsLarger(grosses, currency, m, n - 1);
      NextTotals(grosses, currency, n - 1);
    }
  }

  /** The bounds of a prefix, for candidates with the given fees. */
  ghost predicate Fits(grosses: seq<Positive>, fees: seq<int>, n: nat)
    requires |fees| == |grosses|
  {
    && n <= |grosses|
    && (forall i | 0 <= i < n :: fees[i] < grosses[i])
    && Total(grosses[..n]) <= MAX_SAFE_INTEGER && Total(fees[..n]) <= MAX_SAFE_INTEGER
  }

  lemma FitsIsWithin(grosses: seq<Positive>, currency: Currency, n: nat)
    ensures Fits(grosses, Fees(grosses, currency), n) <==> WithinBounds(grosses, currency, n)
  {
    if n <= |grosses| {
      assert Fees(grosses, currency)[..n] == Fees(grosses[..n], currency);
    }
  }

  /** A prefix that cannot grow, or a candidate that blocks it. */
  ghost predicate Decided(grosses: seq<Positive>, fees: seq<int>, r: Result<nat, RunError>)
    requires |fees| == |grosses|
  {
    match r
    case Ok(n) => Fits(grosses, fees, n) && (n < |grosses| ==> fees[n] < grosses[n] && !Fits(grosses, fees, n + 1))
    case Err(_) => exists n: nat :: n < |grosses| && Fits(grosses, fees, n) && fees[n] >= grosses[n]
  }

  lemma OneMoreTotal(xs: seq<int>, k: nat)
    requires k < |xs|
    ensures Total(xs[..k + 1]) == Total(xs[..k]) + xs[k]
  {
    assert xs[..k + 1][..k] == xs[..k];
  }

  lemma {:induction false} AccumulateIsLongest(grosses: seq<Positive>, fees: seq<int>, k: nat, gross: int, fee: int)
    requires |fees| == |grosses| && Fits(grosses, fees, k)
    requires gross == Total(grosses[..k]) && fee == Total(fees[..k])
    ensures Decided(grosses, fees, Accumulate(grosses, fees, k, gross, fee))
    decreases |grosses| - k
  {
    if k < |grosses| && fees[k] < grosses[k] {
      OneMoreTotal(grosses, k);
      OneMoreTotal(fees, k);
      if gross + grosses[k] <= MAX_SAFE_INTEGER && fee + fees[k] <= MAX_SAFE_INTEGER {
        AccumulateIsLongest(grosses, fees, k + 1, gross + grosses[k], fee + fees[k]);
      }
    }
  }

  /** The accumulation's outcome in terms of the fee schedule. */
  lemma BoundedCountIsLongest(grosses: seq<Positive>, currency: Currency)
    ensures match BoundedCount(grosses, currency)
            case Ok(n) => Maximal(grosses, currency, n)
            case Err(_) => exists n: nat :: BlockedAt(grosses, currency, n)
  {
    var fees := Fees(grosses, currency);
    AccumulateIsLongest(grosses, fees, 0, 0, 0);
    match BoundedCount(grosses, currency) {
      case Ok(n) =>
        FitsIsWithin(grosses, currency, n);
        FitsIsWithin(grosses, currency, n + 1);
      case Err(_) =>
        var n: nat :| n < |grosses| && Fits(grosses, fees, n) && fees[n] >= grosses[n];
        FitsIsWithin(grosses, currency, n);
        assert BlockedAt(grosses, currency, n);
    }
  }

  /** A run takes the longest prefix whose sums stay representable, and fails exactly when the
      first candidate that does not fit into that prefix is one whose fee reaches its gross. */
  lemma TakesLongestPrefix(grosses: seq<Positive>, currency: Currency)
    ensures match BoundedCount(grosses, currency)
            case Ok(n) =>
              && WithinBounds(grosses, currency, n)
              && (forall m: nat | WithinBounds(grosses, currency, m) :: m <= n)
              && (n < |grosses| ==> Fee(grosses[n], currency) < grosses[n])
              && (grosses != [] && grosses[0] <= MAX_SAFE_INTEGER ==> n > 0)
            case Err(_) => exists n: nat :: BlockedAt(grosses, currency, n)
  {
    BoundedCountIsLongest(grosses, currency);
    match BoundedCount(grosses, currency) {
      case Err(_) =>
      case Ok(n) =>
        forall m: nat | WithinBounds(grosses, currency, m) ensures m <= n {
          if n < m {
            LongerIsLarger(grosses, currency, n + 1, m);
          }
        }
        if grosses != [] && grosses[0] <= MAX_SAFE_INTEGER {
          NextTotals(grosses, currency, 0);
        }
    }
  }

  /** Rounding loses less than one minor unit per item: over n items of gross G,
      G - 49n <= 50 * (fee - n * flat) <= G. */
  lemma {:induction false} FeeRounding(grosses: seq<Positive>, currency: Currency)
    ensures var proportional := Total(Fees(grosses, currency)) - |grosses| * ExpectedPolicy(currency).flatFee;
            Total(grosses) - 49 * |grosses| <= 50 * proportional <= Total(grosses)
    decreases |grosses|
  {
    if grosses != [] {
      var n := |grosses| - 1;
      FeeRounding(grosses[..n], currency);
      NextTotals(grosses, currency, n);
      assert grosses[..n + 1] == grosses;
      var g: nat := grosses[n];
      assert g * 200 / 10000 == g / 50;
      assert |grosses| * ExpectedPolicy(currency).flatFee == n * ExpectedPolicy(currency).flatFee + ExpectedPolicy(currency).flatFee;
    }
  }

  lemma {:induction false} FeesBelowGross(grosses: seq<Positive>, currency: Currency)
    requires forall i | 0 <= i < |grosses| :: Fee(grosses[i], currency) < grosses[i]
    ensures Total(grosses) - Total(Fees(grosses, currency)) >= |grosses|
    ensures Total(Fees(grosses, currency)) >= |grosses| * ExpectedPolicy(currency).flatFee
    decreases |grosses|
  {
    if grosses != [] {
      var n := |grosses| - 1;
      FeesBelowGross(grosses[..n], currency);
      NextTotals(grosses, currency, n);
      assert grosses[..n + 1] == grosses;
      assert |grosses| * ExpectedPolicy(currency).flatFee == n * ExpectedPolicy(currency).flatFee + ExpectedPolicy(currency).flatFee;
    }
  }
}
