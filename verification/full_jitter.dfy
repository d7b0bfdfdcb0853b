/** A random delay between zero and a ceiling, as retries of deliveries and of relay runs draw it. */
module FullJitter {

  function Clamp(sample: real): (r: real)
    ensures 0.0 <= r < 1.0
  {
    if sample < 0.0 then 0.0 else if sample > 0.999999999 then 0.999999999 else sample
  }

  lemma FloorBelow(x: real, n: int)
    requires 0.0 <= x < 1.0 && n >= 0
    ensures 0 <= (x * (n + 1) as real).Floor <= n
  {
    var c := (n + 1) as real;
    assert 0.0 <= x * c < c;
  }

  /** A whole number from zero to the ceiling. */
  function Jitter(sample: real, ceiling: nat): (r: int)
    ensures 0 <= r <= ceiling
  {
    FloorBelow(Clamp(sample), ceiling);
    (Clamp(sample) * (ceiling + 1) as real).Floor
  }

  lemma QuotientBound(a: real, d: real, y: real)
    requires d > 0.0 && 0.0 <= a <= y * d
    ensures 0.0 <= a / d <= y && (a / d) * d == a
  {
    var q := a / d;
    assert q > y ==> (q - y) * d > 0.0;
    assert q < 0.0 ==> (0.0 - q) * d > 0.0;
  }

  /** Below 400 million milliseconds every delay up to the ceiling occurs, and no other. */
  lemma JitterReaches(ceiling: nat, v: int)
    requires ceiling < 400000000
    ensures (exists sample :: Jitter(sample, ceiling) == v) <==> 0 <= v <= ceiling
  {
    if 0 <= v <= ceiling {
      QuotientBound(v as real + 0.5, (ceiling + 1) as real, 0.999999999);
      var sample := (v as real + 0.5) / (ceiling + 1) as real;
      assert Jitter(sample, ceiling) == v;
    }
  }
}
