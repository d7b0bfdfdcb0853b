/** Money amounts as JSON number tokens, turned into integers without floating point. */
module AmountToken {
  import opened Basics
  import opened Decimal

  // ----- the number grammar of section 6 of RFC 8259 -----

  /** e or E, and the exponent text with its optional sign. */
  datatype Exponent = Exponent(marker: char, text: string)

  datatype Number = Number(negative: bool, integer: string, fraction: Option<string>, exponent: Option<Exponent>)

  predicate SignedDigits(text: string) {
    var digits := Unsigned(text);
    digits != "" && AllDigits(digits)
  }

  /** value.replace(/^[+-]/u, '') */
  function Unsigned(text: string): string {
    if text != "" && (text[0] == '+' || text[0] == '-') then text[1..] else text
  }

  predicate WellFormedExponent(e: Option<Exponent>) {
    e.Some? ==> (e.value.marker == 'e' || e.value.marker == 'E') && SignedDigits(e.value.text)
  }

  predicate WellFormed(t: Number) {
    && t.integer != "" && AllDigits(t.integer) && (|t.integer| > 1 ==> t.integer[0] != '0')
    && (t.fraction.Some? ==> t.fraction.value != "" && AllDigits(t.fraction.value))
    && WellFormedExponent(t.exponent)
  }

  function RenderExponent(e: Option<Exponent>): string {
    match e
    case None => ""
    case Some(x) => [x.marker] + x.text
  }

  function RenderFraction(f: Option<string>): string {
    match f
    case None => ""
    case Some(x) => "." + x
  }

  function Render(t: Number): string {
    (if t.negative then "-" else "") + (t.integer + (RenderFraction(t.fraction) + RenderExponent(t.exponent)))
  }

  // ----- JSON_NUMBER_PATTERN as a scanner -----

  function LeadingDigits(s: string): (n: nat)
    ensures n <= |s| && AllDigits(s[..n])
    ensures n < |s| ==> !IsDigit(s[n])
  {
    if s != "" && IsDigit(s[0]) then
      var n := LeadingDigits(s[1..]);
      assert s[..n + 1] == [s[0]] + s[1..][..n];
      n + 1
    else 0
  }

  function MatchExponent(s: string): (r: Option<Option<Exponent>>)
    ensures r.Some? ==> RenderExponent(r.value) == s
    ensures r.Some? ==> WellFormedExponent(r.value)
  {
    if s == "" then Some(None)
    else if (s[0] == 'e' || s[0] == 'E') && SignedDigits(s[1..]) then Some(Some(Exponent(s[0], s[1..])))
    else None
  }

  function MatchFraction(body: string): (r: Option<(string, Option<Exponent>)>)
    ensures r.Some? ==>
      && body == r.value.0 + RenderExponent(r.value.1) && r.value.0 != "" && AllDigits(r.value.0)
      && WellFormedExponent(r.value.1)
  {
    var n := LeadingDigits(body);
    if n == 0 then None else
    match MatchExponent(body[n..])
    case None => None
    case Some(e) => Some((body[..n], e))
  }

  function MatchTail(s: string): (r: Option<(Option<string>, Option<Exponent>)>)
    ensures r.Some? ==> RenderFraction(r.value.0) + RenderExponent(r.value.1) == s
    ensures r.Some? ==> WellFormed(Number(false, "0", r.value.0, r.value.1))
  {
    if s != "" && s[0] == '.' then
      match MatchFraction(s[1..])
      case None => None
      case Some(m) =>
        PointInFront(s, m.0, RenderExponent(m.1));
        Some((Some(m.0), m.1))
    else
      match MatchExponent(s)
      case None => None
      case Some(e) =>
        assert "" + s == s;
        Some((None, e))
  }

  lemma PointInFront(s: string, a: string, b: string)
    requires s != "" && s[0] == '.' && s[1..] == a + b
    ensures ("." + a) + b == s
  {
    assert s == [s[0]] + s[1..];
  }

  /** The integer, fraction and exponent of a token without sign. */
  function MatchUnsigned(rest: string): (r: Option<Number>)
    ensures r.Some? ==> !r.value.negative && WellFormed(r.value) && Render(r.value) == rest
  {
    var n := LeadingDigits(rest);
    if n == 0 || (n > 1 && rest[0] == '0') then None else
    match MatchTail(rest[n..])
    case None => None
    case Some(tail) =>
      IntegerInFront(rest, n, tail.0, tail.1);
      Some(Number(false, rest[..n], tail.0, tail.1))
  }

  lemma IntegerInFront(rest: string, n: nat, fraction: Option<string>, exponent: Option<Exponent>)
    requires n <= |rest| && rest[n..] == RenderFraction(fraction) + RenderExponent(exponent)
    ensures Render(Number(false, rest[..n], fraction, exponent)) == rest
  {
    assert rest == rest[..n] + rest[n..];
    assert "" + rest == rest;
  }

  /** The pattern's only match of a token, if it matches. */
  function Match(token: string): (r: Option<Number>)
    ensures r.Some? ==> WellFormed(r.value) && Render(r.value) == token
  {
    if token != "" && token[0] == '-' then
      match MatchUnsigned(token[1..])
      case None => None
      case Some(t) =>
        SignInFront(t, token);
        Some(t.(negative := true))
    else MatchUnsigned(token)
  }

  lemma SignInFront(t: Number, token: string)
    requires !t.negative && token != "" && token[0] == '-' && Render(t) == token[1..]
    ensures Render(t.(negative := true)) == token
  {
    var body := t.integer + (RenderFraction(t.fraction) + RenderExponent(t.exponent));
    assert "" + body == body;
    assert token == "-" + token[1..];
  }

  lemma {:induction false} LeadingDigitsOf(digits: string, rest: string)
    requires AllDigits(digits) && (rest != "" ==> !IsDigit(rest[0]))
    ensures LeadingDigits(digits + rest) == |digits|
  {
    if digits == "" {
      assert digits + rest == rest;
    } else {
      assert (digits + rest)[1..] == digits[1..] + rest;
      assert forall c | c in digits[1..] :: c in digits;
      LeadingDigitsOf(digits[1..], rest);
      assert digits[0] in digits;
    }
  }

  lemma MatchesExponent(e: Option<Exponent>)
    requires WellFormedExponent(e)
    ensures MatchExponent(RenderExponent(e)) == Some(e)
    ensures RenderExponent(e) != "" ==> !IsDigit(RenderExponent(e)[0]) && RenderExponent(e)[0] != '.'
  {
    if e.Some? { assert ([e.value.marker] + e.value.text)[1..] == e.value.text; }
  }

  lemma MatchesFraction(f: string, e: Option<Exponent>)
    requires f != "" && AllDigits(f) && WellFormedExponent(e)
    ensures MatchFraction(f + RenderExponent(e)) == Some((f, e))
  {
    var tail := RenderExponent(e);
    MatchesExponent(e);
    LeadingDigitsOf(f, tail);
    assert (f + tail)[..|f|] == f && (f + tail)[|f|..] == tail;
  }

  lemma MatchesTailWithout(e: Option<Exponent>)
    requires WellFormedExponent(e)
    ensures MatchTail("" + RenderExponent(e)) == Some((None, e))
  {
    MatchesExponent(e);
    assert "" + RenderExponent(e) == RenderExponent(e);
  }

  lemma MatchesTailWith(f: string, e: Option<Exponent>)
    requires f != "" && AllDigits(f) && WellFormedExponent(e)
    ensures MatchTail(("." + f) + RenderExponent(e)) == Some((Some(f), e))
  {
    DropPoint(f, RenderExponent(e));
    MatchesPointed(("." + f) + RenderExponent(e), f, e);
  }

  lemma DropPoint(f: string, tail: string)
    ensures (("." + f) + tail)[0] == '.' && (("." + f) + tail)[1..] == f + tail
  {
  }

  lemma MatchesPointed(s: string, f: string, e: Option<Exponent>)
    requires f != "" && AllDigits(f) && WellFormedExponent(e)
    requires s != "" && s[0] == '.' && s[1..] == f + RenderExponent(e)
    ensures MatchTail(s) == Some((Some(f), e))
  {
    MatchesFraction(f, e);
  }

  lemma MatchesTail(t: Number)
    requires WellFormed(t)
    ensures MatchTail(RenderFraction(t.fraction) + RenderExponent(t.exponent)) == Some((t.fraction, t.exponent))
  {
    match t.fraction {
      case None => MatchesTailWithout(t.exponent);
      case Some(f) => MatchesTailWith(f, t.exponent);
    }
  }

  lemma MatchesUnsigned(t: Number)
    requires WellFormed(t) && !t.negative
    ensures MatchUnsigned(Render(t)) == Some(t)
    ensures Render(t) != "" && IsDigit(Render(t)[0])
  {
    var tail := RenderFraction(t.fraction) + RenderExponent(t.exponent);
    var rest := t.integer + tail;
    assert "" + rest == rest;
    assert t.integer[0] in t.integer && rest[0] == t.integer[0];
    TailIsNoDigit(t);
    LeadingDigitsOf(t.integer, tail);
    assert rest[..|t.integer|] == t.integer && rest[|t.integer|..] == tail;
    MatchesTail(t);
  }

  lemma TailIsNoDigit(t: Number)
    requires WellFormed(t)
    ensures var tail := RenderFraction(t.fraction) + RenderExponent(t.exponent); tail != "" ==> !IsDigit(tail[0])
  {
    MatchesExponent(t.exponent);
    assert "" + RenderExponent(t.exponent) == RenderExponent(t.exponent);
  }

  /** The pattern recognizes exactly the number grammar, and no token has two readings. */
  lemma MatchIsGrammar(token: string, t: Number)
    ensures Match(token) == Some(t) <==> WellFormed(t) && Render(t) == token
  {
    if WellFormed(t) && Render(t) == token {
      var u := t.(negative := false);
      MatchesUnsigned(u);
      if t.negative {
        var body := t.integer + (RenderFraction(t.fraction) + RenderExponent(t.exponent));
        assert "" + body == body && token[1..] == body;
      }
    }
  }

  // ----- the value of a token -----

  function Fraction(t: Number): string {
    match t.fraction
    case None => ""
    case Some(f) => f
  }

  /** All significant digits: the value is this numeral shifted by the exponent and the fraction. */
  function Combined(t: Number): (r: string)
    requires WellFormed(t)
    ensures AllDigits(r) && |r| == |t.integer| + |Fraction(t)|
  {
    t.integer + Fraction(t)
  }

  function ExponentValue(t: Number): int
    requires WellFormed(t)
  {
    match t.exponent
    case None => 0
    case Some(e) => if e.text[0] == '-' then -DigitsValue(Unsigned(e.text)) else DigitsValue(Unsigned(e.text))
  }

  /** The power of ten the numeral is scaled by. */
  function Scale(t: Number): int
    requires WellFormed(t)
  {
    ExponentValue(t) - |Fraction(t)|
  }

  /** The rational number the token denotes is the integer n: numeral * 10^scale == n, cross-multiplied. */
  predicate Denotes(t: Number, n: int)
    requires WellFormed(t)
  {
    var numeral := if t.negative then -DigitsValue(Combined(t)) else DigitsValue(Combined(t));
    if Scale(t) >= 0 then numeral * Pow10(Scale(t)) == n else numeral == n * Pow10(-Scale(t))
  }

  /** At most six digits remain of the exponent without sign and leading zeros. */
  predicate ShortExponent(t: Number)
    requires WellFormed(t)
  {
    t.exponent.Some? ==> |StripZeros(Unsigned(t.exponent.value.text))| <= 6
  }

  // ----- the conversion -----

  const MAX_SAFE_INTEGER_TEXT := "9007199254740991"

  function ToExponent(value: Option<string>): (r: Option<int>)
    requires value.Some? ==> SignedDigits(value.value)
  {
    match value
    case None => Some(0)
    case Some(text) =>
      StripKeepsValue(Unsigned(text));
      var stripped := StripZeros(Unsigned(text));
      var digits := if stripped == "" then "0" else stripped;
      if |digits| > 6 then None
      else if text[0] == '-' then Some(-DigitsValue(digits)) else Some(DigitsValue(digits))
  }

  /** The digits before the decimal point once the point has been shifted, or no value. */
  function IntegerDigits(combined: string, decimalPosition: int): (r: Option<string>)
    requires AllDigits(combined)
    ensures r.Some? ==> AllDigits(r.value)
  {
    if decimalPosition <= 0 then None
    else if decimalPosition < |combined| then
      if AllZeros(combined[decimalPosition..]) then
        assert forall c | c in combined[..decimalPosition] :: c in combined;
        Some(combined[..decimalPosition])
      else None
    else
      StripKeepsValue(combined);
      var significant := StripZeros(combined);
      var zeroCount := decimalPosition - |combined|;
      if |significant| + zeroCount > |MAX_SAFE_INTEGER_TEXT| then None
      else Some(significant + Zeros(zeroCount))
  }

  /** Strips the numeral and compares it with the largest safe integer as text. */
  function SafeInteger(digits: string): (r: Option<nat>)
    requires AllDigits(digits)
  {
    StripKeepsValue(digits);
    var canonical := StripZeros(digits);
    if |canonical| == 0 || |canonical| > |MAX_SAFE_INTEGER_TEXT|
       || (|canonical| == |MAX_SAFE_INTEGER_TEXT| && LexicographicallyGreater(canonical, MAX_SAFE_INTEGER_TEXT))
    then None
    else
      var amount := DigitsValue(canonical);
      if amount > MAX_SAFE_INTEGER || amount < 1 then None else Some(amount)
  }

  /** The integer of a numeral whose decimal point is at the given position. */
  function IntegerAt(combined: string, decimalPosition: int): Option<nat>
    requires AllDigits(combined)
  {
    match IntegerDigits(combined, decimalPosition)
    case None => None
    case Some(digits) => SafeInteger(digits)
  }

  function ExponentText(t: Number): (r: Option<string>)
    requires WellFormed(t)
    ensures r.Some? ==> SignedDigits(r.value)
  {
    match t.exponent
    case None => None
    case Some(e) => Some(e.text)
  }

  function Convert(t: Number): Option<nat>
    requires WellFormed(t)
  {
    if t.negative then None
    else if AllZeros(Combined(t)) then None else
    match ToExponent(ExponentText(t))
    case None => None
    case Some(e) => IntegerAt(Combined(t), |t.integer| + e)
  }

  function ExactSafeIntegerFromToken(token: string): Option<nat> {
    match Match(token)
    case None => None
    case Some(t) => Convert(t)
  }

  // ----- correctness -----

  lemma MaxTextValue()
    ensures AllDigits(MAX_SAFE_INTEGER_TEXT) && DigitsValue(MAX_SAFE_INTEGER_TEXT) == MAX_SAFE_INTEGER
    ensures |MAX_SAFE_INTEGER_TEXT| == 16 && Pow10(16) > MAX_SAFE_INTEGER
  {
    var s := MAX_SAFE_INTEGER_TEXT;
    assert s == "90071992" + "54740991";
    ValueAppend("90071992", "54740991");
    EightDigits('9', '0', '0', '7', '1', '9', '9', '2');
    EightDigits('5', '4', '7', '4', '0', '9', '9', '1');
    assert Pow10(8) == 100000000;
    PowAdd(8, 8);
  }

  lemma EightDigits(a: char, b: char, c: char, d: char, e: char, f: char, g: char, h: char)
    requires forall x | x in [a, b, c, d, e, f, g, h] :: IsDigit(x)
    ensures AllDigits([a, b, c, d, e, f, g, h])
    ensures DigitsValue([a, b, c, d, e, f, g, h])
         == DigitValue(a) * 10000000 + DigitValue(b) * 1000000 + DigitValue(c) * 100000 + DigitValue(d) * 10000
            + DigitValue(e) * 1000 + DigitValue(f) * 100 + DigitValue(g) * 10 + DigitValue(h)
  {
    FourDigits(a, b, c, d);
    FourDigits(e, f, g, h);
    var high, low := [a, b, c, d], [e, f, g, h];
    ValueAppend(high, low);
    PowFour();
    assert [a, b, c, d, e, f, g, h] == high + low;
    assert DigitsValue(high + low) == DigitsValue(high) * 10000 + DigitsValue(low);
  }

  lemma PowFour()
    ensures Pow10(4) == 10000
  {
    assert Pow10(2) == 100;
  }

  lemma FourDigits(a: char, b: char, c: char, d: char)
    requires IsDigit(a) && IsDigit(b) && IsDigit(c) && IsDigit(d)
    ensures AllDigits([a, b, c, d])
    ensures DigitsValue([a, b, c, d]) == DigitValue(a) * 1000 + DigitValue(b) * 100 + DigitValue(c) * 10 + DigitValue(d)
  {
    assert [a][..0] == [];
    assert DigitsValue([a]) == DigitValue(a);
    assert [a, b][..1] == [a];
    assert DigitsValue([a, b]) == DigitsValue([a]) * 10 + DigitValue(b);
    assert [a, b, c][..2] == [a, b];
    assert DigitsValue([a, b, c]) == DigitsValue([a, b]) * 10 + DigitValue(c);
    assert [a, b, c, d][..3] == [a, b, c];
  }

  /** The textual bound is the numeric bound. */
  lemma SafeIntegerIsBound(digits: string)
    requires AllDigits(digits)
    ensures SafeInteger(digits) == if 1 <= DigitsValue(digits) <= MAX_SAFE_INTEGER then Some(DigitsValue(digits)) else None
  {
    StripKeepsValue(digits);
    MaxTextValue();
    var canonical := StripZeros(digits);
    if |canonical| > 16 {
      LeadingDigit(canonical);
      PowMonotone(16, |canonical| - 1);
    } else if |canonical| == 16 {
      LexicographicIsNumeric(canonical, MAX_SAFE_INTEGER_TEXT);
    }
  }

  lemma ToExponentIsValue(t: Number)
    requires WellFormed(t)
    ensures ToExponent(ExponentText(t))
         == if ShortExponent(t) then Some(ExponentValue(t)) else None
  {
    if t.exponent.Some? {
      StripKeepsValue(Unsigned(t.exponent.value.text));
      assert DigitsValue("0") == 0 by { assert "0"[..0] == ""; }
    }
  }

  /** A multiple of p below p is 0. */
  lemma Quotient(a: int, b: int, n: int, p: int)
    requires p >= 1 && 0 <= b < p
    ensures a * p + b == n * p <==> b == 0 && a == n
  {
    if a > n { Dominates(a, n, p); }
    if n > a { Dominates(n, a, p); }
  }

  /** The shifted numeral is n, seen through the position of the decimal point. */
  predicate ShiftedTo(combined: string, position: int, n: int)
    requires AllDigits(combined)
  {
    if position >= |combined| then DigitsValue(combined) * Pow10(position - |combined|) == n
    else DigitsValue(combined) == n * Pow10(|combined| - position)
  }

  lemma PointInside(combined: string, position: nat, n: int)
    requires AllDigits(combined) && position < |combined|
    ensures AllDigits(combined[..position])
    ensures ShiftedTo(combined, position, n) <==> AllZeros(combined[position..]) && DigitsValue(combined[..position]) == n
  {
    var a, b := combined[..position], combined[position..];
    assert combined == a + b;
    assert forall c | c in a :: c in combined;
    assert forall c | c in b :: c in combined;
    ValueAppend(a, b);
    ValueBound(b);
    ZeroValue(b);
    Quotient(DigitsValue(a), DigitsValue(b), n, Pow10(|b|));
  }

  lemma PointBefore(combined: string, position: int, n: int)
    requires AllDigits(combined) && position <= 0 && n >= 1
    ensures !ShiftedTo(combined, position, n)
  {
    ValueBound(combined);
    if combined == "" {
      assert DigitsValue(combined) == 0;
      if position < 0 { Dominates(n, 0, Pow10(-position)); }
    } else {
      PowMonotone(|combined|, |combined| - position);
      Dominates(n, 0, Pow10(|combined| - position));
    }
  }

  lemma PointAfter(combined: string, position: int)
    requires AllDigits(combined) && position >= |combined| && !AllZeros(combined)
    ensures var value := DigitsValue(combined) * Pow10(position - |combined|);
            match IntegerDigits(combined, position)
            case None => position == 0 || value > MAX_SAFE_INTEGER
            case Some(digits) => DigitsValue(digits) == value
  {
    StripKeepsValue(combined);
    ZeroValue(combined);
    MaxTextValue();
    var significant, zeros := StripZeros(combined), position - |combined|;
    LeadingDigit(significant);
    if |significant| + zeros > 16 {
      PowAdd(|significant| - 1, zeros);
      PowMonotone(16, |significant| - 1 + zeros);
      MulMonotone(Pow10(|significant| - 1), DigitsValue(combined), Pow10(zeros));
    } else {
      ValueAppend(significant, Zeros(zeros));
      ZeroValue(Zeros(zeros));
    }
  }

  lemma MulMonotone(a: int, b: int, p: int)
    requires a <= b && p >= 1
    ensures a * p <= b * p
  {
    if a < b { Dominates(b, a, p); }
  }

  /** Whatever the position of the point, the surviving text denotes n exactly if the shifted numeral is n. */
  lemma ShiftIsExact(combined: string, position: int, n: int)
    requires AllDigits(combined) && !AllZeros(combined) && 1 <= n <= MAX_SAFE_INTEGER
    ensures ShiftedTo(combined, position, n) <==> IntegerAt(combined, position) == Some(n)
  {
    if position <= 0 {
      PointBefore(combined, position, n);
    } else if position < |combined| {
      PointInside(combined, position, n);
      SafeIntegerIsBound(combined[..position]);
    } else {
      PointAfter(combined, position);
      if IntegerDigits(combined, position).Some? {
        SafeIntegerIsBound(IntegerDigits(combined, position).value);
      }
    }
  }

  lemma DenotesIsShift(t: Number, n: int)
    requires WellFormed(t) && !t.negative
    ensures Denotes(t, n) <==> ShiftedTo(Combined(t), |t.integer| + ExponentValue(t), n)
  {
  }

  lemma OnlyPositiveDenotes(t: Number, n: int)
    requires WellFormed(t) && n >= 1 && Denotes(t, n)
    ensures !t.negative && !AllZeros(Combined(t))
  {
    var m := DigitsValue(Combined(t));
    ZeroValue(Combined(t));
    if Scale(t) >= 0 {
      if t.negative { MulMonotone(-m, 0, Pow10(Scale(t))); }
    } else {
      Dominates(n, 0, Pow10(-Scale(t)));
    }
  }

  lemma AcceptedIsSafe(token: string)
    ensures ExactSafeIntegerFromToken(token).Some? ==> 1 <= ExactSafeIntegerFromToken(token).value <= MAX_SAFE_INTEGER
  {
  }

  /** For every text: the conversion yields n exactly when the text is a JSON number whose rational value is the integer
      n between 1 and 2^53 - 1 and whose exponent has at most six significant digits. */
  lemma ConversionIsExact(token: string, n: nat)
    ensures ExactSafeIntegerFromToken(token) == Some(n) <==>
              1 <= n <= MAX_SAFE_INTEGER
              && exists t :: WellFormed(t) && Render(t) == token && ShortExponent(t) && Denotes(t, n)
  {
    AcceptedIsSafe(token);
    if 1 <= n <= MAX_SAFE_INTEGER {
      forall t: Number | WellFormed(t) && Render(t) == token && Denotes(t, n) ensures Match(token) == Some(t) {
        MatchIsGrammar(token, t);
      }
      match Match(token) {
        case None =>
        case Some(t) => MatchedIsExact(token, t, n);
      }
    }
  }

  lemma MatchedIsExact(token: string, t: Number, n: nat)
    requires Match(token) == Some(t) && 1 <= n <= MAX_SAFE_INTEGER
    ensures ExactSafeIntegerFromToken(token) == Some(n) <==> ShortExponent(t) && Denotes(t, n)
  {
    ConvertIsExact(t, n);
  }

  lemma ConvertIsExact(t: Number, n: nat)
    requires WellFormed(t) && 1 <= n <= MAX_SAFE_INTEGER
    ensures Convert(t) == Some(n) <==> ShortExponent(t) && Denotes(t, n)
  {
    if t.negative || AllZeros(Combined(t)) {
      if Denotes(t, n) { OnlyPositiveDenotes(t, n); }
    } else {
      ToExponentIsValue(t);
      assert Denotes(t, n) <==> ShiftedTo(Combined(t), |t.integer| + ExponentValue(t), n) by { DenotesIsShift(t, n); }
      PositiveConversion(t, n);
    }
  }

  /** The conversion of a positive number, once the exponent is read. */
  lemma PositiveConversion(t: Number, n: nat)
    requires WellFormed(t) && 1 <= n <= MAX_SAFE_INTEGER && !t.negative && !AllZeros(Combined(t))
    requires ToExponent(ExponentText(t)) == if ShortExponent(t) then Some(ExponentValue(t)) else None
    ensures Convert(t) == Some(n) <==> ShortExponent(t) && ShiftedTo(Combined(t), |t.integer| + ExponentValue(t), n)
  {
    var position := |t.integer| + ExponentValue(t);
    ShiftIsExact(Combined(t), position, n);
    if ShortExponent(t) { assert Convert(t) == IntegerAt(Combined(t), position); } else { assert Convert(t) == None; }
  }

  // ----- tokens a request can carry -----

  /** Far above the size of any request body the API accepts. */
  const LONG_TOKEN: nat := 900000

  /** More than six significant digits make an exponent of a million or more, in either direction. */
  lemma LongExponentIsHuge(t: Number)
    requires WellFormed(t) && !ShortExponent(t)
    ensures ExponentValue(t) >= 1000000 || ExponentValue(t) <= -1000000
  {
    var digits := Unsigned(t.exponent.value.text);
    StripKeepsValue(digits);
    LeadingDigit(StripZeros(digits));
    PowMonotone(6, |StripZeros(digits)| - 1);
    PowFour();
    assert Pow10(6) == 100 * Pow10(4);
  }

  lemma LengthBoundsNumeral(t: Number)
    requires WellFormed(t)
    ensures |Combined(t)| <= |Render(t)| && |Fraction(t)| <= |Render(t)|
  {
  }

  /** A large positive scale makes every numeral too large. */
  lemma HugeScale(m: int, scale: nat, n: int)
    requires m >= 1 && scale >= 17 && n <= MAX_SAFE_INTEGER
    ensures m * Pow10(scale) != n
  {
    MaxTextValue();
    PowMonotone(16, scale);
    MulMonotone(1, m, Pow10(scale));
  }

  /** A scale below the numeral's length leaves no positive integer. */
  lemma TinyScale(m: int, length: nat, shift: nat, n: int)
    requires m < Pow10(length) && length <= shift && n >= 1
    ensures m != n * Pow10(shift)
  {
    PowMonotone(length, shift);
    MulMonotone(1, n, Pow10(shift));
  }

  /** A number of fewer than 900,000 characters that denotes a safe positive integer has a short exponent. */
  lemma ShortTokenHasShortExponent(t: Number, n: int)
    requires WellFormed(t) && |Render(t)| < LONG_TOKEN && 1 <= n <= MAX_SAFE_INTEGER && Denotes(t, n)
    ensures ShortExponent(t)
  {
    OnlyPositiveDenotes(t, n);
    LengthBoundsNumeral(t);
    var m := DigitsValue(Combined(t));
    ZeroValue(Combined(t));
    ValueBound(Combined(t));
    if !ShortExponent(t) {
      LongExponentIsHuge(t);
      if Scale(t) >= 0 { HugeScale(m, Scale(t), n); } else { TinyScale(m, |Combined(t)|, -Scale(t), n); }
    }
  }

  /** For every text of fewer than 900,000 characters: the conversion yields n exactly when the text is a JSON number whose
      rational value is the integer n between 1 and 2^53 - 1, however it is written. */
  lemma ConversionIsExactForRequests(token: string, n: nat)
    requires |token| < LONG_TOKEN
    ensures ExactSafeIntegerFromToken(token) == Some(n) <==>
              1 <= n <= MAX_SAFE_INTEGER && exists t :: WellFormed(t) && Render(t) == token && Denotes(t, n)
  {
    ConversionIsExact(token, n);
    if 1 <= n <= MAX_SAFE_INTEGER {
      forall t | WellFormed(t) && Render(t) == token && Denotes(t, n) ensures ShortExponent(t) {
        ShortTokenHasShortExponent(t, n);
      }
    }
  }

  /** 1 followed by k zeros and the exponent -k is a way to write 1. */
  lemma OneWithZeros(k: nat, text: string)
    requires text != "" && text[0] == '-' && SignedDigits(text) && DigitsValue(text[1..]) == k
    ensures var t := Number(false, "1" + Zeros(k), None, Some(Exponent('e', text)));
            WellFormed(t) && Denotes(t, 1)
  {
    ZeroValue(Zeros(k));
    ValueAppend("1", Zeros(k));
    assert DigitsValue("1") == 1 by { assert "1"[..0] == ""; }
    var t := Number(false, "1" + Zeros(k), None, Some(Exponent('e', text)));
    assert Combined(t) == t.integer;
    if k == 0 { assert Zeros(0) == ""; }
  }

  /** Without that bound it fails: of more than a million characters, a number whose value is 1 is rejected because its
      exponent has seven significant digits. */
  lemma LongExponentIsRejected()
    ensures var t := Number(false, "1" + Zeros(1000000), None, Some(Exponent('e', "-1000000")));
            WellFormed(t) && Denotes(t, 1) && ExactSafeIntegerFromToken(Render(t)) == None
  {
    var digits := "1000000";
    assert "-1000000"[1..] == digits;
    MillionValue();
    OneWithZeros(1000000, "-1000000");
    var t := Number(false, "1" + Zeros(1000000), None, Some(Exponent('e', "-1000000")));
    MatchIsGrammar(Render(t), t);
    MatchedIsExact(Render(t), t, 1);
    assert StripZeros(digits) == digits;
    assert !ShortExponent(t);
    LongExponentFails(Render(t), t);
  }

  lemma LongExponentFails(token: string, t: Number)
    requires Match(token) == Some(t) && !ShortExponent(t)
    ensures ExactSafeIntegerFromToken(token) == None
  {
    ToExponentIsValue(t);
  }

  lemma MillionValue()
    ensures AllDigits("1000000") && DigitsValue("1000000") == 1000000
  {
    EightDigits('0', '1', '0', '0', '0', '0', '0', '0');
    assert StripZeros("01000000") == "1000000" by { assert "01000000"[1..] == "1000000"; }
    StripKeepsValue("01000000");
  }

  // ----- the stricter token of event payloads -----

  /** Only plain positive numerals: no sign, leading zero, fraction or exponent. */
  function ParseExactSafeInteger(token: Option<string>): Option<nat> {
    if token.None? then None else
    var s := token.value;
    if s == "" || !AllDigits(s) || s[0] == '0' || |s| > |MAX_SAFE_INTEGER_TEXT|
       || (|s| == |MAX_SAFE_INTEGER_TEXT| && LexicographicallyGreater(s, MAX_SAFE_INTEGER_TEXT))
    then None
    else
      var amount := DigitsValue(s);
      if amount <= MAX_SAFE_INTEGER then Some(amount) else None
  }

  /** What the event contract accepts is exactly the tokens of the request parser that are plain numerals,
      and both read the same amount. */
  lemma EventTokensAgree(token: string)
    ensures ParseExactSafeInteger(Some(token)) ==
              if token != "" && AllDigits(token) && token[0] != '0' then ExactSafeIntegerFromToken(token) else None
  {
    if token != "" && AllDigits(token) && token[0] != '0' {
      PlainToken(token);
      PlainParse(token);
    }
  }

  lemma PlainParse(token: string)
    requires token != "" && AllDigits(token) && token[0] != '0'
    ensures ParseExactSafeInteger(Some(token)) == SafeInteger(token)
  {
    assert StripZeros(token) == token;
    LeadingDigit(token);
  }

  lemma PlainToken(token: string)
    requires token != "" && AllDigits(token) && token[0] != '0'
    ensures ExactSafeIntegerFromToken(token) == SafeInteger(token)
  {
    var t := Number(false, token, None, None);
    assert Render(t) == token by { assert "" + (token + ("" + "")) == token; }
    MatchIsGrammar(token, t);
    PlainNumeral(t);
  }

  /** A number without fraction and exponent is converted as its digits stand. */
  lemma PlainNumeral(t: Number)
    requires WellFormed(t) && !t.negative && t.fraction.None? && t.exponent.None? && t.integer[0] != '0'
    ensures Convert(t) == SafeInteger(t.integer)
  {
    var s := t.integer;
    assert Combined(t) == s && s[0] in s;
    StripKeepsValue(s);
    assert StripZeros(s) == s;
    assert Zeros(0) == "" && s + "" == s;
    SafeIntegerIsBound(s);
    if |s| > 16 {
      MaxTextValue();
      LeadingDigit(s);
      PowMonotone(16, |s| - 1);
    }
  }
}
