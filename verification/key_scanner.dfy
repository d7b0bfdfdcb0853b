/** The one-pass scanner for duplicate member names, against the structure of JSON texts (RFC 8259). */
module KeyScanner {
  import opened Basics
  import opened Sums
  import AmountToken

  // ----- JSON texts: sections 2 to 7 of RFC 8259, with every insignificant character kept -----

  datatype Json =
    | Atom(text: string)
    | Text(body: string)
    | Array(pad: string, elements: Elements)
    | Object(pad: string, members: Members)

  datatype Elements =
    | NoElements
    | Element(before: string, value: Json, after: string, rest: Elements)

  datatype Members =
    | NoMembers
    | Member(before: string, name: string, afterName: string, beforeValue: string, value: Json, after: string, rest: Members)

  predicate Whitespace(s: string) { forall c | c in s :: c == ' ' || c == '\t' || c == '\n' || c == '\r' }

  predicate Hex(c: char) { '0' <= c <= '9' || 'a' <= c <= 'f' || 'A' <= c <= 'F' }

  /** How many characters the first unit of a string body takes: a plain character, an escape or a \u escape;
      0 if the body does not start with one. */
  function UnitLength(body: string): (n: nat)
    ensures n <= |body|
  {
    if body == "" then 0
    else if body[0] == '\\' then
      if |body| >= 2 && body[1] in "\"\\/bfnrt" then 2
      else if |body| >= 6 && body[1] == 'u' && Hex(body[2]) && Hex(body[3]) && Hex(body[4]) && Hex(body[5]) then 6
      else 0
    else if body[0] == '"' || body[0] < ' ' then 0
    else 1
  }

  predicate ValidBody(body: string) {
    body == "" || (UnitLength(body) > 0 && ValidBody(body[UnitLength(body)..]))
  }

  predicate ValidAtom(text: string) {
    text == "true" || text == "false" || text == "null" || AmountToken.Match(text).Some?
  }

  predicate Valid(v: Json) {
    match v
    case Atom(text) => ValidAtom(text)
    case Text(body) => ValidBody(body)
    case Array(pad, es) => Whitespace(pad) && ValidElements(es)
    case Object(pad, ms) => Whitespace(pad) && ValidMembers(ms)
  }

  predicate ValidElements(es: Elements) {
    es.Element? ==> Whitespace(es.before) && Valid(es.value) && Whitespace(es.after) && ValidElements(es.rest)
  }

  predicate ValidMembers(ms: Members) {
    ms.Member? ==>
      && Whitespace(ms.before) && ValidBody(ms.name) && Whitespace(ms.afterName) && Whitespace(ms.beforeValue)
      && Valid(ms.value) && Whitespace(ms.after) && ValidMembers(ms.rest)
  }

  function Quoted(body: string): string { "\"" + (body + "\"") }

  function Write(v: Json): string {
    match v
    case Atom(text) => text
    case Text(body) => Quoted(body)
    case Array(pad, es) => "[" + ((if es.NoElements? then pad else WriteElements(es)) + "]")
    case Object(pad, ms) => "{" + ((if ms.NoMembers? then pad else WriteMembers(ms)) + "}")
  }

  function WriteElements(es: Elements): string
    requires es.Element?
  {
    es.before + (Write(es.value) + (es.after + if es.rest.NoElements? then "" else "," + WriteElements(es.rest)))
  }

  function WriteMembers(ms: Members): string
    requires ms.Member?
  {
    ms.before + (Quoted(ms.name) + (ms.afterName + (":" + (ms.beforeValue + (Write(ms.value)
      + (ms.after + if ms.rest.NoMembers? then "" else "," + WriteMembers(ms.rest)))))))
  }

  function Names(ms: Members): seq<string> {
    if ms.NoMembers? then [] else [ms.name] + Names(ms.rest)
  }

  // ----- the decoded name: UTF-16 code units, as JSON.parse yields them -----

  function HexValue(c: char): int
    requires Hex(c)
  {
    if c <= '9' then c as int - '0' as int else if c <= 'F' then c as int - 'A' as int + 10 else c as int - 'a' as int + 10
  }

  function CodeUnits(c: char): seq<int> {
    var n := c as int;
    if n < 0x10000 then [n] else [0xD800 + (n - 0x10000) / 0x400, 0xDC00 + (n - 0x10000) % 0x400]
  }

  function Unescaped(c: char): int {
    match c
    case 'b' => 8
    case 'f' => 12
    case 'n' => 10
    case 'r' => 13
    case 't' => 9
    case _ => c as int
  }

  /** The code units of the first unit of a body. */
  function FirstUnit(body: string): seq<int>
    requires UnitLength(body) > 0
  {
    match UnitLength(body)
    case 1 => CodeUnits(body[0])
    case 2 => [Unescaped(body[1])]
    case _ => [HexValue(body[2]) * 0x1000 + HexValue(body[3]) * 0x100 + HexValue(body[4]) * 0x10 + HexValue(body[5])]
  }

  /** The string value of a body between its quotes, or None where JSON.parse throws. */
  function Decode(body: string): Option<seq<int>> {
    if body == "" then Some([])
    else if UnitLength(body) == 0 then None
    else
      match Decode(body[UnitLength(body)..])
      case None => None
      case Some(rest) => Some(FirstUnit(body) + rest)
  }

  lemma {:induction false} ValidBodiesDecode(body: string)
    ensures ValidBody(body) <==> Decode(body).Some?
    decreases |body|
  {
    if body != "" && UnitLength(body) > 0 { ValidBodiesDecode(body[UnitLength(body)..]); }
  }

  // ----- what a body denotes: section 7 of RFC 8259 -----

  const DIGITS := Characters('0', 10) + Characters('a', 6)
  const CAPITAL_DIGITS := Characters('0', 10) + Characters('A', 6)

  ghost predicate Digit(c: char, v: int) {
    0 <= v < 16 && (DIGITS[v] == c || CAPITAL_DIGITS[v] == c)
  }

  /** The code units are the UTF-16 form of the character. */
  ghost predicate Utf16(c: char, units: seq<int>) {
    || (c as int < 0x10000 && units == [c as int])
    || (|units| == 2 && 0xD800 <= units[0] < 0xDC00 <= units[1] < 0xE000
        && c as int == 0x10000 + (units[0] - 0xD800) * 0x400 + (units[1] - 0xDC00))
  }

  const ESCAPES: map<char, int> := map['"' := 34, '\\' := 92, '/' := 47, 'b' := 8, 'f' := 12, 'n' := 10, 'r' := 13, 't' := 9]

  /** The text is a character that needs no escape, a short escape, or an escape by four hexadecimal digits. */
  ghost predicate Spells(text: string, units: seq<int>) {
    || (|text| == 1 && text[0] != '"' && text[0] != '\\' && text[0] >= ' ' && Utf16(text[0], units))
    || (|text| == 2 && text[0] == '\\' && text[1] in ESCAPES && units == [ESCAPES[text[1]]])
    || (|text| == 6 && text[0] == '\\' && text[1] == 'u'
        && exists a, b, c, d :: Digit(text[2], a) && Digit(text[3], b) && Digit(text[4], c) && Digit(text[5], d)
                                && units == [((a * 16 + b) * 16 + c) * 16 + d])
  }

  /** The body is a sequence of spellings of the code units. */
  ghost predicate Denotes(body: string, units: seq<int>)
    decreases |body|
  {
    if body == "" then units == [] else
    exists n, m :: 0 < n <= |body| && 0 <= m <= |units| && Spells(body[..n], units[..m]) && Denotes(body[n..], units[m..])
  }

  lemma HexIsDigit(c: char)
    ensures Hex(c) <==> exists v :: Digit(c, v)
    ensures forall v :: Hex(c) && v == HexValue(c) <==> Digit(c, v)
  {
    var n := c as int;
    if '0' <= c <= '9' {
      assert Digit(c, n - 48);
    } else if 'a' <= c <= 'f' {
      assert Digit(c, n - 87);
    } else if 'A' <= c <= 'F' {
      assert Digit(c, n - 55);
    }
  }

  lemma HexIsFourDigits(text: string, units: seq<int>)
    requires |text| == 6 && text[0] == '\\' && text[1] == 'u'
    ensures Spells(text, units) <==>
              Hex(text[2]) && Hex(text[3]) && Hex(text[4]) && Hex(text[5])
              && units == [HexValue(text[2]) * 0x1000 + HexValue(text[3]) * 0x100 + HexValue(text[4]) * 0x10 + HexValue(text[5])]
  {
    HexIsDigit(text[2]);
    HexIsDigit(text[3]);
    HexIsDigit(text[4]);
    HexIsDigit(text[5]);
    if Hex(text[2]) && Hex(text[3]) && Hex(text[4]) && Hex(text[5]) {
      assert Digit(text[2], HexValue(text[2])) && Digit(text[3], HexValue(text[3]));
      assert Digit(text[4], HexValue(text[4])) && Digit(text[5], HexValue(text[5]));
    }
  }

  lemma CharacterIsUtf16(c: char, units: seq<int>)
    ensures Utf16(c, units) <==> units == CodeUnits(c)
  {
  }

  lemma EscapeIsLetter(c: char)
    ensures c in "\"\\/bfnrt" <==> c in ESCAPES
    ensures c in ESCAPES ==> ESCAPES[c] == Unescaped(c) && c != 'u'
  {
  }

  lemma LongSpelling(body: string, units: seq<int>)
    requires |body| >= 6 && body[0] == '\\' && body[1] == 'u'
    ensures Spells(body[..6], units) <==> UnitLength(body) == 6 && units == FirstUnit(body)
  {
    EscapeIsLetter('u');
    HexIsFourDigits(body[..6], units);
  }

  lemma ShortSpelling(body: string, units: seq<int>)
    requires |body| >= 2 && body[0] == '\\'
    ensures Spells(body[..2], units) <==> UnitLength(body) == 2 && units == FirstUnit(body)
  {
    EscapeIsLetter(body[1]);
  }

  lemma PlainSpelling(body: string, units: seq<int>)
    requires |body| >= 1
    ensures Spells(body[..1], units) <==> UnitLength(body) == 1 && units == FirstUnit(body)
  {
    CharacterIsUtf16(body[0], units);
  }

  /** The first unit of a body is a spelling, and no other prefix is one. */
  lemma SpellingIsUnit(body: string, n: nat, units: seq<int>)
    requires 0 < n <= |body|
    ensures Spells(body[..n], units) <==> n == UnitLength(body) && units == FirstUnit(body)
  {
    if n == 1 {
      PlainSpelling(body, units);
    } else if n == 2 && body[0] == '\\' {
      ShortSpelling(body, units);
    } else if n == 6 && body[0] == '\\' && body[1] == 'u' {
      LongSpelling(body, units);
    } else if n == 6 {
      assert body[..6][1] == body[1];
    }
  }

  /** Every body has at most one reading, and decoding finds it: the value of a name is what its characters and escapes denote,
      and a body is rejected exactly if it denotes nothing. */
  lemma {:induction false} DecodeIsReading(body: string, units: seq<int>)
    ensures Decode(body) == Some(units) <==> Denotes(body, units)
    decreases |body|
  {
    if body != "" {
      var k := UnitLength(body);
      forall n, m | 0 < n <= |body| && 0 <= m <= |units|
        ensures Spells(body[..n], units[..m]) <==> n == k && units[..m] == FirstUnit(body)
      {
        SpellingIsUnit(body, n, units[..m]);
      }
      if k > 0 {
        var first := FirstUnit(body);
        var m := |first|;
        if m <= |units| {
          DecodeIsReading(body[k..], units[m..]);
          assert units == units[..m] + units[m..];
          if Decode(body) == Some(units) { assert units[..m] == first && Spells(body[..k], units[..m]); }
        }
      }
    }
  }

  // ----- the scanner -----

  /** The scanner between two characters; `key` is what follows the opening quote of a member name so far. */
  datatype Scanner = Scanner(depth: int, escaped: bool, expectingKey: bool, inString: bool, key: Option<string>, found: seq<string>)

  const START := Scanner(0, false, false, false, None, [])

  function Step(s: Scanner, c: char): Scanner {
    if s.inString then
      if !s.escaped && c == '"' then
        if s.key.Some? then s.(inString := false, key := None, expectingKey := false, found := s.found + [s.key.value])
        else s.(inString := false)
      else
        s.(escaped := !s.escaped && c == '\\', key := if s.key.Some? then Some(s.key.value + [c]) else None)
    else if c == '"' then s.(inString := true, key := if s.depth == 1 && s.expectingKey then Some("") else s.key)
    else if c == '{' || c == '[' then
      s.(depth := s.depth + 1, expectingKey := if s.depth == 0 && c == '{' then true else s.expectingKey)
    else if c == '}' || c == ']' then s.(depth := s.depth - 1)
    else if c == ',' && s.depth == 1 then s.(expectingKey := true)
    else s
  }

  function Run(s: Scanner, text: string): Scanner
    decreases |text|
  {
    if text == "" then s else Run(Step(s, text[0]), text[1..])
  }

  /** The raw member names the scanner collects from a text. */
  function Found(text: string): seq<string> {
    Run(START, text).found
  }

  function DecodeAll(names: seq<string>): (r: seq<Option<seq<int>>>)
    ensures |r| == |names|
  {
    seq(|names|, i requires 0 <= i < |names| => Decode(names[i]))
  }

  /** Every collected name decodes, and no two decode to the same string. */
  ghost predicate Accepts(text: string) {
    var decoded := DecodeAll(Found(text));
    Distinct(decoded) && forall i | 0 <= i < |decoded| :: decoded[i].Some?
  }

  lemma {:induction false} RunAppend(s: Scanner, a: string, b: string)
    ensures Run(s, a + b) == Run(Run(s, a), b)
    decreases |a|
  {
    if a == "" {
      assert a + b == b;
    } else {
      assert (a + b)[1..] == a[1..] + b;
      RunAppend(Step(s, a[0]), a[1..], b);
    }
  }

  lemma RunSnoc(s: Scanner, a: string, c: char)
    ensures Run(s, a + [c]) == Step(Run(s, a), c)
  {
    RunAppend(s, a, [c]);
    assert Run(Run(s, a), [c]) == Run(Step(Run(s, a), c), [c][1..]);
  }

  /** The scanner's flags in a loop over the characters, as the request parser and the event contract run it. */
  method AssertNoDuplicateTopLevelKeys(text: string) returns (accepted: bool)
    ensures accepted <==> Accepts(text)
  {
    var keys: set<Option<seq<int>>> := {};
    var depth, escaped, expectingKey, inString := 0, false, false, false;
    var keyStart: Option<nat> := None;
    ghost var s := START;
    for index := 0 to |text|
      invariant s == Run(START, text[..index])
      invariant s.depth == depth && s.escaped == escaped && s.expectingKey == expectingKey && s.inString == inString
      invariant keyStart.Some? <==> s.key.Some?
      invariant keyStart.Some? ==> inString && keyStart.value < index && s.key.value == text[keyStart.value + 1..index]
      invariant Distinct(DecodeAll(s.found))
      invariant keys == Range(DecodeAll(s.found)) && None !in keys
    {
      var character := text[index];
      assert text[..index + 1] == text[..index] + [character];
      RunSnoc(START, text[..index], character);
      ghost var next := Step(s, character);
      if inString {
        if escaped {
          escaped := false;
        } else if character == '\\' {
          escaped := true;
        } else if character == '"' {
          inString := false;
          if keyStart.Some? {
            var key := Decode(text[keyStart.value + 1..index]);
            DecodeOneMore(s.found, s.key.value);
            if key.None? || key in keys {
              NameRejects(text[..index + 1], s.found, s.key.value);
              RejectedForever(text, index + 1);
              return false;
            }
            keys := keys + {key};
            DistinctAppend(DecodeAll(s.found), key);
            keyStart := None;
            expectingKey := false;
          }
        }
      } else if character == '"' {
        inString := true;
        if depth == 1 && expectingKey {
          keyStart := Some(index);
        }
      } else if character == '{' || character == '[' {
        depth := depth + 1;
        if depth == 1 && character == '{' {
          expectingKey := true;
        }
      } else if character == '}' || character == ']' {
        depth := depth - 1;
      } else if character == ',' && depth == 1 {
        expectingKey := true;
      }
      s := next;
    }
    assert text[..|text|] == text;
    accepted := true;
  }

  lemma DecodeOneMore(names: seq<string>, name: string)
    ensures DecodeAll(names + [name]) == DecodeAll(names) + [Decode(name)]
  {
  }

  /** A name that does not decode, or decodes to an earlier one, makes the text unacceptable. */
  lemma NameRejects(text: string, names: seq<string>, name: string)
    requires Found(text) == names + [name]
    requires Decode(name).None? || Decode(name) in DecodeAll(names)
    ensures !Accepts(text)
  {
    DecodeOneMore(names, name);
    var decoded := DecodeAll(names + [name]);
    assert decoded[|names|] == Decode(name);
    if Decode(name) in DecodeAll(names) {
      var i :| 0 <= i < |names| && DecodeAll(names)[i] == Decode(name);
      assert decoded[i] == decoded[|names|];
    }
  }

  lemma {:induction false} FoundGrows(s: Scanner, text: string)
    ensures s.found <= Run(s, text).found
    decreases |text|
  {
    if text != "" {
      FoundGrows(Step(s, text[0]), text[1..]);
      assert s.found <= Step(s, text[0]).found;
    }
  }

  /** A prefix that is not acceptable decides the text. */
  lemma RejectedForever(text: string, n: nat)
    requires n <= |text| && !Accepts(text[..n])
    ensures !Accepts(text)
  {
    assert text == text[..n] + text[n..];
    RunAppend(START, text[..n], text[n..]);
    FoundGrows(Run(START, text[..n]), text[n..]);
    var a, b := Found(text[..n]), Found(text);
    assert a <= b;
    if Accepts(text) {
      forall i | 0 <= i < |a| ensures DecodeAll(a)[i] == DecodeAll(b)[i] {}
      assert false;
    }
  }

  // ----- the scanner follows the structure -----

  lemma {:induction false} SkipWhitespace(s: Scanner, w: string)
    requires Whitespace(w) && !s.inString
    ensures Run(s, w) == s
    decreases |w|
  {
    if w != "" {
      assert w[0] in w && forall c | c in w[1..] :: c in w;
      SkipWhitespace(s, w[1..]);
    }
  }

  predicate Inert(c: char) {
    c != '"' && c != '{' && c != '[' && c != '}' && c != ']' && c != ','
  }

  lemma {:induction false} SkipInert(s: Scanner, t: string)
    requires (forall c | c in t :: Inert(c)) && !s.inString
    ensures Run(s, t) == s
    decreases |t|
  {
    if t != "" {
      assert t[0] in t && forall c | c in t[1..] :: c in t;
      SkipInert(s, t[1..]);
    }
  }

  lemma NumberIsInert(t: AmountToken.Number, c: char)
    requires AmountToken.WellFormed(t) && c in AmountToken.Render(t)
    ensures Inert(c)
  {
    if c in AmountToken.RenderFraction(t.fraction) {
    } else if c in AmountToken.RenderExponent(t.exponent) {
      var text := t.exponent.value.text;
      if c != t.exponent.value.marker && c != text[0] {
        assert c in AmountToken.Unsigned(text);
      }
      if c == text[0] && c != '+' && c != '-' { assert c in AmountToken.Unsigned(text); }
    }
  }

  lemma SkipAtom(s: Scanner, text: string)
    requires ValidAtom(text) && !s.inString
    ensures Run(s, text) == s
  {
    if AmountToken.Match(text).Some? {
      forall c | c in text ensures Inert(c) { NumberIsInert(AmountToken.Match(text).value, c); }
    }
    SkipInert(s, text);
  }

  /** The scanner after reading t inside a string. */
  function Extend(s: Scanner, t: string): Scanner {
    s.(key := if s.key.Some? then Some(s.key.value + t) else None)
  }

  lemma ExtendTwice(s: Scanner, a: string, b: string)
    ensures Extend(Extend(s, a), b) == Extend(s, a + b)
    ensures Extend(s, "") == s
  {
    if s.key.Some? {
      assert s.key.value + a + b == s.key.value + (a + b);
      assert s.key.value + "" == s.key.value;
    }
  }

  lemma {:induction false} ReadPlain(s: Scanner, t: string)
    requires s.inString && !s.escaped && forall c | c in t :: c != '"' && c != '\\'
    ensures Run(s, t) == Extend(s, t)
    decreases |t|
  {
    ExtendTwice(s, t, "");
    if t != "" {
      assert t[0] in t && forall c | c in t[1..] :: c in t;
      assert t == [t[0]] + t[1..];
      ReadPlain(Step(s, t[0]), t[1..]);
      ExtendTwice(s, [t[0]], t[1..]);
    }
  }

  /** An escape and the character it escapes. */
  lemma ReadEscape(s: Scanner, c: char)
    requires s.inString && !s.escaped
    ensures Run(s, ['\\', c]) == Extend(s, ['\\', c])
  {
    RunSnoc(s, ['\\'], c);
    RunSnoc(s, "", '\\');
    assert "" + ['\\'] == ['\\'] && ['\\'] + [c] == ['\\', c];
    ExtendTwice(s, ['\\'], [c]);
  }

  /** One unit of a body, escapes included, never ends the string. */
  lemma ReadUnit(s: Scanner, body: string)
    requires s.inString && !s.escaped && UnitLength(body) > 0
    ensures Run(s, body[..UnitLength(body)]) == Extend(s, body[..UnitLength(body)])
  {
    var n := UnitLength(body);
    var u := body[..n];
    if n == 1 {
      ReadPlain(s, u);
    } else {
      ReadEscape(s, u[1]);
      if n == 2 {
        assert u == ['\\', u[1]];
      } else {
        var hex := [body[2], body[3], body[4], body[5]];
        assert u == ['\\', u[1]] + hex;
        RunAppend(s, ['\\', u[1]], hex);
        ReadPlain(Extend(s, ['\\', u[1]]), hex);
        ExtendTwice(s, ['\\', u[1]], hex);
      }
    }
  }

  lemma {:induction false} ReadBody(s: Scanner, body: string)
    requires s.inString && !s.escaped && ValidBody(body)
    ensures Run(s, body) == Extend(s, body)
    decreases |body|
  {
    ExtendTwice(s, body, "");
    if body != "" {
      var n := UnitLength(body);
      var u, rest := body[..n], body[n..];
      assert body == u + rest;
      ReadUnit(s, body);
      RunAppend(s, u, rest);
      ReadBody(Extend(s, u), rest);
      ExtendTwice(s, u, rest);
    }
  }

  /** Outside strings, with no name begun. */
  predicate Between(s: Scanner) {
    !s.inString && !s.escaped && s.key.None?
  }

  /** A string is a name exactly in key position. */
  lemma ReadText(s: Scanner, body: string)
    requires Between(s) && ValidBody(body)
    ensures Run(s, Quoted(body))
         == if s.depth == 1 && s.expectingKey then s.(expectingKey := false, found := s.found + [body]) else s
  {
    var inText := Step(s, '"');
    var text := Quoted(body);
    assert text[0] == '"' && text[1..] == body + "\"";
    RunAppend(inText, body, "\"");
    ReadBody(inText, body);
    assert "" + body == body;
    var read := Run(inText, body);
    assert Run(read, "\"") == Run(Step(read, '"'), "\""[1..]) == Step(read, '"');
  }

  lemma RunChar(s: Scanner, c: char, rest: string)
    ensures Run(s, [c] + rest) == Run(Step(s, c), rest)
  {
    assert ([c] + rest)[1..] == rest;
  }

  /** Not in key position of the top-level object. */
  predicate Inner(s: Scanner) {
    Between(s) && s.depth >= 1 && (s.depth == 1 ==> !s.expectingKey)
  }

  /** A value inside the document, whatever it nests, leaves the scanner as it was. */
  lemma {:induction false} SkipValue(s: Scanner, v: Json)
    requires Inner(s) && Valid(v)
    ensures Run(s, Write(v)) == s
    decreases v
  {
    match v
    case Atom(text) => SkipAtom(s, text);
    case Text(body) => ReadText(s, body);
    case Array(pad, es) =>
      var inside := Step(s, '[');
      var body := if es.NoElements? then pad else WriteElements(es);
      RunChar(s, '[', body + "]");
      RunAppend(inside, body, "]");
      if es.NoElements? { SkipWhitespace(inside, pad); } else { SkipElements(inside, es); }
      RunChar(inside, ']', "");
    case Object(pad, ms) =>
      var inside := Step(s, '{');
      var body := if ms.NoMembers? then pad else WriteMembers(ms);
      RunChar(s, '{', body + "}");
      RunAppend(inside, body, "}");
      if ms.NoMembers? { SkipWhitespace(inside, pad); } else { SkipMembers(inside, ms); }
      RunChar(inside, '}', "");
  }

  lemma {:induction false} SkipElements(s: Scanner, es: Elements)
    requires Between(s) && s.depth >= 2 && ValidElements(es) && es.Element?
    ensures Run(s, WriteElements(es)) == s
    decreases es
  {
    var rest := if es.rest.NoElements? then "" else "," + WriteElements(es.rest);
    RunAppend(s, es.before, Write(es.value) + (es.after + rest));
    RunAppend(s, Write(es.value), es.after + rest);
    RunAppend(s, es.after, rest);
    SkipWhitespace(s, es.before);
    SkipValue(s, es.value);
    SkipWhitespace(s, es.after);
    if es.rest.Element? {
      RunChar(s, ',', WriteElements(es.rest));
      SkipElements(s, es.rest);
    }
  }

  lemma {:induction false} SkipMembers(s: Scanner, ms: Members)
    requires Between(s) && s.depth >= 2 && ValidMembers(ms) && ms.Member?
    ensures Run(s, WriteMembers(ms)) == s
    decreases ms
  {
    var rest := if ms.rest.NoMembers? then "" else "," + WriteMembers(ms.rest);
    SplitMember(s, ms, rest);
    ReadText(s, ms.name);
    SkipWhitespace(s, ms.before);
    SkipWhitespace(s, ms.afterName);
    SkipWhitespace(s, ms.beforeValue);
    SkipValue(s, ms.value);
    SkipWhitespace(s, ms.after);
    if ms.rest.Member? {
      RunChar(s, ',', WriteMembers(ms.rest));
      SkipMembers(s, ms.rest);
    }
  }

  /** The scan of the first member, piece by piece. */
  lemma SplitMember(s: Scanner, ms: Members, rest: string)
    requires ms.Member? && rest == if ms.rest.NoMembers? then "" else "," + WriteMembers(ms.rest)
    ensures var a := Run(Run(s, ms.before), Quoted(ms.name));
            var b := Run(Step(Run(a, ms.afterName), ':'), ms.beforeValue);
            Run(s, WriteMembers(ms)) == Run(Run(Run(b, Write(ms.value)), ms.after), rest)
  {
    var t5 := ms.after + rest;
    var t4 := Write(ms.value) + t5;
    var t3 := ms.beforeValue + t4;
    var t2 := ms.afterName + (":" + t3);
    var t1 := Quoted(ms.name) + t2;
    RunAppend(s, ms.before, t1);
    var s1 := Run(s, ms.before);
    RunAppend(s1, Quoted(ms.name), t2);
    var s2 := Run(s1, Quoted(ms.name));
    RunAppend(s2, ms.afterName, ":" + t3);
    var s3 := Run(s2, ms.afterName);
    RunChar(s3, ':', t3);
    RunAppend(Step(s3, ':'), ms.beforeValue, t4);
    var s4 := Run(Step(s3, ':'), ms.beforeValue);
    RunAppend(s4, Write(ms.value), t5);
    RunAppend(Run(s4, Write(ms.value)), ms.after, rest);
  }

  /** Between two characters of the top-level object, outside strings. */
  function TopLevel(expectingKey: bool, found: seq<string>): Scanner {
    Scanner(1, false, expectingKey, false, None, found)
  }

  /** The first member of the top-level object, up to its comma or the closing brace. */
  lemma CollectFirst(found: seq<string>, ms: Members, rest: string)
    requires ValidMembers(ms) && ms.Member?
    requires rest == if ms.rest.NoMembers? then "" else "," + WriteMembers(ms.rest)
    ensures Run(TopLevel(true, found), WriteMembers(ms)) == Run(TopLevel(false, found + [ms.name]), rest)
  {
    var s, named := TopLevel(true, found), TopLevel(false, found + [ms.name]);
    SplitMember(s, ms, rest);
    SkipWhitespace(s, ms.before);
    ReadText(s, ms.name);
    SkipWhitespace(named, ms.afterName);
    SkipWhitespace(named, ms.beforeValue);
    SkipValue(named, ms.value);
    SkipWhitespace(named, ms.after);
  }

  /** In key position of the top-level object the scanner collects the members' names. */
  lemma {:induction false} CollectMembers(found: seq<string>, ms: Members)
    requires ValidMembers(ms) && ms.Member?
    ensures Run(TopLevel(true, found), WriteMembers(ms)) == TopLevel(false, found + Names(ms))
    decreases ms
  {
    var named := found + [ms.name];
    assert found + Names(ms) == named + Names(ms.rest);
    if ms.rest.NoMembers? {
      CollectFirst(found, ms, "");
      assert named + [] == named;
    } else {
      CollectFirst(found, ms, "," + WriteMembers(ms.rest));
      RunChar(TopLevel(false, named), ',', WriteMembers(ms.rest));
      CollectMembers(named, ms.rest);
    }
  }

  /** For every well-formed JSON object, whatever its nesting, escapes and whitespace: the scanner collects exactly the
      top-level member names in order, and rejects exactly if two of them decode to the same string. */
  lemma ScannerFollowsStructure(lead: string, v: Json, trail: string)
    requires v.Object? && Valid(v) && Whitespace(lead) && Whitespace(trail)
    ensures var text := lead + (Write(v) + trail);
            && Found(text) == Names(v.members)
            && (Accepts(text) <==> Distinct(DecodeAll(Names(v.members))))
  {
    RunAppend(START, lead, Write(v) + trail);
    SkipWhitespace(START, lead);
    RunAppend(START, Write(v), trail);
    var inside := Step(START, '{');
    var body := if v.members.NoMembers? then v.pad else WriteMembers(v.members);
    RunChar(START, '{', body + "}");
    RunAppend(inside, body, "}");
    if v.members.NoMembers? {
      SkipWhitespace(inside, v.pad);
    } else {
      CollectMembers([], v.members);
      assert [] + Names(v.members) == Names(v.members);
    }
    var read := Run(inside, body);
    RunChar(read, '}', "");
    SkipWhitespace(Step(read, '}'), trail);
    NamesDecode(v.members);
  }

  lemma {:induction false} NamesDecode(ms: Members)
    requires ValidMembers(ms)
    ensures forall i | 0 <= i < |Names(ms)| :: Decode(Names(ms)[i]).Some?
    decreases ms
  {
    if ms.Member? {
      ValidBodiesDecode(ms.name);
      NamesDecode(ms.rest);
    }
  }

  /** Two of the names denote the same string. */
  ghost predicate SameNames(names: seq<string>) {
    exists i, j, units :: 0 <= i < j < |names| && Denotes(names[i], units) && Denotes(names[j], units)
  }

  lemma DistinctMeansNoSame(names: seq<string>)
    requires forall i | 0 <= i < |names| :: Decode(names[i]).Some?
    ensures Distinct(DecodeAll(names)) <==> !SameNames(names)
  {
    var decoded := DecodeAll(names);
    forall i, units | 0 <= i < |names| ensures decoded[i] == Some(units) <==> Denotes(names[i], units) {
      DecodeIsReading(names[i], units);
    }
    if i, j :| 0 <= i < j < |decoded| && decoded[i] == decoded[j] {
      assert decoded[i] == Some(decoded[i].value);
      assert Denotes(names[i], decoded[i].value) && Denotes(names[j], decoded[i].value);
    }
    if SameNames(names) {
      var i, j, units :| 0 <= i < j < |names| && Denotes(names[i], units) && Denotes(names[j], units);
      assert decoded[i] == Some(units) && decoded[j] == Some(units);
    }
  }

  /** For every well-formed JSON object: the text is rejected exactly if two of its top-level names denote the same string,
      however they are written. */
  lemma RejectsSameNames(lead: string, v: Json, trail: string)
    requires v.Object? && Valid(v) && Whitespace(lead) && Whitespace(trail)
    ensures Accepts(lead + (Write(v) + trail)) <==> !SameNames(Names(v.members))
  {
    ScannerFollowsStructure(lead, v, trail);
    NamesDecode(v.members);
    DistinctMeansNoSame(Names(v.members));
  }
}
