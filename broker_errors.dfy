/** Reading the broker's error text: the case-insensitive insufficient-funds
    test and the extraction of the required and available amounts, from a
    JSON payload (an oracle here) or from the `required: ` / `available: `
    fields of a plain message, with the fallbacks of `core/execution.py`. */
module BrokerErrors {
  import opened Common
  import opened Text

  const InsufficientMarker: string := "insufficient options buying power"
  const JsonPrefix: string := "{\"code\""
  const RequiredKey: string := "required: "
  const AvailableKey: string := "available: "

  /** `"insufficient options buying power" in error_str.lower()`. */
  predicate IsInsufficientFunds(msg: string) {
    Contains(Lower(msg), InsufficientMarker)
  }

  /** `str(e)` of the `TypeError` that `f"{None:.2f}"` raises. */
  const NoneFormatMessage: string := "unsupported format " + "string passed to " + "NoneType.__format__"

  /** The message holds no `b` in either case. */
  lemma NoneFormatLacksB()
    ensures forall k :: 0 <= k < |NoneFormatMessage| ==> NoneFormatMessage[k] != 'b' && NoneFormatMessage[k] != 'B'
  {
    assert 'b' !in NoneFormatMessage && 'B' !in NoneFormatMessage;
  }

  /** That message is no insufficient-funds message: it holds no `b`, and the
      marker does (`buying`). */
  lemma NoneFormatNotInsufficient()
    ensures !IsInsufficientFunds(NoneFormatMessage)
  {
    var l := Lower(NoneFormatMessage);
    assert InsufficientMarker[21] == 'b';
    NoneFormatLacksB();
    forall i | 0 <= i <= |l|
      ensures !OccursAt(l, InsufficientMarker, i)
    {
      if i + |InsufficientMarker| <= |l| {
        Mismatch(l, InsufficientMarker, i, 21);
      }
    }
  }

  /** A character of the first part of the group `([\d,]+\.?\d*)`. */
  predicate IsAmountChar(c: char) {
    IsDigit(c) || c == ','
  }

  /** End of the run of digits and commas starting at j. */
  function AmountRunEnd(s: string, j: int): (e: int)
    requires 0 <= j <= |s|
    ensures j <= e <= |s|
    ensures forall k :: j <= k < e ==> IsAmountChar(s[k])
    ensures e < |s| ==> !IsAmountChar(s[e])
    decreases |s| - j
  {
    if j < |s| && IsAmountChar(s[j]) then AmountRunEnd(s, j + 1) else j
  }

  /** End of the run of digits starting at j. */
  function DigitRunEnd(s: string, j: int): (e: int)
    requires 0 <= j <= |s|
    ensures j <= e <= |s|
    ensures forall k :: j <= k < e ==> IsDigit(s[k])
    ensures e < |s| ==> !IsDigit(s[e])
    decreases |s| - j
  {
    if j < |s| && IsDigit(s[j]) then DigitRunEnd(s, j + 1) else j
  }

  /** The pattern `key([\d,]+\.?\d*)` can start matching at position i. */
  predicate MatchesAt(s: string, key: string, i: int) {
    OccursAt(s, key, i) && i + |key| < |s| && IsAmountChar(s[i + |key|])
  }

  /** The text the group captures from position j: the greedy digits-and-commas
      run, then a dot with the digits after it when a dot follows. */
  datatype Capture = Capture(whole: string, intPart: string, fracPart: string)

  /** Text made of digits and commas only. */
  predicate AmountText(d: string) {
    forall k :: 0 <= k < |d| ==> IsAmountChar(d[k])
  }

  function CaptureAt(s: string, j: int): (c: Capture)
    requires 0 <= j < |s| && IsAmountChar(s[j])
    ensures 1 <= |c.whole| && j + |c.whole| <= |s| && c.whole == s[j..j + |c.whole|]
    ensures 1 <= |c.intPart| && AmountText(c.intPart)
    ensures AllDigits(c.fracPart)
  {
    var e1 := AmountRunEnd(s, j);
    if e1 < |s| && s[e1] == '.' then
      var e2 := DigitRunEnd(s, e1 + 1);
      Capture(s[j..e2], s[j..e1], s[e1 + 1..e2])
    else
      Capture(s[j..e1], s[j..e1], "")
  }

  /** The parts of the capture are the greedy runs of the message: the
      digits-and-commas run from j, then, exactly when a dot ends that run,
      the dot and the digit run after it. */
  lemma CaptureRuns(s: string, j: int)
    requires 0 <= j < |s| && IsAmountChar(s[j])
    ensures var c := CaptureAt(s, j);
      var e1 := AmountRunEnd(s, j);
      && c.intPart == s[j..e1]
      && (e1 < |s| && s[e1] == '.' ==>
            c.fracPart == s[e1 + 1..DigitRunEnd(s, e1 + 1)] && c.whole == c.intPart + "." + c.fracPart)
      && (!(e1 < |s| && s[e1] == '.') ==> c.fracPart == "" && c.whole == c.intPart)
  {
    var e1 := AmountRunEnd(s, j);
    if e1 < |s| && s[e1] == '.' {
      DotSplit(s, j, e1, DigitRunEnd(s, e1 + 1));
    }
  }

  /** A slice with a dot at b is the part before it, the dot and the part after it. */
  lemma DotSplit(s: string, a: int, b: int, c: int)
    requires 0 <= a <= b < c <= |s| && s[b] == '.'
    ensures s[a..c] == s[a..b] + "." + s[b + 1..c]
  {
    assert s[a..c] == s[a..b] + s[b..c];
    assert s[b..c] == [s[b]] + s[b + 1..c];
  }

  /** `re.search(key + r'([\d,]+\.?\d*)', s)` from position i on: the leftmost
      position where the pattern matches. */
  function FindMatch(s: string, key: string, i: int): (r: Option<int>)
    requires 0 <= i
    ensures r.None? ==> forall p :: i <= p ==> !MatchesAt(s, key, p)
    ensures r.Some? ==> i <= r.value && MatchesAt(s, key, r.value)
    ensures r.Some? ==> forall q :: i <= q < r.value ==> !MatchesAt(s, key, q)
    decreases |s| - i
  {
    if i >= |s| then None
    else if MatchesAt(s, key, i) then Some(i)
    else FindMatch(s, key, i + 1)
  }

  /** `str.replace(',', '')`: every comma is dropped, every other character
      is kept; with `StripCommasAppend` and `StripOneComma` this defines the
      result character by character. */
  function StripCommas(s: string): (r: string)
    ensures forall k :: 0 <= k < |r| ==> r[k] != ','
    ensures (forall k :: 0 <= k < |s| ==> s[k] != ',') ==> r == s
  {
    if s == [] then []
    else (if s[0] == ',' then [] else [s[0]]) + StripCommas(s[1..])
  }

  /** A single comma is dropped. */
  lemma StripOneComma()
    ensures StripCommas(",") == []
  {
    assert ","[1..] == [];
  }

  /** Removing the commas of two texts one after the other. */
  lemma {:induction false} StripCommasAppend(a: string, b: string)
    ensures StripCommas(a + b) == StripCommas(a) + StripCommas(b)
  {
    if a == [] {
      assert a + b == b;
    } else {
      var head := if a[0] == ',' then [] else [a[0]];
      assert a == [a[0]] + a[1..];
      Assoc([a[0]], a[1..], b);
      StripCons(a[0], a[1..] + b);
      StripCons(a[0], a[1..]);
      StripCommasAppend(a[1..], b);
      Assoc(head, StripCommas(a[1..]), StripCommas(b));
    }
  }

  lemma StripCons(c: char, t: string)
    ensures StripCommas([c] + t) == (if c == ',' then [] else [c]) + StripCommas(t)
  {
    assert ([c] + t)[0] == c && ([c] + t)[1..] == t;
  }

  datatype AmountParse = Amount(value: real) | Invalid

  /** `float(group.replace(',', ''))`: digits, an optional fraction; a text with
      no digit at all (`""` or `"."`) raises `ValueError`. */
  function ParseCapture(c: Capture): (r: AmountParse)
    requires AmountText(c.intPart)
    requires AllDigits(c.fracPart)
    ensures r.Invalid? <==> StripCommas(c.intPart) == [] && c.fracPart == []
    ensures r.Amount? ==> r.value == DecimalValue(c.intPart, c.fracPart)
  {
    var digits := StripCommas(c.intPart);
    StripCommasDigits(c.intPart);
    if digits == [] && c.fracPart == [] then Invalid
    else Amount(DigitsValue(digits) as real + FractionValue(c.fracPart))
  }

  lemma {:induction false} StripCommasDigits(s: string)
    requires AmountText(s)
    ensures AllDigits(StripCommas(s))
  {
    if s != [] {
      StripCommasDigits(s[1..]);
    }
  }

  /** One amount of the plain-text branch: 0 when the pattern does not match. */
  function RegexAmount(msg: string, key: string): AmountParse {
    match FindMatch(msg, key, 0)
    case None => Amount(0.0)
    case Some(p) => ParseCapture(CaptureAt(msg, p + |key|))
  }

  /** A field the pattern does not find reads as 0. */
  lemma AbsentFieldReadsZero(msg: string, key: string)
    requires forall p :: 0 <= p ==> !MatchesAt(msg, key, p)
    ensures RegexAmount(msg, key) == Amount(0.0)
  {
  }

  /** What `json.loads` and the two `float(...)` calls make of a `{"code"` message. */
  datatype JsonReading =
    | JsonAmounts(required: real, available: real)
    | JsonUnparsable                   // JSONDecodeError, ValueError or AttributeError: caught
    | JsonTypeFault(message: string)   // float(None) and the like: TypeError, not caught

  type JsonOracle = string -> JsonReading

  datatype AmountsResult =
    | Parsed(required: real, available: real)
    | Unparsable                       // the `except` branch: the caller's fallback amounts
    | Fault(error: Exception)          // an exception escapes the handler

  /** The amount extraction of the insufficient-funds handler. */
  function InsufficientAmounts(msg: string, json: JsonOracle): (r: AmountsResult)
    ensures StartsWith(msg, JsonPrefix) && json(msg).JsonAmounts? ==>
              r == Parsed(json(msg).required, json(msg).available)
    ensures StartsWith(msg, JsonPrefix) && json(msg).JsonUnparsable? ==> r.Unparsable?
    ensures r.Fault? <==> StartsWith(msg, JsonPrefix) && json(msg).JsonTypeFault?
    ensures r.Fault? ==> r.error == Exception(TypeError, json(msg).message)
    ensures !StartsWith(msg, JsonPrefix) ==>
              (r.Unparsable? <==> RegexAmount(msg, RequiredKey).Invalid? || RegexAmount(msg, AvailableKey).Invalid?)
    ensures !StartsWith(msg, JsonPrefix) && r.Parsed? ==>
              RegexAmount(msg, RequiredKey) == Amount(r.required) && RegexAmount(msg, AvailableKey) == Amount(r.available)
  {
    if StartsWith(msg, JsonPrefix) then
      match json(msg)
      case JsonAmounts(q, a) => Parsed(q, a)
      case JsonUnparsable => Unparsable
      case JsonTypeFault(m) => Fault(Exception(TypeError, m))
    else
      match (RegexAmount(msg, RequiredKey), RegexAmount(msg, AvailableKey))
      case (Amount(q), Amount(a)) => Parsed(q, a)
      case _ => Unparsable
  }

  /** A plain message that names neither field reads as 0 required, 0 available. */
  lemma NoFieldsReadAsZero(msg: string, json: JsonOracle)
    requires !StartsWith(msg, JsonPrefix)
    requires forall p :: 0 <= p ==> !MatchesAt(msg, RequiredKey, p) && !MatchesAt(msg, AvailableKey, p)
    ensures InsufficientAmounts(msg, json) == Parsed(0.0, 0.0)
  {
    AbsentFieldReadsZero(msg, RequiredKey);
    AbsentFieldReadsZero(msg, AvailableKey);
  }

  /** The two-digit cents text of c. */
  function Cents(c: nat): (s: string)
    requires c < 100
    ensures |s| == 2 && AllDigits(s)
  {
    [DigitChar(c / 10), DigitChar(c % 10)]
  }

  /** What `float` makes of the digits and commas d once the commas are removed. */
  function IntegerValue(d: string): real
    requires AmountText(d)
  {
    StripCommasDigits(d);
    DigitsValue(StripCommas(d)) as real
  }

  /** What `float` makes of `d + "." + f` once the commas of d are removed. */
  function DecimalValue(d: string, f: string): real
    requires AmountText(d) && AllDigits(f)
  {
    IntegerValue(d) + FractionValue(f)
  }

  /** A field written as `key`, then digits and commas d, a dot and digits f,
      followed by text that does not go on with a digit, with no occurrence
      of the key before it, is read as the value of d without its commas
      plus the fraction f; a numeral with no digit at all (`,.`) is the
      `ValueError` of `float`. */
  lemma FieldReading(prefix: string, key: string, d: string, f: string, rest: string)
    requires |d| > 0 && AmountText(d) && AllDigits(f)
    requires rest == [] || !IsDigit(rest[0])
    requires forall p :: 0 <= p < |prefix| ==> !OccursAt(prefix + key, key, p)
    ensures RegexAmount(prefix + key + d + "." + f + rest, key)
            == if StripCommas(d) == [] && f == [] then Invalid else Amount(DecimalValue(d, f))
  {
    var msg := prefix + key + d + "." + f + rest;
    Assoc(prefix + key, d, ".");
    Assoc(prefix + key, d + ".", f);
    Assoc(prefix + key, d + "." + f, rest);
    FirstMatchAtKey(prefix, key, d + "." + f + rest);
    NumeralAfterKey(prefix, key, d, f, rest);
    ReadAtMatch(msg, key, |prefix|);
    CaptureOfNumeral(msg, |prefix| + |key|, d, f);
    ParseDecimal(d, f);
  }

  /** A field written as `key` and then digits and commas d with no dot,
      followed by text that does not go on with a digit, a comma or a dot,
      with no occurrence of the key before it, is read as the value of d
      without its commas; a run of commas alone is the `ValueError` of
      `float`. A comma right after the number is part of the capture. */
  lemma IntegerFieldReading(prefix: string, key: string, d: string, rest: string)
    requires |d| > 0 && AmountText(d)
    requires rest == [] || (!IsAmountChar(rest[0]) && rest[0] != '.')
    requires forall p :: 0 <= p < |prefix| ==> !OccursAt(prefix + key, key, p)
    ensures RegexAmount(prefix + key + d + rest, key)
            == if StripCommas(d) == [] then Invalid else Amount(IntegerValue(d))
  {
    var msg := prefix + key + d + rest;
    var j := |prefix| + |key|;
    Assoc(prefix + key, d, rest);
    FirstMatchAtKey(prefix, key, d + rest);
    ReadAtMatch(msg, key, |prefix|);
    assert msg[j..j + |d|] == d;
    if rest != [] {
      assert msg[j + |d|] == rest[0];
    }
    IntegerCapture(msg, j, d);
  }

  /** The greedy group reads a digits-and-commas numeral with no dot to its end. */
  lemma IntegerCapture(msg: string, j: int, d: string)
    requires |d| > 0 && AmountText(d)
    requires 0 <= j && j + |d| <= |msg| && msg[j..j + |d|] == d
    requires j + |d| == |msg| || (!IsAmountChar(msg[j + |d|]) && msg[j + |d|] != '.')
    ensures j < |msg| && IsAmountChar(msg[j])
    ensures CaptureAt(msg, j) == Capture(d, d, "")
  {
    forall k | j <= k < j + |d|
      ensures IsAmountChar(msg[k])
    {
      assert msg[k] == msg[j..j + |d|][k - j];
    }
    AmountCharsEndAt(msg, j, |d|);
  }

  /** The plain message `prefix + "required: " + dq "." fq + ", available: " + da "." fa + rest`. */
  function PlainMessage(prefix: string, dq: string, fq: string, da: string, fa: string, rest: string): string {
    prefix + RequiredKey + dq + "." + fq + ", " + AvailableKey + da + "." + fa + rest
  }

  /** A whole plain message `... required: Q, available: A ...`, in which
      neither key is written before its field, is read as the two values. */
  lemma PlainMessageReading(json: JsonOracle, prefix: string, dq: string, fq: string,
                            da: string, fa: string, rest: string)
    requires |dq| > 0 && AmountText(dq) && AllDigits(fq) && (StripCommas(dq) != [] || fq != [])
    requires |da| > 0 && AmountText(da) && AllDigits(fa) && (StripCommas(da) != [] || fa != [])
    requires rest == [] || !IsDigit(rest[0])
    requires prefix == [] || prefix[0] != '{'
    requires forall p :: 0 <= p < |prefix| ==> !OccursAt(prefix + RequiredKey, RequiredKey, p)
    requires forall p :: 0 <= p && p + |AvailableKey| <= |prefix| ==> !OccursAt(prefix, AvailableKey, p)
    ensures InsufficientAmounts(PlainMessage(prefix, dq, fq, da, fa, rest), json)
            == Parsed(DecimalValue(dq, fq), DecimalValue(da, fa))
  {
    RequiredField(prefix, dq, fq, da, fa, rest);
    AvailableField(prefix, dq, fq, da, fa, rest);
    PlainStart(prefix, dq, fq, da, fa, rest);
  }

  /** The required field read in the whole message. */
  lemma RequiredField(prefix: string, dq: string, fq: string, da: string, fa: string, rest: string)
    requires |dq| > 0 && AmountText(dq) && AllDigits(fq) && (StripCommas(dq) != [] || fq != [])
    requires forall p :: 0 <= p < |prefix| ==> !OccursAt(prefix + RequiredKey, RequiredKey, p)
    ensures RegexAmount(PlainMessage(prefix, dq, fq, da, fa, rest), RequiredKey) == Amount(DecimalValue(dq, fq))
  {
    var x := prefix + RequiredKey + dq + "." + fq;
    Assoc(x, ", ", AvailableKey);
    Assoc(x, ", " + AvailableKey, da);
    Assoc(x, ", " + AvailableKey + da, ".");
    Assoc(x, ", " + AvailableKey + da + ".", fa);
    Assoc(x, ", " + AvailableKey + da + "." + fa, rest);
    var tail := ", " + AvailableKey + da + "." + fa + rest;
    assert tail[0] == ',';
    FieldReading(prefix, RequiredKey, dq, fq, tail);
  }

  lemma Assoc(x: string, y: string, z: string)
    ensures x + y + z == x + (y + z)
  {
  }

  /** The available field read in the whole message. */
  lemma AvailableField(prefix: string, dq: string, fq: string, da: string, fa: string, rest: string)
    requires AmountText(dq) && AllDigits(fq)
    requires |da| > 0 && AmountText(da) && AllDigits(fa) && (StripCommas(da) != [] || fa != [])
    requires rest == [] || !IsDigit(rest[0])
    requires forall p :: 0 <= p && p + |AvailableKey| <= |prefix| ==> !OccursAt(prefix, AvailableKey, p)
    ensures RegexAmount(PlainMessage(prefix, dq, fq, da, fa, rest), AvailableKey) == Amount(DecimalValue(da, fa))
  {
    AvailableKeyFirst(prefix, dq, fq);
    FieldReading(prefix + RequiredKey + dq + "." + fq + ", ", AvailableKey, da, fa, rest);
  }

  /** A message that begins with `prefix` and then `required: ` is no JSON payload. */
  lemma PlainStart(prefix: string, dq: string, fq: string, da: string, fa: string, rest: string)
    requires prefix == [] || prefix[0] != '{'
    ensures !StartsWith(PlainMessage(prefix, dq, fq, da, fa, rest), JsonPrefix)
  {
    var msg := PlainMessage(prefix, dq, fq, da, fa, rest);
    if prefix == [] {
      assert msg[0] == RequiredKey[0];
    } else {
      assert msg[0] == prefix[0];
    }
    if |JsonPrefix| <= |msg| {
      assert msg[..|JsonPrefix|][0] == msg[0];
    }
  }

  /** `available: ` cannot start inside `required: ` or a numeral and its
      `, `: it holds no `r`, and they hold no `a`. */
  lemma AvailableKeyFirst(prefix: string, dq: string, fq: string)
    requires AmountText(dq) && AllDigits(fq)
    requires forall p :: 0 <= p && p + |AvailableKey| <= |prefix| ==> !OccursAt(prefix, AvailableKey, p)
    ensures var u := prefix + RequiredKey + dq + "." + fq + ", ";
      forall p :: 0 <= p < |u| ==> !OccursAt(u + AvailableKey, AvailableKey, p)
  {
    var u := prefix + RequiredKey + dq + "." + fq + ", ";
    var w := u + AvailableKey;
    var t := RequiredKey + dq + "." + fq + ", ";
    assert u == prefix + t;
    forall k | 0 <= k < |t|
      ensures t[k] != 'a'
    {
      if k >= |RequiredKey| + |dq| + 1 && k < |RequiredKey| + |dq| + 1 + |fq| {
        assert t[k] == fq[k - |RequiredKey| - |dq| - 1];
      } else if k >= |RequiredKey| && k < |RequiredKey| + |dq| {
        assert t[k] == dq[k - |RequiredKey|];
      }
    }
    forall p | 0 <= p < |u|
      ensures !OccursAt(w, AvailableKey, p)
    {
      if p >= |prefix| {
        assert w[p] == t[p - |prefix|] && AvailableKey[0] == 'a';
        Mismatch(w, AvailableKey, p, 0);
      } else if p + |AvailableKey| <= |prefix| {
        assert !OccursAt(prefix, AvailableKey, p);
        assert w[p..p + |AvailableKey|] == prefix[p..p + |AvailableKey|];
      } else {
        assert w[|prefix|] == RequiredKey[0];
        assert AvailableKey[|prefix| - p] != 'r';
        Mismatch(w, AvailableKey, p, |prefix| - p);
      }
    }
  }

  /** One differing character rules an occurrence out. */
  lemma Mismatch(w: string, sub: string, p: int, i: int)
    requires 0 <= p && 0 <= i < |sub| && p + i < |w| && w[p + i] != sub[i]
    ensures !OccursAt(w, sub, p)
  {
    if p + |sub| <= |w| {
      assert w[p..p + |sub|][i] == w[p + i];
    }
  }

  /** A printed amount, the dollars `str(n)` and two cent digits, is read
      back as dollars + cents/100, wherever it stands in the message. */
  lemma AmountRoundTrip(prefix: string, key: string, dollars: nat, cents: nat, rest: string)
    requires cents < 100
    requires rest == [] || !IsDigit(rest[0])
    requires forall p :: 0 <= p < |prefix| ==> !OccursAt(prefix + key, key, p)
    ensures RegexAmount(prefix + key + NatToDecimal(dollars) + "." + Cents(cents) + rest, key)
            == Amount(dollars as real + (cents as real) / 100.0)
  {
    var d := NatToDecimal(dollars);
    assert AmountText(d);
    FieldReading(prefix, key, d, Cents(cents), rest);
    NoCommas(d);
    DecimalRoundTrip(dollars);
    CentsValue(cents);
  }

  /** Thousands separators are dropped: `1,234` reads as 1234. */
  lemma ThousandsSeparator(a: string, b: string)
    requires AllDigits(a) && AllDigits(b)
    ensures StripCommas(a + "," + b) == a + b
  {
    StripCommasAppend(a + ",", b);
    StripCommasAppend(a, ",");
    StripOneComma();
    NoCommas(a);
    NoCommas(b);
  }

  /** Integer amounts: in `required: 5,000, available: 7` the greedy group
      takes the comma after `5,000` as well, and the amounts read are 5000
      and 7. */
  lemma IntegerAmountsExample(json: JsonOracle)
    ensures InsufficientAmounts("required: 5,000, available: 7", json) == Parsed(5000.0, 7.0)
  {
    var msg := "required: 5,000, available: 7";
    ExampleRequired(msg);
    ExampleAvailable(msg);
    assert !StartsWith(msg, JsonPrefix) by {
      assert msg[..|JsonPrefix|][0] == msg[0];
    }
  }

  lemma ExampleRequired(msg: string)
    requires msg == "required: 5,000, available: 7"
    ensures RegexAmount(msg, RequiredKey) == Amount(5000.0)
  {
    var q, rest := "5,000,", " available: 7";
    assert msg == [] + RequiredKey + q + rest;
    IntegerFieldReading([], RequiredKey, q, rest);
    ExampleValue();
  }

  lemma ExampleValue()
    ensures StripCommas("5,000,") == "5000" && IntegerValue("5,000,") == 5000.0
  {
    ExampleStrip();
    var z := "5000";
    assert z[..3] == "500" && z[..3][..2] == "50" && z[..3][..2][..1] == "5";
    assert DigitsValue("5") == 5;
    assert DigitsValue("50") == 50;
    assert DigitsValue("500") == 500;
    assert DigitsValue(z) == 5000;
  }

  lemma ExampleStrip()
    ensures StripCommas("5,000,") == "5000"
  {
    var s := "5,000,";
    assert s[1..] == ",000," && s[1..][1..] == "000,";
    assert "000,"[1..] == "00," && "00,"[1..] == "0," && "0,"[1..] == ",";
    StripOneComma();
  }

  lemma ExampleAvailable(msg: string)
    requires msg == "required: 5,000, available: 7"
    ensures RegexAmount(msg, AvailableKey) == Amount(7.0)
  {
    var prefix := "required: 5,000, ";
    assert msg == prefix + AvailableKey + "7" + [];
    forall p | 0 <= p < |prefix|
      ensures !OccursAt(prefix + AvailableKey, AvailableKey, p)
    {
      assert prefix[p] != 'a';
      Mismatch(prefix + AvailableKey, AvailableKey, p, 0);
    }
    IntegerFieldReading(prefix, AvailableKey, "7", []);
  }

  /** Where a numeral d "." f stands in a message at position j. */
  predicate NumeralAt(msg: string, j: int, d: string, f: string) {
    && 0 <= j && j + |d| + 1 + |f| <= |msg|
    && msg[j..j + |d|] == d && msg[j + |d|] == '.' && msg[j + |d| + 1..j + |d| + 1 + |f|] == f
    && (j + |d| + 1 + |f| == |msg| || !IsDigit(msg[j + |d| + 1 + |f|]))
  }

  /** The amount read is the value of what the group captures at the first match. */
  lemma ReadAtMatch(msg: string, key: string, p: nat)
    requires FindMatch(msg, key, 0) == Some(p)
    ensures RegexAmount(msg, key) == ParseCapture(CaptureAt(msg, p + |key|))
  {
  }

  /** The greedy group reads a digits-and-commas "." digits numeral to its end. */
  lemma CaptureOfNumeral(msg: string, j: int, d: string, f: string)
    requires |d| > 0 && AmountText(d) && AllDigits(f)
    requires NumeralAt(msg, j, d, f)
    ensures j < |msg| && IsAmountChar(msg[j])
    ensures CaptureAt(msg, j) == Capture(d + "." + f, d, f)
  {
    IntegerRunOfNumeral(msg, j, d, f);
    FractionRunOfNumeral(msg, j, d, f);
    var e1, e2 := j + |d|, j + |d| + 1 + |f|;
    CaptureFromRuns(msg, j, e1, e2);
    DotSplit(msg, j, e1, e2);
  }

  /** The capture when the digits-and-commas run ends at a dot at e1 and the
      digit run after it ends at e2. */
  lemma CaptureFromRuns(msg: string, j: int, e1: int, e2: int)
    requires 0 <= j < e1 < |msg| && IsAmountChar(msg[j]) && msg[e1] == '.'
    requires AmountRunEnd(msg, j) == e1 && DigitRunEnd(msg, e1 + 1) == e2
    ensures CaptureAt(msg, j) == Capture(msg[j..e2], msg[j..e1], msg[e1 + 1..e2])
  {
  }

  /** The digits-and-commas run of the numeral ends at its dot. */
  lemma IntegerRunOfNumeral(msg: string, j: int, d: string, f: string)
    requires |d| > 0 && AmountText(d)
    requires NumeralAt(msg, j, d, f)
    ensures IsAmountChar(msg[j]) && AmountRunEnd(msg, j) == j + |d|
  {
    forall k | j <= k < j + |d|
      ensures IsAmountChar(msg[k])
    {
      assert msg[k] == msg[j..j + |d|][k - j];
    }
    AmountCharsEndAt(msg, j, |d|);
  }

  /** The digit run after the dot ends where the fraction does. */
  lemma FractionRunOfNumeral(msg: string, j: int, d: string, f: string)
    requires AllDigits(f)
    requires NumeralAt(msg, j, d, f)
    ensures DigitRunEnd(msg, j + |d| + 1) == j + |d| + 1 + |f|
  {
    var i := j + |d| + 1;
    forall k | i <= k < i + |f|
      ensures IsDigit(msg[k])
    {
      assert msg[k] == msg[i..i + |f|][k - i];
    }
    DigitsEndAt(msg, i, |f|);
  }

  /** The numeral of a field `prefix + key + d + "." + f + rest` stands right after the key. */
  lemma NumeralAfterKey(prefix: string, key: string, d: string, f: string, rest: string)
    requires rest == [] || !IsDigit(rest[0])
    ensures NumeralAt(prefix + key + d + "." + f + rest, |prefix| + |key|, d, f)
  {
    var msg := prefix + key + d + "." + f + rest;
    var j := |prefix| + |key|;
    assert msg[j..j + |d|] == d;
    assert msg[j + |d|] == '.';
    assert msg[j + |d| + 1..j + |d| + 1 + |f|] == f;
    if rest != [] {
      assert msg[j + |d| + 1 + |f|] == rest[0];
    }
  }

  lemma ParseDecimal(d: string, f: string)
    requires AmountText(d) && AllDigits(f)
    ensures ParseCapture(Capture(d + "." + f, d, f))
            == if StripCommas(d) == [] && f == [] then Invalid else Amount(DecimalValue(d, f))
  {
  }

  /** The pattern first matches where the key is written, when the text
      before it holds no occurrence of the key and a digit or comma follows it. */
  lemma FirstMatchAtKey(prefix: string, key: string, t: string)
    requires |t| > 0 && IsAmountChar(t[0])
    requires forall p :: 0 <= p < |prefix| ==> !OccursAt(prefix + key, key, p)
    ensures FindMatch(prefix + key + t, key, 0) == Some(|prefix|)
  {
    var u := prefix + key;
    var msg := u + t;
    assert msg[|prefix|..|u|] == key;
    assert msg[|u|] == t[0];
    assert MatchesAt(msg, key, |prefix|);
    forall q | 0 <= q < |prefix|
      ensures !MatchesAt(msg, key, q)
    {
      if MatchesAt(msg, key, q) {
        assert u[q..q + |key|] == msg[q..q + |key|];
        assert OccursAt(u, key, q);
      }
    }
    FindSkips(msg, key, 0, |prefix|);
  }

  lemma {:induction false} AmountCharsEndAt(msg: string, j: int, n: int)
    requires 0 <= j && 0 <= n && j + n <= |msg|
    requires forall k :: j <= k < j + n ==> IsAmountChar(msg[k])
    requires j + n == |msg| || !IsAmountChar(msg[j + n])
    ensures AmountRunEnd(msg, j) == j + n
    decreases n
  {
    if n > 0 {
      AmountCharsEndAt(msg, j + 1, n - 1);
    }
  }

  lemma {:induction false} DigitsEndAt(msg: string, j: int, n: int)
    requires 0 <= j && 0 <= n && j + n <= |msg|
    requires forall k :: j <= k < j + n ==> IsDigit(msg[k])
    requires j + n == |msg| || !IsDigit(msg[j + n])
    ensures DigitRunEnd(msg, j) == j + n
    decreases n
  {
    if n > 0 {
      DigitsEndAt(msg, j + 1, n - 1);
    }
  }

  lemma {:induction false} NoCommas(d: string)
    requires AllDigits(d)
    ensures StripCommas(d) == d
  {
    if d != [] {
      NoCommas(d[1..]);
    }
  }

  lemma CentsValue(c: nat)
    requires c < 100
    ensures FractionValue(Cents(c)) == (c as real) / 100.0
  {
    var s := Cents(c);
    assert s[1..] == [DigitChar(c % 10)] && s[1..][1..] == [];
    assert FractionValue(s[1..]) == ((c % 10) as real) / 10.0;
    assert FractionValue(s) == ((c / 10) as real + ((c % 10) as real) / 10.0) / 10.0;
  }

  /** The search steps over positions that do not match. */
  lemma {:induction false} FindSkips(s: string, key: string, i: int, p: int)
    requires 0 <= i <= p < |s| && MatchesAt(s, key, p)
    requires forall q :: i <= q < p ==> !MatchesAt(s, key, q)
    ensures FindMatch(s, key, i) == Some(p)
    decreases p - i
  {
    if i < p {
      FindSkips(s, key, i + 1, p);
    }
  }
}
