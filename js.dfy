/** JavaScript value semantics the workout core relies on: truthiness, `String(v)`,
    `Number(v)`, `parseInt(s, 10)`, `trim`, strict equality and the JSON round trip of
    a field value. Numbers are modelled as mathematical integers. */
module Js {

  datatype Option<T> = None | Some(value: T)

  /** A value as a loosely typed JavaScript record field can hold it. */
  datatype Value = Undefined | Null | Bool(b: bool) | Num(n: int) | NaN | Str(s: string)

  /** JavaScript truthiness. */
  predicate Truthy(v: Value) {
    match v
    case Undefined => false
    case Null => false
    case NaN => false
    case Bool(b) => b
    case Num(n) => n != 0
    case Str(s) => s != ""
  }

  /** `v || d` */
  function Or(v: Value, d: Value): Value {
    if Truthy(v) then v else d
  }

  /** `v === undefined || v === null` */
  predicate Nullish(v: Value) {
    v == Undefined || v == Null
  }

  /** `a === b`: NaN is not equal to itself. */
  predicate StrictEquals(a: Value, b: Value) {
    a == b && a != NaN
  }

  // ---------------------------------------------------------------- digits

  predicate IsDigit(c: char) {
    '0' <= c <= '9'
  }

  predicate AllDigits(s: string) {
    forall i :: 0 <= i < |s| ==> IsDigit(s[i])
  }

  function DigitChar(d: nat): (c: char)
    requires d < 10
    ensures IsDigit(c) && c as int - '0' as int == d
  {
    ('0' as int + d) as char
  }

  /** Decimal digits of `n`, most significant first, without leading zeros. */
  function NatToString(n: nat): string {
    if n < 10 then [DigitChar(n)] else NatToString(n / 10) + [DigitChar(n % 10)]
  }

  /** The text is a non-empty run of digits. */
  lemma {:induction false} NatToStringDigits(n: nat)
    ensures |NatToString(n)| > 0 && AllDigits(NatToString(n))
  {
    if n >= 10 {
      NatToStringDigits(n / 10);
    }
  }

  /** `String(n)` for an integer. */
  function IntToString(n: int): string {
    if n < 0 then "-" + NatToString(-n) else NatToString(n)
  }

  /** The number a string of decimal digits denotes. */
  function DigitsValue(s: string): nat
    requires AllDigits(s)
  {
    if s == [] then 0 else DigitsValue(s[..|s| - 1]) * 10 + (s[|s| - 1] as int - '0' as int)
  }

  lemma {:induction false} DigitsRoundTrip(n: nat)
    ensures AllDigits(NatToString(n)) && DigitsValue(NatToString(n)) == n
  {
    NatToStringDigits(n);
    if n >= 10 {
      var s := NatToString(n);
      assert s[..|s| - 1] == NatToString(n / 10);
      DigitsRoundTrip(n / 10);
    }
  }

  /** An optionally signed decimal integer and nothing else. */
  function ParseDecimal(s: string): Option<int> {
    if |s| > 0 && (s[0] == '-' || s[0] == '+') then
      if |s| > 1 && AllDigits(s[1..]) then
        var v: int := DigitsValue(s[1..]);
        Some(if s[0] == '-' then -v else v)
      else None
    else if |s| > 0 && AllDigits(s) then Some(DigitsValue(s))
    else None
  }

  // ---------------------------------------------------------------- whitespace

  /** The WhiteSpace and LineTerminator characters of ECMAScript, which `trim` and
      `Number` skip. */
  predicate IsSpace(c: char) {
    c == ' ' || c == '\t' || c == '\n' || c == '\r' || c == '\U{B}' || c == '\U{C}'
    || c == '\U{A0}' || c == '\U{FEFF}' || c == '\U{1680}' || ('\U{2000}' <= c <= '\U{200A}')
    || c == '\U{2028}' || c == '\U{2029}' || c == '\U{202F}' || c == '\U{205F}' || c == '\U{3000}'
  }

  function TrimStart(s: string): (t: string)
    ensures t == "" || !IsSpace(t[0])
  {
    if |s| > 0 && IsSpace(s[0]) then TrimStart(s[1..]) else s
  }

  function TrimEnd(s: string): string {
    if |s| > 0 && IsSpace(s[|s| - 1]) then TrimEnd(s[..|s| - 1]) else s
  }

  /** `s.trim()` */
  function Trim(s: string): string {
    TrimEnd(TrimStart(s))
  }

  lemma {:induction false} TrimStartBlank(s: string)
    ensures TrimStart(s) == "" <==> forall i :: 0 <= i < |s| ==> IsSpace(s[i])
  {
    if |s| > 0 && IsSpace(s[0]) {
      TrimStartBlank(s[1..]);
      assert forall i :: 1 <= i < |s| ==> s[i] == s[1..][i - 1];
    }
  }

  lemma {:induction false} TrimEndEmpty(s: string)
    ensures TrimEnd(s) == "" <==> forall i :: 0 <= i < |s| ==> IsSpace(s[i])
  {
    if |s| > 0 && IsSpace(s[|s| - 1]) {
      TrimEndEmpty(s[..|s| - 1]);
      assert forall i :: 0 <= i < |s| - 1 ==> s[i] == s[..|s| - 1][i];
    }
  }

  /** A string trims to "" exactly when it is whitespace only. */
  lemma TrimBlank(s: string)
    ensures Trim(s) == "" <==> forall i :: 0 <= i < |s| ==> IsSpace(s[i])
  {
    TrimStartBlank(s);
    TrimEndEmpty(TrimStart(s));
  }

  lemma TrimUnpadded(s: string)
    requires |s| > 0 && !IsSpace(s[0]) && !IsSpace(s[|s| - 1])
    ensures Trim(s) == s
  {
  }

  // ---------------------------------------------------------------- conversions

  /** `Number(s)` for a string: surrounding whitespace is ignored, the empty string is 0,
      a decimal integer is its value and anything else is NaN. */
  function StringToNumber(s: string): (r: Value)
    ensures r.Num? || r == NaN
  {
    var t := Trim(s);
    if t == "" then Num(0)
    else match ParseDecimal(t)
      case Some(n) => Num(n)
      case None => NaN
  }

  /** `Number(v)` */
  function ToNumber(v: Value): (r: Value)
    ensures r.Num? || r == NaN
  {
    match v
    case Undefined => NaN
    case Null => Num(0)
    case Bool(b) => Num(if b then 1 else 0)
    case Num(n) => Num(n)
    case NaN => NaN
    case Str(s) => StringToNumber(s)
  }

  /** `String(v)` */
  function ToString(v: Value): string {
    match v
    case Undefined => "undefined"
    case Null => "null"
    case Bool(b) => if b then "true" else "false"
    case Num(n) => IntToString(n)
    case NaN => "NaN"
    case Str(s) => s
  }

  /** The longest prefix of `s` made of decimal digits. */
  function DigitPrefix(s: string): (p: string)
    ensures AllDigits(p) && p <= s
    ensures |p| < |s| ==> !IsDigit(s[|p|])
  {
    if |s| > 0 && IsDigit(s[0]) then [s[0]] + DigitPrefix(s[1..]) else ""
  }

  /** `parseInt(s, 10)`: leading whitespace is skipped, then an optional sign and the
      longest run of digits; NaN (None) when there is no digit. */
  function ParseInt(s: string): Option<int> {
    var t := TrimStart(s);
    if |t| > 0 && (t[0] == '-' || t[0] == '+') then
      var d := DigitPrefix(t[1..]);
      if d == "" then None
      else
        var v: int := DigitsValue(d);
        Some(if t[0] == '-' then -v else v)
    else
      var d := DigitPrefix(t);
      if d == "" then None else Some(DigitsValue(d))
  }

  /** The value a record field holds after `JSON.parse(JSON.stringify(...))`:
      NaN is written as null, an undefined field is dropped and reads back undefined. */
  function JsonValue(v: Value): (r: Value)
    ensures r != NaN
    ensures v != NaN ==> r == v
  {
    if v == NaN then Null else v
  }

  // ---------------------------------------------------------------- round trips

  lemma AllDigitsPrefix(s: string)
    requires AllDigits(s)
    ensures DigitPrefix(s) == s
  {
  }

  /** `Number(String(n)) === n` for every integer. */
  lemma IntToStringRoundTrip(n: int)
    ensures StringToNumber(IntToString(n)) == Num(n)
    ensures ParseDecimal(IntToString(n)) == Some(n)
  {
    IntToStringDecimal(n);
    IntToStringUnpadded(n);
  }

  lemma IntToStringDecimal(n: int)
    ensures ParseDecimal(IntToString(n)) == Some(n)
  {
    var s := IntToString(n);
    if n < 0 {
      DigitsRoundTrip(-n);
      assert s[1..] == NatToString(-n);
    } else {
      DigitsRoundTrip(n);
    }
  }

  /** A decimal text has no surrounding whitespace to trim. */
  lemma IntToStringUnpadded(n: int)
    ensures Trim(IntToString(n)) == IntToString(n)
  {
    var s := IntToString(n);
    IntToStringShape(n);
    assert !IsSpace(s[0]) && !IsSpace(s[|s| - 1]);
    TrimUnpadded(s);
  }

  /** `parseInt(String(n), 10) === n` for every integer. */
  lemma ParseIntRoundTrip(n: int)
    ensures ParseInt(IntToString(n)) == Some(n)
  {
    var s := IntToString(n);
    if n < 0 {
      DigitsRoundTrip(-n);
      assert s[1..] == NatToString(-n);
      AllDigitsPrefix(s[1..]);
    } else {
      DigitsRoundTrip(n);
      AllDigitsPrefix(s);
    }
  }

  /** Distinct integers have distinct decimal texts. */
  lemma IntToStringInjective(a: int, b: int)
    ensures IntToString(a) == IntToString(b) ==> a == b
  {
    IntToStringRoundTrip(a);
    IntToStringRoundTrip(b);
  }

  lemma IntToStringShape(n: int)
    ensures |IntToString(n)| > 0
    ensures forall i :: 0 <= i < |IntToString(n)| ==> IsDigit(IntToString(n)[i]) || IntToString(n)[i] == '-'
  {
    NatToStringDigits(if n < 0 then -n else n);
  }
}
