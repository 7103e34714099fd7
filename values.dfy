/** Values shared by the whole model: optional arguments, results, decoded
    JSON payloads, JavaScript truthiness and the string renderings the client
    relies on (`String(v)` on a decoded payload, decimal numbers). */
module Values {

  /** An optional argument or field: `None` stands for `undefined`. */
  datatype Option<+T> = None | Some(value: T)

  /** The outcome of an operation that may throw. */
  datatype Result<+T, +E> = Success(value: T) | Failure(error: E)

  /** JavaScript truthiness of an optional string: `undefined` and `""` are falsy. */
  predicate Truthy(s: Option<string>) {
    s.Some? && s.value != ""
  }

  /** A value produced by `JSON.parse`. A number is kept as the text that
      JavaScript renders it with (`String(n)`), so zero is exactly `JNumber("0")`. */
  datatype Json =
    | JNull
    | JBool(b: bool)
    | JNumber(text: string)
    | JString(s: string)
    | JArray(items: seq<Json>)
    | JObject(fields: seq<(string, Json)>)

  /** JavaScript truthiness of a decoded value: `null`, `false`, `0` and `""`
      are falsy, every array and object (also an empty one) is truthy. */
  predicate JsonTruthy(v: Json) {
    match v
    case JNull => false
    case JBool(b) => b
    case JNumber(text) => text != "0"
    case JString(s) => s != ""
    case _ => true
  }

  /** `safeJson` applied to the text of a message, given what the decoder made
      of that text: a text the decoder rejects becomes `null`. */
  function SafeJson(decoded: Option<Json>): Json {
    match decoded
    case None => JNull
    case Some(v) => v
  }

  /** `String(v)`, the coercion `JSON.parse` applies to a non-string argument:
      an array joins its elements with commas (`null` elements become empty),
      every object renders as `[object Object]`. */
  function JsToString(v: Json): string {
    match v
    case JNull => "null"
    case JBool(b) => if b then "true" else "false"
    case JNumber(text) => text
    case JString(s) => s
    case JArray(items) =>
      JoinWithCommas(seq(|items|, i requires 0 <= i < |items| =>
        if items[i].JNull? then "" else JsToString(items[i])))
    case JObject(_) => "[object Object]"
  }

  /** `parts.join(",")`. */
  function JoinWithCommas(parts: seq<string>): string {
    if |parts| == 0 then ""
    else if |parts| == 1 then parts[0]
    else parts[0] + "," + JoinWithCommas(parts[1..])
  }

  predicate IsDigit(c: char) {
    '0' <= c <= '9'
  }

  function DigitChar(d: nat): (c: char)
    requires d < 10
    ensures IsDigit(c)
  {
    (('0' as int) + d) as char
  }

  function DigitValue(c: char): nat
    requires IsDigit(c)
  {
    (c as int) - ('0' as int)
  }

  /** The number a string of decimal digits denotes, most significant digit first. */
  function DigitsValue(s: string): nat
    requires forall i | 0 <= i < |s| :: IsDigit(s[i])
  {
    if s == [] then 0 else 10 * DigitsValue(s[..|s| - 1]) + DigitValue(s[|s| - 1])
  }

  /** The decimal rendering of a natural number, as `toString()` gives it: the
      digits of `n` without leading zeros. */
  function NatToString(n: nat): (s: string)
    ensures |s| >= 1
    ensures forall i | 0 <= i < |s| :: IsDigit(s[i])
    ensures DigitsValue(s) == n
    ensures |s| > 1 ==> s[0] != '0'
    ensures n < 10 ==> |s| == 1
    ensures 10 <= n < 100 ==> |s| == 2
  {
    if n < 10 then
      assert [DigitChar(n)][..0] == [];
      [DigitChar(n)]
    else
      var s := NatToString(n / 10) + [DigitChar(n % 10)];
      assert s[..|s| - 1] == NatToString(n / 10);
      s
  }

  /** The converse round trip: a digit string without a leading zero is the
      rendering of the number it denotes. */
  lemma {:induction false} DigitsRoundTrip(s: string)
    requires |s| >= 1 && forall i | 0 <= i < |s| :: IsDigit(s[i])
    requires |s| > 1 ==> s[0] != '0'
    ensures NatToString(DigitsValue(s)) == s
  {
    var c := s[|s| - 1];
    var d := DigitValue(c);
    assert DigitChar(d) == c;
    if |s| == 1 {
      assert s == [c];
      assert s[..0] == [];
    } else {
      var t := s[..|s| - 1];
      assert t[0] == s[0];
      assert |t| > 1 ==> t[0] != '0';
      DigitsRoundTrip(t);
      var v := DigitsValue(t);
      assert v != 0;
      var n := 10 * v + d;
      assert n / 10 == v && n % 10 == d;
      assert s == t + [c];
    }
  }

  /** Different numbers have different renderings. */
  lemma NatToStringInjective(a: nat, b: nat)
    requires a != b
    ensures NatToString(a) != NatToString(b)
  {
  }

  /** The decimal rendering of an integer, with a leading minus sign when negative. */
  function IntToString(i: int): string {
    if i < 0 then "-" + NatToString(-i) else NatToString(i)
  }
}
