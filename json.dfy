/** The values a JSON request body can carry once parsed, and the two
    JavaScript operations the create handler applies to them: truthiness
    (`x ? … : …`, `a && b`) and coercion with `String(x)`.
 */
module Json {
  import opened Wrappers

  /** A parsed JSON value, plus `Undefined` for a property that is absent.
      Numbers are restricted to integers. */
  datatype JsonValue =
    | Undefined
    | Null
    | Bool(b: bool)
    | Int(n: int)
    | Str(s: string)
    | Array(items: seq<JsonValue>)
    | Object(fields: map<string, JsonValue>)

  /** JavaScript truthiness: exactly undefined, null, false, 0 and "" are
      falsy; every array and object, even an empty one, is truthy. */
  predicate Truthy(v: JsonValue)
    ensures Truthy(v) <==> v !in {Undefined, Null, Bool(false), Int(0), Str("")}
  {
    match v
    case Undefined => false
    case Null => false
    case Bool(b) => b
    case Int(n) => n != 0
    case Str(s) => s != []
    case Array(_) => true
    case Object(_) => true
  }

  /** Property access `v.key`: an own property of an object, `undefined`
      for everything else. */
  function Member(v: JsonValue, key: string): JsonValue {
    if v.Object? && key in v.fields then v.fields[key] else Undefined
  }

  function DigitChar(d: nat): (c: char)
    requires d < 10
    ensures '0' <= c <= '9'
  {
    "0123456789"[d]
  }

  function DigitValue(c: char): (d: nat)
    requires '0' <= c <= '9'
    ensures d < 10 && DigitChar(d) == c
  {
    (c as int - '0' as int) as nat
  }

  predicate IsDigits(s: string) {
    forall i :: 0 <= i < |s| ==> '0' <= s[i] <= '9'
  }

  /** Decimal digits of a natural number, most significant first, with no
      leading zero (the way JavaScript prints an integer). */
  function NatToDecimal(n: nat): (s: string)
    ensures s != [] && IsDigits(s)
    ensures |s| > 1 ==> s[0] != '0'
    decreases n
  {
    if n < 10 then [DigitChar(n)] else NatToDecimal(n / 10) + [DigitChar(n % 10)]
  }

  /** Reads a string of decimal digits back as a number; the partner of
      NatToDecimal. */
  function DecimalValue(s: string): (n: nat)
    requires IsDigits(s)
  {
    if s == [] then 0 else 10 * DecimalValue(s[..|s| - 1]) + DigitValue(s[|s| - 1])
  }

  /** Printing an integer loses nothing: its digits read back to it. */
  lemma {:induction false} DecimalRoundTrip(n: nat)
    ensures DecimalValue(NatToDecimal(n)) == n
    decreases n
  {
    var s := NatToDecimal(n);
    if n >= 10 {
      DecimalRoundTrip(n / 10);
      assert s[..|s| - 1] == NatToDecimal(n / 10);
    }
  }

  /** `String(n)` for an integer: an optional minus sign, then the digits
      of its magnitude, which read back to that magnitude. */
  function IntToString(n: int): (s: string)
    ensures s != []
    ensures n < 0 <==> s[0] == '-'
    ensures var digits := if n < 0 then s[1..] else s;
      IsDigits(digits) && DecimalValue(digits) == (if n < 0 then -n else n)
  {
    var magnitude := if n < 0 then -n else n;
    SignedDigits(magnitude);
    if n < 0 then "-" + NatToDecimal(magnitude) else NatToDecimal(magnitude)
  }

  lemma SignedDigits(m: nat)
    ensures ("-" + NatToDecimal(m))[1..] == NatToDecimal(m)
    ensures DecimalValue(NatToDecimal(m)) == m
  {
    DecimalRoundTrip(m);
  }

  /** Whether `String(v)` throws a TypeError. A JSON object with its own
      `toString` property has a non-callable `toString`, and the fallback
      `valueOf` yields an object, so the conversion to a primitive fails;
      an array fails when one of its elements does. */
  predicate ToStringThrows(v: JsonValue)
    decreases v
  {
    match v
    case Object(fields) => "toString" in fields
    case Array(items) => exists i :: 0 <= i < |items| && ToStringThrows(items[i])
    case _ => false
  }

  /** `String(v)`, or None where it throws. Arrays print as their elements
      joined with ",", where null and undefined elements print as the empty
      string; every other object prints as "[object Object]". */
  function JsString(v: JsonValue): (s: Option<string>)
    ensures s.None? <==> ToStringThrows(v)
    ensures v.Str? ==> s == Some(v.s)
    ensures v.Object? && s.Some? ==> s.value == "[object Object]"
    ensures v == Array([]) ==> s == Some("")
    decreases v, 1
  {
    match v
    case Undefined => Some("undefined")
    case Null => Some("null")
    case Bool(b) => Some(if b then "true" else "false")
    case Int(n) => Some(IntToString(n))
    case Str(s) => Some(s)
    case Array(items) => JoinItems(v, items)
    case Object(fields) => if "toString" in fields then None else Some("[object Object]")
  }

  /** Array.prototype.join(",") over the elements of the array `whole`; it
      fails exactly when converting one of the elements fails. */
  function JoinItems(whole: JsonValue, items: seq<JsonValue>): (s: Option<string>)
    requires forall i :: 0 <= i < |items| ==> items[i] < whole
    ensures s.None? <==> exists i :: 0 <= i < |items| && ToStringThrows(items[i])
    decreases whole, 0, |items|
  {
    if items == [] then Some("")
    else
      var head := if items[0].Undefined? || items[0].Null? then Some("") else JsString(items[0]);
      if head.None? then None
      else if |items| == 1 then head
      else
        var tail := JoinItems(whole, items[1..]);
        assert forall i :: 1 <= i < |items| ==> items[1..][i - 1] == items[i];
        if tail.None? then None else Some(head.value + "," + tail.value)
  }
}
