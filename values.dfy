/** Values carried by decoded events and rule documents, and the few Python
    operations the alert worker applies to them: `dict.get`, truthiness,
    the `or` operator and `str()` as used inside an f-string. */
module Values {

  datatype Option<+T> = None | Some(value: T)

  /** A scalar attribute value as JSON decoding or the document store yields it. */
  datatype Value = Str(s: string) | Int(i: int) | Bool(b: bool) | Null

  /** A decoded event: attribute name to value. */
  type Event = map<string, Value>

  /** `event.get(key)`: an absent key reads as null. */
  function Get(e: Event, key: string): Value {
    if key in e then e[key] else Null
  }

  /** Python truthiness: null, false, 0 and the empty string are falsy. */
  predicate Truthy(v: Value) {
    match v
    case Str(s) => s != ""
    case Int(i) => i != 0
    case Bool(b) => b
    case Null => false
  }

  /** Python `a or b`: the left operand when it is truthy, else the right one. */
  function Or(a: Value, b: Value): (r: Value)
    ensures r == a || r == b
    ensures Truthy(r) <==> Truthy(a) || Truthy(b)
  {
    if Truthy(a) then a else b
  }

  function DigitChar(d: nat): (c: char)
    requires d < 10
    ensures '0' <= c <= '9'
  {
    "0123456789"[d]
  }

  /** Decimal digits of a natural number, most significant first, as `str(n)` prints them. */
  function Decimal(n: nat): (r: string)
    ensures |r| >= 1
    ensures forall k :: 0 <= k < |r| ==> '0' <= r[k] <= '9'
    ensures (r[0] == '0') <==> n == 0
    decreases n
  {
    if n < 10 then [DigitChar(n)] else Decimal(n / 10) + [DigitChar(n % 10)]
  }

  /** The number a string of decimal digits denotes, most significant digit first. */
  function DigitsValue(s: string): nat
    requires forall k :: 0 <= k < |s| ==> '0' <= s[k] <= '9'
  {
    if s == [] then 0 else DigitsValue(s[..|s| - 1]) * 10 + (s[|s| - 1] - '0') as nat
  }

  /** The digits `Decimal` prints denote the number itself. */
  lemma {:induction false} DecimalRoundTrip(n: nat)
    ensures DigitsValue(Decimal(n)) == n
    decreases n
  {
    if n >= 10 {
      var r := Decimal(n);
      assert r[..|r| - 1] == Decimal(n / 10);
      DecimalRoundTrip(n / 10);
    }
  }

  /** `str(v)` for the values an f-string embeds. */
  function Show(v: Value): string {
    match v
    case Str(s) => s
    case Int(i) => if i < 0 then "-" + Decimal(-i) else Decimal(i)
    case Bool(b) => if b then "True" else "False"
    case Null => "None"
  }
}
