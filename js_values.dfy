/**
 * The JavaScript runtime facts the web tier relies on: optional values, thrown
 * values, parsed JSON, truthiness (`a || b`, `if (x)`), property access on a
 * parsed body (`data.success`), the string conversion a template literal applies
 * (`${status}`, `${data.url}`), and the status range of a fetch `Response`.
 */
module JsValues {

  datatype Option<+T> = None | Some(value: T) {
    function GetOr(default: T): T {
      match this
      case Some(v) => v
      case None => default
    }
  }

  /** A value caught by `catch (error)`: an `Error` object with its message, or any other thrown value. */
  datatype Thrown = ErrorObject(message: string) | NonError

  /** A JSON value as produced by `JSON.parse` (numbers are taken to be integers). */
  datatype Json =
    | JNull
    | JBool(b: bool)
    | JNum(n: int)
    | JStr(s: string)
    | JArr(items: seq<Json>)
    | JObj(fields: map<string, Json>)

  /** Outcome of `await response.json()`: the parsed value, or the `SyntaxError` it throws. */
  datatype JsonOutcome = Parsed(value: Json) | ParseThrew(e: Thrown)

  /** The status of a `Response` that `fetch` resolves to lies in 200..599. */
  type HttpStatus = s: int | 200 <= s <= 599 witness 200

  /** `response.ok`. */
  predicate IsOk(status: HttpStatus) {
    200 <= status <= 299
  }

  /** The member `key` of an object; `None` (JavaScript's `undefined`) for a missing member or a non-object. */
  function Field(v: Json, key: string): (r: Option<Json>)
    ensures r.Some? <==> v.JObj? && key in v.fields
    ensures r.Some? ==> r.value == v.fields[key]
  {
    if v.JObj? && key in v.fields then Some(v.fields[key]) else None
  }

  /** Property access `v.key` on a parsed body: on `null` it throws a `TypeError` (`Err`). */
  datatype Access = Err | Got(v: Option<Json>)

  function Prop(v: Json, key: string): (r: Access)
    ensures r.Err? <==> v == JNull
    ensures r.Got? ==> r.v == Field(v, key)
  {
    if v == JNull then Err else Got(Field(v, key))
  }

  /** JavaScript truthiness of a property value (`undefined` is falsy). */
  predicate Truthy(v: Option<Json>) {
    match v
    case None => false
    case Some(JNull) => false
    case Some(JBool(b)) => b
    case Some(JNum(n)) => n != 0
    case Some(JStr(s)) => s != ""
    case Some(JArr(_)) => true
    case Some(JObj(_)) => true
  }

  // ---------------------------------------------------------------------------
  // Decimal digits, as `${n}` renders a non-negative integer.

  function DigitChar(d: nat): (c: char)
    requires d < 10
    ensures '0' <= c <= '9'
    ensures c as int - '0' as int == d
  {
    ['0', '1', '2', '3', '4', '5', '6', '7', '8', '9'][d]
  }

  predicate IsDigit(c: char) {
    '0' <= c <= '9'
  }

  predicate AllDigits(s: string) {
    forall i :: 0 <= i < |s| ==> IsDigit(s[i])
  }

  /** The shortest decimal spelling of `n`: digits only, no leading zero. */
  function Decimal(n: nat): (s: string)
    ensures s != []
    ensures AllDigits(s)
    ensures s[0] == '0' ==> n == 0
    ensures |s| == 1 <==> n < 10
  {
    if n < 10 then [DigitChar(n)] else Decimal(n / 10) + [DigitChar(n % 10)]
  }

  /** The number a string of digits denotes (the partner of `Decimal`). */
  function DecimalValue(s: string): (n: nat)
    requires AllDigits(s)
  {
    if s == [] then 0
    else 10 * DecimalValue(s[..|s| - 1]) + (s[|s| - 1] as int - '0' as int)
  }

  /** Reading back a rendered number gives the number. */
  lemma {:induction false} DecimalRoundTrip(n: nat)
    ensures DecimalValue(Decimal(n)) == n
  {
    if n >= 10 {
      var s := Decimal(n);
      assert s[..|s| - 1] == Decimal(n / 10);
      DecimalRoundTrip(n / 10);
    }
  }

  /** Distinct numbers render as distinct strings. */
  lemma DecimalInjective(m: nat, n: nat)
    requires Decimal(m) == Decimal(n)
    ensures m == n
  {
    DecimalRoundTrip(m);
    DecimalRoundTrip(n);
  }

  // ---------------------------------------------------------------------------
  // String conversion (`String(v)`, as a template literal applies it).

  function IntString(n: int): (s: string)
    ensures s != []
  {
    if n >= 0 then Decimal(n) else "-" + Decimal(-n)
  }

  /** `String(v)` for a JSON value; arrays join their elements with commas, null elements read as empty. */
  function JsonString(v: Json): (s: string)
    decreases v, 1, 0
  {
    match v
    case JNull => "null"
    case JBool(b) => if b then "true" else "false"
    case JNum(n) => IntString(n)
    case JStr(s) => s
    case JArr(items) => JoinFrom(v, 0)
    case JObj(_) => "[object Object]"
  }

  /** The comma-joined rendering of the elements of array `arr` from index `i` on. */
  function JoinFrom(arr: Json, i: nat): string
    requires arr.JArr? && i <= |arr.items|
    decreases arr, 0, |arr.items| - i
  {
    if i == |arr.items| then ""
    else
      var elem := if arr.items[i] == JNull then "" else JsonString(arr.items[i]);
      if i + 1 == |arr.items| then elem else elem + "," + JoinFrom(arr, i + 1)
  }

  /** `${x}` for a property value; `undefined` renders as "undefined". */
  function TemplateString(v: Option<Json>): (s: string)
    ensures v.Some? && v.value.JStr? ==> s == v.value.s
    ensures v.None? ==> s == "undefined"
  {
    match v
    case None => "undefined"
    case Some(j) => JsonString(j)
  }
}
