/**
 * JSON values as the application exchanges them, with the pieces of
 * JavaScript semantics the core relies on: truthiness, property access
 * and the `String(...)` conversion. `JSON.parse` and `JSON.stringify`
 * are not implemented: a `Codec` carries them as functions and `Lawful`
 * states the one law the core relies on.
 */
module Json {
  import opened Wrappers
  import opened Strings

  /** A JSON document. Numbers are integers; object key order is not kept. */
  datatype Json =
    | JNull
    | JBool(b: bool)
    | JNum(n: int)
    | JStr(s: string)
    | JArr(items: seq<Json>)
    | JObj(fields: map<string, Json>)

  /**
   * `JSON.parse` (partial: `None` where it throws), `JSON.stringify(v)` and
   * `JSON.stringify(v, null, 2)`.
   */
  datatype Codec = Codec(
    parse: string -> Option<Json>,
    stringify: Json -> string,
    stringifyIndented: Json -> string)

  /** Parsing what either serialisation produced gives the value back. */
  ghost predicate Lawful(c: Codec) {
    forall v: Json ::
      c.parse(c.stringify(v)) == Some(v) && c.parse(c.stringifyIndented(v)) == Some(v)
  }

  /** JavaScript truthiness of a value that may be `undefined` (`None`). */
  predicate Truthy(v: Option<Json>) {
    match v
    case None => false
    case Some(JNull) => false
    case Some(JBool(b)) => b
    case Some(JNum(n)) => n != 0
    case Some(JStr(s)) => s != ""
    case Some(_) => true
  }

  /**
   * `v.key`: the field of an object, `undefined` for every other value.
   * Property access on `null` throws, so callers take that path first.
   */
  function Member(v: Json, key: string): (r: Option<Json>)
    requires !v.JNull?
    ensures r.Some? <==> v.JObj? && key in v.fields
    ensures r.Some? ==> r.value == v.fields[key]
  {
    if v.JObj? && key in v.fields then Some(v.fields[key]) else None
  }

  /** An object literal with one field. */
  function Obj1(k: string, v: Json): Json {
    JObj(map[k := v])
  }

  /** The number a string of decimal digits denotes, most significant first. */
  function DigitsValue(s: string): int
    decreases |s|
  {
    if s == [] then 0 else 10 * DigitsValue(s[..|s| - 1]) + (s[|s| - 1] as int - '0' as int)
  }

  /** Decimal digits of a natural number: digits only, no leading zero, and denoting `n`. */
  function NatDigits(n: nat): (s: string)
    ensures |s| >= 1
    ensures forall i :: 0 <= i < |s| ==> '0' <= s[i] <= '9'
    ensures |s| > 1 ==> s[0] != '0'
    ensures DigitsValue(s) == n
  {
    var d := [(('0' as int) + n % 10) as char];
    if n < 10 then d
    else
      var s := NatDigits(n / 10) + d;
      assert s[..|s| - 1] == NatDigits(n / 10);
      s
  }

  /** `String(n)` for an integer. */
  function Decimal(n: int): string {
    if n < 0 then "-" + NatDigits(-n) else NatDigits(n)
  }

  /** `String(v)`: what `localStorage.setItem` and template literals store. */
  function JsString(v: Option<Json>): string {
    match v
    case None => "undefined"
    case Some(j) => ValueString(j)
  }

  /** `String(j)` for a defined value; an array joins its elements, with `null` as "". */
  function ValueString(j: Json): string
    decreases j
  {
    match j
    case JNull => "null"
    case JBool(b) => if b then "true" else "false"
    case JNum(n) => Decimal(n)
    case JStr(s) => s
    case JObj(_) => "[object Object]"
    case JArr(items) =>
      Join(seq(|items|, i requires 0 <= i < |items| =>
        if items[i].JNull? then "" else ValueString(items[i])), ',')
  }
}
