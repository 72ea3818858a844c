/**
 * The JavaScript values the request handlers of app.js inspect: JSON bodies
 * returned by the aggregation API, session fields, query parameters and
 * environment settings. Only the operations the handlers apply to them are
 * modelled: truthiness, property access, string conversion (`+` with a
 * string) and the conversion querystring.stringify applies to a value.
 */
module JsValues {

  datatype Option<+T> = None | Some(value: T)

  /** The outcome of evaluating an expression that may throw a TypeError. */
  datatype Completion<+T> = Normal(value: T) | TypeError

  /**
   * Numbers are integers here; fractions, NaN and Infinity are not
   * represented. `Error` is an Error object, such as the one an HTTP client
   * hands to its callback when a request fails: its `name` is inherited
   * from its prototype, its `message` is an own field.
   */
  datatype Value =
    | Undefined
    | Null
    | Bool(b: bool)
    | Num(n: int)
    | Str(s: string)
    | Arr(items: seq<Value>)
    | Obj(fields: map<string, Value>)
    | Error(name: string, message: string)

  /** An environment variable: a string when set, `undefined` otherwise. */
  function EnvValue(setting: Option<string>): (v: Value)
    ensures v.Undefined? <==> setting.None?
    ensures setting.Some? ==> v == Str(setting.value)
  {
    match setting
    case None => Undefined
    case Some(s) => Str(s)
  }

  /**
   * JavaScript's ToBoolean, as used by `if (x)`, `!x` and `a && b`: the
   * falsy values are undefined, null, false, 0 and the empty string.
   */
  predicate Truthy(v: Value): (b: bool)
    ensures !b <==> v in {Undefined, Null, Bool(false), Num(0), Str("")}
  {
    match v
    case Undefined => false
    case Null => false
    case Bool(b) => b
    case Num(n) => n != 0
    case Str(s) => s != ""
    case Arr(_) => true
    case Obj(_) => true
    case Error(_, _) => true
  }

  predicate Nullish(v: Value) {
    v.Undefined? || v.Null?
  }

  /**
   * `v[k]` (or `v.k`) on a value that is not null or undefined: an own field of
   * an object, an error's `message` or `name`, `undefined` for anything missing.
   */
  function Member(v: Value, k: string): (r: Value)
    ensures !v.Obj? && !v.Error? ==> r.Undefined?
    ensures v.Obj? && k in v.fields ==> r == v.fields[k]
    ensures v.Obj? && k !in v.fields ==> r == Undefined
    ensures v.Error? ==> r == if k == "message" then Str(v.message) else if k == "name" then Str(v.name) else Undefined
  {
    if v.Obj? && k in v.fields then v.fields[k]
    else if v.Error? && k == "message" then Str(v.message)
    else if v.Error? && k == "name" then Str(v.name)
    else Undefined
  }

  /** `v[k]` in general: reading a property of null or undefined throws. */
  function GetProp(v: Value, k: string): (r: Completion<Value>)
    ensures r.TypeError? <==> Nullish(v)
    ensures r.Normal? ==> r.value == Member(v, k)
  {
    if Nullish(v) then TypeError else Normal(Member(v, k))
  }

  function DigitChar(d: int): (c: char)
    requires 0 <= d < 10
    ensures '0' <= c <= '9' && c as int - '0' as int == d
  {
    ('0' as int + d) as char
  }

  /** The number a string of decimal digits stands for, most significant digit first. */
  function DigitsValue(s: string): int
    decreases |s|
  {
    if s == [] then 0 else DigitsValue(s[..|s| - 1]) * 10 + (s[|s| - 1] as int - '0' as int)
  }

  /** The decimal numeral of a natural number, without leading zeros. */
  function NatToString(n: nat): (s: string)
    ensures 1 <= |s|
    ensures forall i | 0 <= i < |s| :: '0' <= s[i] <= '9'
    ensures DigitsValue(s) == n
    ensures n < 10 <==> |s| == 1
    ensures |s| > 1 ==> s[0] != '0'
    decreases n
  {
    if n < 10 then [DigitChar(n)] else NatToString(n / 10) + [DigitChar(n % 10)]
  }

  /** `String(n)` for an integer number (plain decimal notation). */
  function IntToString(n: int): (s: string)
    ensures 1 <= |s|
    ensures (s[0] == '-') <==> n < 0
    ensures s[0] == '-' || '0' <= s[0] <= '9'
  {
    if n < 0 then "-" + NatToString(-n) else NatToString(n)
  }

  /**
   * `String(v)`, which is what `v + " "` and `"x" + v` use. An error is
   * written by Error.prototype.toString: name and message joined by ": ",
   * either one alone when the other is empty.
   */
  function JsToString(v: Value): (s: string)
    ensures v.Str? ==> s == v.s
    ensures v.Undefined? ==> s == "undefined"
    ensures v.Null? ==> s == "null"
    ensures v.Error? && v.name != "" && v.message != "" ==> s == v.name + ": " + v.message
    ensures v.Error? && v.message == "" ==> s == v.name
  {
    match v
    case Undefined => "undefined"
    case Null => "null"
    case Bool(b) => if b then "true" else "false"
    case Num(n) => IntToString(n)
    case Str(s) => s
    case Arr(items) => JoinElements(items)
    case Obj(_) => "[object Object]"
    case Error(name, message) =>
      if name == "" then message else if message == "" then name else name + ": " + message
  }

  /** `Array.prototype.join(",")`: null and undefined elements become empty. */
  function JoinElements(items: seq<Value>): (s: string)
    ensures items == [] ==> s == ""
    decreases items
  {
    if items == [] then ""
    else
      var head := if Nullish(items[0]) then "" else JsToString(items[0]);
      if |items| == 1 then head else head + "," + JoinElements(items[1..])
  }

  /**
   * What querystring.stringify writes for one value: strings as they are,
   * booleans and numbers as text, everything else (undefined, null, arrays,
   * objects, errors) as the empty string.
   */
  function StringifyPrimitive(v: Value): (s: string)
    ensures v.Str? ==> s == v.s
    ensures (v.Undefined? || v.Null? || v.Obj? || v.Arr? || v.Error?) ==> s == ""
  {
    match v
    case Str(s) => s
    case Bool(b) => if b then "true" else "false"
    case Num(n) => IntToString(n)
    case _ => ""
  }
}
