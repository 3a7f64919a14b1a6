/**
 The small slice of JavaScript semantics the server code relies on: the values
 that reach it from environment variables and JSON request bodies, ECMAScript
 truthiness, template-literal interpolation of an optional string, and the
 string builtins `startsWith` and `slice`.
 */
module JsValues {

  /** The conventional optional value, used for environment variables and
      nullable columns. */
  datatype Option<+T> = None | Some(value: T)

  /** The JavaScript values the modelled code inspects. Numbers are integers;
      objects, arrays, NaN, Infinity and fractions are not modelled. A string
      is a sequence of Unicode scalar values, not of UTF-16 code units. */
  datatype JsValue = Undefined | Null | Bool(b: bool) | Num(n: int) | Str(s: string)

  /** ECMAScript ToBoolean: the falsy values are undefined, null, false, 0 and "". */
  predicate Truthy(v: JsValue) {
    match v
    case Undefined => false
    case Null => false
    case Bool(b) => b
    case Num(n) => n != 0
    case Str(s) => s != ""
  }

  /** How an optional environment variable reads through `process.env`:
      an unset variable is `undefined`. */
  function EnvValue(o: Option<string>): (v: JsValue)
    ensures v.Undefined? <==> o.None?
    ensures o.Some? ==> v == Str(o.value)
  {
    match o
    case None => Undefined
    case Some(s) => Str(s)
  }

  /** `${x}` for an optional string: an unset value is spelled "undefined". */
  function Interpolate(o: Option<string>): string {
    match o
    case None => "undefined"
    case Some(s) => s
  }

  /** String.prototype.startsWith with a literal prefix. */
  predicate StartsWith(s: string, prefix: string) {
    |prefix| <= |s| && s[..|prefix|] == prefix
  }

  function Min(a: int, b: int): int {
    if a <= b then a else b
  }

  /** The position a relative index of String.prototype.slice denotes in a
      string of length `len`: negative indices count from the end, and both
      kinds are clamped to [0, len]. */
  function RelativeIndex(k: int, len: nat): (r: nat)
    ensures r <= len
    ensures 0 <= k <= len ==> r == k
    ensures k < 0 && 0 <= len + k ==> r == len + k
  {
    if k < 0 then
      (if len + k < 0 then 0 else len + k)
    else
      (if k > len then len else k)
  }

  /** String.prototype.slice(start, end), with `end` omitted when None: the
      characters from the resolved start up to the resolved end, or "" when
      the resolved end does not lie after the resolved start. Positions count
      characters, so this agrees with JavaScript, which counts UTF-16 code
      units, exactly when every character lies in the Basic Multilingual
      Plane. */
  function Slice(s: string, start: int, end: Option<int>): (r: string)
    ensures |r| <= |s|
  {
    var from := RelativeIndex(start, |s|);
    var to := if end.None? then |s| else RelativeIndex(end.value, |s|);
    if from < to then s[from..to] else ""
  }
}
