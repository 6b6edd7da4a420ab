/**
  JavaScript values as this API layer sees them: the falsy values, the `||`
  and `??` operators, and `process.env` as a map from names to strings.
 */
module Js {

  datatype Option<+T> = None | Some(value: T)

  /** A JavaScript number as produced here: an integer, or NaN from a failed `parseInt`. */
  datatype Number = NaN | Int(value: int)

  /** A JSON-like JavaScript value returned by a route handler. */
  datatype JsValue =
    | Undefined
    | Null
    | Bool(b: bool)
    | Num(n: Number)
    | Str(s: string)
    | Array(items: seq<JsValue>)
    | Object(fields: map<string, JsValue>)

  /** JavaScript truthiness: undefined, null, false, 0, NaN and '' are falsy. */
  predicate Truthy(v: JsValue)
  {
    match v
    case Undefined => false
    case Null => false
    case Bool(b) => b
    case Num(n) => n.Int? && n.value != 0
    case Str(s) => s != ""
    case Array(_) => true
    case Object(_) => true
  }

  /** `a || b` */
  function Or(a: JsValue, b: JsValue): (r: JsValue)
    ensures Truthy(a) ==> r == a
    ensures !Truthy(a) ==> r == b
  {
    if Truthy(a) then a else b
  }

  /** `a ?? b`: only undefined and null are replaced. */
  function Coalesce(a: JsValue, b: JsValue): (r: JsValue)
    ensures a != Undefined && a != Null ==> r == a
    ensures a == Undefined || a == Null ==> r == b
  {
    if a == Undefined || a == Null then b else a
  }

  /** `obj.key`: an absent key reads as undefined. */
  function Get(fields: map<string, JsValue>, key: string): (v: JsValue)
    ensures key !in fields ==> v == Undefined
    ensures key in fields ==> v == fields[key]
  {
    if key in fields then fields[key] else Undefined
  }

  /** A string that `||` keeps: defined and non-empty. */
  predicate Filled(s: Option<string>)
  {
    s.Some? && s.value != ""
  }

  /** `s || d` for a string that may be undefined: undefined and '' give `d`. */
  function StrOr(s: Option<string>, d: string): (r: string)
    ensures s.Some? && s.value != "" ==> r == s.value
    ensures s == None || s == Some("") ==> r == d
  {
    if s.Some? && s.value != "" then s.value else d
  }

  /** `n || d` for a status code that may be undefined: undefined and 0 give `d`. */
  function IntOr(n: Option<int>, d: int): (r: int)
    ensures n.Some? && n.value != 0 ==> r == n.value
    ensures n == None || n == Some(0) ==> r == d
  {
    if n.Some? && n.value != 0 then n.value else d
  }

  /** `n || d` for a number: NaN and 0 give `d`. */
  function NumberOr(n: Number, d: int): (r: int)
    ensures n.Int? && n.value != 0 ==> r == n.value
    ensures n == NaN || n == Int(0) ==> r == d
  {
    if n.Int? && n.value != 0 then n.value else d
  }

  /** `process.env`: every variable that is set, with its (possibly empty) value. */
  type Env = map<string, string>

  /** `process.env[name]`: undefined when the variable is not set. */
  function Lookup(env: Env, name: string): (v: Option<string>)
    ensures v.Some? <==> name in env
    ensures name in env ==> v.value == env[name]
  {
    if name in env then Some(env[name]) else None
  }

  /** The variable is unset or empty, so `process.env[name] || d` gives `d`. */
  predicate Blank(env: Env, name: string)
  {
    name !in env || env[name] == ""
  }
}
