/** The JavaScript values the frontend reads (parsed JSON plus `undefined`) and the few
    operations on them it uses: truthiness, `typeof`, `in`, property reads, optional chaining and
    `??`. Only own data properties are modelled; numbers are integers. */
module Js {
  import opened Wrappers

  datatype Value =
    | Undefined
    | Null
    | Bool(b: bool)
    | Number(n: int)
    | String(s: string)
    | Array(items: seq<Value>)
    | Object(props: map<string, Value>)

  /** The `TypeError` a property read on `undefined`/`null`, or a call of a non-function, throws. */
  datatype TypeError = TypeError

  predicate IsNullish(v: Value) {
    v.Undefined? || v.Null?
  }

  /** `!!v`. */
  predicate Truthy(v: Value) {
    match v
    case Undefined => false
    case Null => false
    case Bool(b) => b
    case Number(n) => n != 0
    case String(s) => s != ""
    case Array(_) => true
    case Object(_) => true
  }

  /** A `string | null` as a JavaScript value. */
  function OfNullable(s: Option<string>): Value {
    if s.Some? then String(s.value) else Null
  }

  /** `typeof v`. */
  function TypeOf(v: Value): string {
    match v
    case Undefined => "undefined"
    case Bool(_) => "boolean"
    case Number(_) => "number"
    case String(_) => "string"
    case _ => "object"
  }

  /** `key in v` on an object-typed value. */
  predicate HasProperty(v: Value, key: string)
    requires TypeOf(v) == "object" && !v.Null?
  {
    v.Object? && key in v.props
  }

  /** `v.key`, which throws on `undefined` and `null`. */
  function Member(v: Value, key: string): (r: Result<Value, TypeError>)
    ensures r.Failure? <==> IsNullish(v)
    ensures v.Object? ==> r == Success(if key in v.props then v.props[key] else Undefined)
  {
    match v
    case Undefined => Failure(TypeError)
    case Null => Failure(TypeError)
    case Object(props) => Success(if key in props then props[key] else Undefined)
    case _ => Success(Undefined)
  }

  /** `v?.key`: `undefined` when `v` is nullish. */
  function OptionalMember(v: Value, key: string): Value {
    if IsNullish(v) then Undefined else Member(v, key).value
  }

  /** `v?.[i]` for a non-negative integer index. */
  function OptionalIndex(v: Value, i: nat): Value {
    match v
    case Array(items) => if i < |items| then items[i] else Undefined
    case String(s) => if i < |s| then String([s[i]]) else Undefined
    case Object(props) =>
      var key := NatToString(i);
      if key in props then props[key] else Undefined
    case _ => Undefined
  }

  /** `v ?? fallback`. */
  function Coalesce(v: Value, fallback: Value): Value {
    if IsNullish(v) then fallback else v
  }

  /** The decimal spelling of a property index. */
  function NatToString(n: nat): string
    decreases n
  {
    var digit := ["0123456789"[n % 10]];
    if n < 10 then digit else NatToString(n / 10) + digit
  }
}
