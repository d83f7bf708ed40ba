/**
 * The slice of JavaScript values the launcher inspects: what the caller
 * may pass as `dhtBootstrap` or `appLink`, and what the runtime may send
 * back as the final event's data.
 */
module JsValues {
  import opened Decimal
  import opened Strings

  /** Numbers are integral here; objects are plain property bags. */
  datatype Value =
    | Undefined
    | Null
    | Bool(truth: bool)
    | Num(num: int)
    | Str(str: string)
    | Arr(items: seq<Value>)
    | Obj(props: map<string, Value>)

  /** JavaScript truthiness: `!v` is false exactly for these values. */
  predicate Truthy(v: Value) {
    match v
    case Undefined => false
    case Null => false
    case Bool(b) => b
    case Num(n) => n != 0
    case Str(s) => s != ""
    case Arr(_) => true
    case Obj(_) => true
  }

  /** The values `??` and `?.` treat as absent. */
  predicate Nullish(v: Value) {
    v.Undefined? || v.Null?
  }

  /** `v?.key` for the named data properties the launcher reads; only a
      plain object carries them. */
  function Get(v: Value, key: string): Value {
    if v.Obj? && key in v.props then v.props[key] else Undefined
  }

  /** `a ?? b` */
  function Coalesce(a: Value, b: Value): Value {
    if Nullish(a) then b else a
  }

  /** String conversion as a template literal performs it. */
  function ToStr(v: Value): string
    decreases v
  {
    match v
    case Undefined => "undefined"
    case Null => "null"
    case Bool(b) => if b then "true" else "false"
    case Num(n) => IntString(n)
    case Str(s) => s
    case Arr(items) => Join(ItemStrings(v), ',')
    case Obj(_) => "[object Object]"
  }

  /** The element strings `Array.prototype.join` uses: nullish elements
      become empty strings. */
  function ItemStrings(v: Value): (r: seq<string>)
    requires v.Arr?
    ensures |r| == |v.items|
    decreases v, 0
  {
    seq(|v.items|, i requires 0 <= i < |v.items| =>
      if Nullish(v.items[i]) then "" else ToStr(v.items[i]))
  }
}
