/** JSON values with objects as maps, and the accessors used to take them apart. */
module JsonValue {
  import opened Wrappers

  /** An integer, or a float as the shortest decimal text that reads back to it. */
  datatype Number = Int(i: int) | Float(text: string)

  datatype Value =
    | VNull | VBool(b: bool) | VNum(n: Number) | VStr(s: string)
    | VArr(items: seq<Value>) | VObj(fields: map<string, Value>)

  function Get(v: Value, key: string): Option<Value> {
    if v.VObj? && key in v.fields then Some(v.fields[key]) else None
  }

  /** `get(a).or_else(|| get(b))`: the second key is looked up only when the first is absent. */
  function GetEither(v: Value, a: string, b: string): Option<Value> {
    if Get(v, a).Some? then Get(v, a) else Get(v, b)
  }

  function AsStr(v: Option<Value>): Option<string> {
    if v.Some? && v.value.VStr? then Some(v.value.s) else None
  }

  function AsBool(v: Option<Value>): Option<bool> {
    if v.Some? && v.value.VBool? then Some(v.value.b) else None
  }

  function AsU64(v: Option<Value>): Option<nat> {
    if v.Some? && v.value.VNum? && v.value.n.Int? && 0 <= v.value.n.i < 0x1_0000_0000_0000_0000
    then Some(v.value.n.i) else None
  }

  function AsArray(v: Option<Value>): Option<seq<Value>> {
    if v.Some? && v.value.VArr? then Some(v.value.items) else None
  }

  function StrAt(v: Value, key: string): Option<string> { AsStr(Get(v, key)) }

  function OrDefault<T>(v: Option<T>, d: T): T { if v.Some? then v.value else d }

  /** An optional string as `serde` prints it: absent is null. */
  function OptStr(s: Option<string>): Value { if s.Some? then VStr(s.value) else VNull }
}
