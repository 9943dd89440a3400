/** JavaScript values as the portal's code handles them without static types: server
    responses, records, thrown errors. Numbers are integers. */
module Json {
  import opened Wrappers
  import opened Strings

  datatype Json =
    | Undefined
    | Null
    | Bool(b: bool)
    | Num(n: int)
    | Str(s: string)
    | Arr(items: seq<Json>)
    | Obj(fields: map<string, Json>)

  /** `v == null`, which JavaScript also answers yes for `undefined`. */
  predicate Nullish(v: Json) {
    v.Undefined? || v.Null?
  }

  /** The values JavaScript treats as true in a condition or a `||`. */
  predicate Truthy(v: Json) {
    match v
    case Undefined => false
    case Null => false
    case Bool(b) => b
    case Num(n) => n != 0
    case Str(s) => s != ""
    case Arr(_) => true
    case Obj(_) => true
  }

  /** `a || b` */
  function Or(a: Json, b: Json): Json {
    if Truthy(a) then a else b
  }

  /** `v.key`: None when reading a property of null or undefined throws a TypeError;
      a missing property reads as undefined. */
  function Member(v: Json, key: string): (r: Option<Json>)
    ensures r.None? <==> Nullish(v)
  {
    match v
    case Undefined => None
    case Null => None
    case Obj(fields) => Some(if key in fields then fields[key] else Undefined)
    case _ => Some(Undefined)
  }

  /** `v?.key` */
  function OptMember(v: Json, key: string): Json {
    if Nullish(v) then Undefined else Member(v, key).value
  }

  /** `{...obj, [key]: value}`: every property of `obj` kept, `key` set to `value`. */
  function WithField(obj: Json, key: string, value: Json): (r: Json)
    requires obj.Obj?
    ensures r.Obj? && r.fields.Keys == obj.fields.Keys + {key}
    ensures Member(r, key) == Some(value)
    ensures forall k :: k in obj.fields && k != key ==> r.fields[k] == obj.fields[k]
  {
    Obj(obj.fields[key := value])
  }

  /** `new Error(message)`, as far as the code reads it (its `message`). */
  function JsError(message: string): (e: Json)
    ensures Member(e, "message") == Some(Str(message))
  {
    Obj(map["message" := Str(message)])
  }

  /** The TypeError thrown by `v.key` when `v` is null or undefined. */
  function TypeErrorReading(v: Json, key: string): Json
    requires Nullish(v)
  {
    JsError("Cannot read properties of " + (if v.Null? then "null" else "undefined")
            + " (reading '" + key + "')")
  }

  /** `String(v)`, which a template literal `${v}` applies. */
  function Text(v: Json): string
    decreases v
  {
    match v
    case Undefined => "undefined"
    case Null => "null"
    case Bool(b) => if b then "true" else "false"
    case Num(n) => IntText(n)
    case Str(s) => s
    case Arr(items) => JoinedText(items)
    case Obj(_) => "[object Object]"
  }

  /** `items.join(',')`, where null and undefined elements become empty. */
  function JoinedText(items: seq<Json>): string
    decreases items
  {
    if items == [] then ""
    else
      var first := if Nullish(items[0]) then "" else Text(items[0]);
      if |items| == 1 then first else first + "," + JoinedText(items[1..])
  }
}
