/** Already-parsed JSON values, and the JavaScript reading rules the source applies to them:
    truthiness, `typeof` guards, `??` and `String(...)`. */
module Json {
  import opened Wrappers
  import Text

  /** A JSON value. Numbers are integers in this model. */
  datatype Value =
    | Null
    | Bool(b: bool)
    | Num(n: int)
    | Str(s: string)
    | Arr(items: seq<Value>)
    | Obj(fields: map<string, Value>)

  /** A JSON object, `Record<string, unknown>`. */
  type Record = map<string, Value>

  /** Property read `r.k`; None stands for `undefined`. */
  function Get(r: Record, k: string): (v: Option<Value>)
    ensures v.Some? <==> k in r
    ensures v.Some? ==> v.value == r[k]
  {
    if k in r then Some(r[k]) else None
  }

  /** `typeof v === "object" && v !== null`: true of objects and of arrays. */
  predicate IsObject(v: Value) {
    v.Obj? || v.Arr?
  }

  /** The named properties of a value. Only plain objects have any of the names this model
      reads; an array, a string or a number answers `undefined` to all of them. */
  function Props(v: Value): Record {
    if v.Obj? then v.fields else map[]
  }

  /** The message of the TypeError that reading property `k` of `null` throws, as V8 words it. */
  function NullRead(k: string): string {
    "Cannot read properties of null (reading '" + k + "')"
  }

  /** JavaScript truthiness of a possibly-undefined value. */
  predicate Truthy(v: Option<Value>) {
    match v
    case None => false
    case Some(Null) => false
    case Some(Bool(b)) => b
    case Some(Num(n)) => n != 0
    case Some(Str(s)) => s != ""
    case Some(_) => true
  }

  /** `typeof r.k === "string" ? r.k : undefined`. */
  function GetString(r: Record, k: string): (s: Option<string>)
    ensures s.Some? <==> k in r && r[k].Str?
    ensures s.Some? ==> r[k] == Str(s.value)
  {
    if k in r && r[k].Str? then Some(r[k].s) else None
  }

  /** `typeof r.k === "boolean" ? r.k : undefined`. */
  function GetBool(r: Record, k: string): (b: Option<bool>)
    ensures b.Some? <==> k in r && r[k].Bool?
    ensures b.Some? ==> r[k] == Bool(b.value)
  {
    if k in r && r[k].Bool? then Some(r[k].b) else None
  }

  /** `typeof r.k === "number" ? r.k : undefined`. */
  function GetNumber(r: Record, k: string): (n: Option<int>)
    ensures n.Some? <==> k in r && r[k].Num?
    ensures n.Some? ==> r[k] == Num(n.value)
  {
    if k in r && r[k].Num? then Some(r[k].n) else None
  }

  /** `typeof r.k === "object" && r.k !== null ? r.k : undefined`, read as a record. */
  function GetObject(r: Record, k: string): (o: Option<Record>)
    ensures o.Some? <==> k in r && IsObject(r[k])
    ensures o.Some? ==> o.value == Props(r[k])
  {
    if k in r && IsObject(r[k]) then Some(Props(r[k])) else None
  }

  /** `typeof r[key] === "object" && r[key] !== null ? r[key] : {}`. */
  function Section(r: Record, key: string): Record {
    GetObject(r, key).GetOr(map[])
  }

  /** `v ?? default`: only `null` and `undefined` fall through. */
  function Nullish(v: Option<Value>, default: Value): (r: Value)
    ensures v.Some? && v.value != Null ==> r == v.value
    ensures v.None? || v == Some(Null) ==> r == default
  {
    if v.None? || v.value == Null then default else v.value
  }

  /** `String(v)`. An array joins its elements with "," and renders null as "". */
  function ToJsString(v: Value): string
    decreases v
  {
    match v
    case Null => "null"
    case Bool(b) => if b then "true" else "false"
    case Num(n) => Text.IntToDecimal(n)
    case Str(s) => s
    case Obj(_) => "[object Object]"
    case Arr(items) =>
      Text.Join(seq(|items|, i requires 0 <= i < |items| =>
        if items[i] == Null then "" else ToJsString(items[i])), ",")
  }

  /** A number as `Number(...)` leaves it: an integer or NaN (fractions and infinities are
      outside this model). */
  datatype JsNum = Int(i: int) | NaN
}
