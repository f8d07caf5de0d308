/** Untyped JavaScript values as they come out of `JSON.parse`, the property read
    `value.key`, truthiness, and thrown exceptions. */
module Json {
  import opened Optional

  /** A parsed JSON value, plus `JAbsent` for JavaScript's `undefined` (the value
      of reading a property that is not there). `JSON.parse` never yields
      `JAbsent`. Numbers are kept as reals; floating-point rounding is not modelled. */
  datatype JValue =
    | JAbsent
    | JNull
    | JBool(b: bool)
    | JNum(n: real)
    | JStr(s: string)
    | JArr(items: seq<JValue>)
    | JObj(fields: map<string, JValue>)

  /** A computation that returns a value or throws (the message names the
      exception). */
  datatype Result<+T> = Ok(value: T) | Thrown(error: string)

  const TypeError := "TypeError"

  /** `null` and `undefined`: the values on which a property read throws. */
  predicate IsNullish(v: JValue) {
    v.JNull? || v.JAbsent?
  }

  /** The value of `v.key` for a value that is not nullish. Only own data
      properties of objects are modelled: the built-in properties of strings and
      arrays (such as `length`) are never read by the code modelled here. */
  function Lookup(v: JValue, key: string): (r: JValue)
    ensures !v.JObj? ==> r == JAbsent
    ensures v.JObj? && key !in v.fields ==> r == JAbsent
  {
    match v
    case JObj(m) => if key in m then m[key] else JAbsent
    case _ => JAbsent
  }

  /** `v.key`: throws a TypeError exactly when `v` is `null` or `undefined`. */
  function Get(v: JValue, key: string): (r: Result<JValue>)
    ensures r.Thrown? <==> IsNullish(v)
    ensures r.Thrown? ==> r.error == TypeError
    ensures r.Ok? ==> r.value == Lookup(v, key)
  {
    if IsNullish(v) then Thrown(TypeError) else Ok(Lookup(v, key))
  }

  /** JavaScript truthiness: `undefined`, `null`, `false`, `0` and `""` are falsy;
      every array and every object is truthy. */
  predicate Truthy(v: JValue) {
    match v
    case JAbsent => false
    case JNull => false
    case JBool(b) => b
    case JNum(n) => n != 0.0
    case JStr(s) => s != ""
    case JArr(_) => true
    case JObj(_) => true
  }

  /** `Array.isArray(v)`. */
  predicate IsArray(v: JValue) {
    v.JArr?
  }

  /** `typeof v === 'string'`. */
  predicate IsString(v: JValue) {
    v.JStr?
  }

  /** Strings as JSON string values, element by element. */
  function Strs(xs: seq<string>): (r: seq<JValue>)
    ensures |r| == |xs| && forall i :: 0 <= i < |xs| ==> r[i] == JStr(xs[i])
  {
    if xs == [] then [] else [JStr(xs[0])] + Strs(xs[1..])
  }

  /** The strings behind a sequence of JSON values, when every one is a string. */
  function AsStrs(vs: seq<JValue>): (r: Option<seq<string>>)
    ensures r.Some? <==> forall i :: 0 <= i < |vs| ==> vs[i].JStr?
    ensures r.Some? ==> |r.value| == |vs| && forall i :: 0 <= i < |vs| ==> vs[i] == JStr(r.value[i])
  {
    if vs == [] then Some([])
    else if !vs[0].JStr? then None
    else match AsStrs(vs[1..])
      case None => None
      case Some(rest) => Some([vs[0].s] + rest)
  }

  /** Reading back strings written as JSON gives the same strings. */
  lemma StrsRoundTrip(xs: seq<string>)
    ensures AsStrs(Strs(xs)) == Some(xs)
  {
    var r := AsStrs(Strs(xs));
    assert r.Some?;
    assert r.value == xs;
  }
}
