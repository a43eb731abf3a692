/**
  Decoded JSON values and the handful of JavaScript operations the handler
  applies to them: truthiness, `typeof`, plain property reads (which throw on
  null and undefined), optional chaining `?.`, `||`, `??` and destructuring
  defaults.
 */
module JsValues {
  import opened Wrappers

  /** A value decoded from JSON text. Numbers are mathematical reals: the
      rounding of `JSON.parse` to doubles is not modelled. */
  datatype Json =
    | JNull
    | JBool(b: bool)
    | JNum(n: real)
    | JStr(s: string)
    | JArr(items: seq<Json>)
    | JObj(fields: map<string, Json>)

  /** A JavaScript value reached by reading decoded JSON: `None` is `undefined`. */
  type Value = Option<Json>

  /** `v == null`, that is null or undefined. */
  predicate Nullish(v: Value) {
    v.None? || v.value.JNull?
  }

  /** ECMAScript ToBoolean, as used by `!x`, `x || y` and `if (x)`. */
  predicate Truthy(v: Value)
    ensures Truthy(v) ==> !Nullish(v)
    ensures !Truthy(v) <==> v in {None, Some(JNull), Some(JBool(false)), Some(JNum(0.0)), Some(JStr(""))}
  {
    match v
    case None => false
    case Some(j) =>
      match j
      case JNull => false
      case JBool(b) => b
      case JNum(n) => n != 0.0
      case JStr(s) => s != ""
      case JArr(_) => true
      case JObj(_) => true
  }

  /** ECMAScript `typeof`. */
  function TypeOf(v: Value): string {
    match v
    case None => "undefined"
    case Some(j) =>
      match j
      case JNull => "object"
      case JBool(_) => "boolean"
      case JNum(_) => "number"
      case JStr(_) => "string"
      case JArr(_) => "object"
      case JObj(_) => "object"
  }

  /** Reads `key` from a map of members; absent members read as undefined. */
  function Field(m: map<string, Json>, key: string): Value {
    if key in m then Some(m[key]) else None
  }

  /** `j[key]` on a value that is neither null nor undefined. Only JSON objects
      carry the keys this handler reads; on arrays, strings, numbers and
      booleans every such read yields undefined. */
  function Get(j: Json, key: string): Value {
    if j.JObj? then Field(j.fields, key) else None
  }

  /** `v?.key`: undefined when `v` is null or undefined. */
  function OptGet(v: Value, key: string): Value {
    if Nullish(v) then None else Get(v.value, key)
  }

  /** `v?.k1?.k2 ... ?.kn` for `path == [k1, ..., kn]`. */
  function Chain(v: Value, path: seq<string>): Value
    decreases |path|
  {
    if path == [] then v else Chain(OptGet(v, path[0]), path[1..])
  }

  /** An exception raised inside the handler's `try` block. */
  datatype Thrown =
    | CannotRead(onNull: bool, key: string)  // TypeError from `x.key` with `x` null (or undefined)
    | Failed(message: string)                // an error raised elsewhere, with its `message`

  /** The `message` of a thrown error, in the wording of the V8 engine for the
      TypeError of a property read on null or undefined. */
  function Message(e: Thrown): string {
    match e
    case CannotRead(onNull, key) =>
      "Cannot read properties of " + (if onNull then "null" else "undefined") + " (reading '" + key + "')"
    case Failed(message) => message
  }

  /** `v.key` without optional chaining: throws when `v` is null or undefined,
      and otherwise reads the same value as `v?.key`. */
  function Read(v: Value, key: string): (r: Result<Value, Thrown>)
    ensures r.Failure? <==> Nullish(v)
    ensures r.Failure? ==> r.error == CannotRead(v.Some?, key)
    ensures r.Success? ==> r.value == OptGet(v, key)
  {
    match v
    case None => Failure(CannotRead(false, key))
    case Some(j) => if j.JNull? then Failure(CannotRead(true, key)) else Success(Get(j, key))
  }

  /** `a || b` */
  function Or(a: Value, b: Value): Value {
    if Truthy(a) then a else b
  }

  /** `v ?? d` */
  function Coalesce(v: Value, d: Json): Json {
    if Nullish(v) then d else v.value
  }

  /** The destructuring default `{ x = d } = ...`: applies to undefined only, not to null. */
  function Default(v: Value, d: Json): Json {
    if v.None? then d else v.value
  }

  /** Reading undefined along any further path gives undefined. */
  lemma {:induction false} ChainOfUndefined(path: seq<string>)
    ensures Chain(None, path) == None
    decreases |path|
  {
    if path != [] {
      ChainOfUndefined(path[1..]);
    }
  }

  /** Optional chaining composes: `v?.p?.q` reads `q` from the value of `v?.p`. */
  lemma {:induction false} ChainAppend(v: Value, p: seq<string>, q: seq<string>)
    ensures Chain(v, p + q) == Chain(Chain(v, p), q)
    decreases |p|
  {
    if p == [] {
      assert p + q == q;
    } else {
      assert (p + q)[0] == p[0];
      assert (p + q)[1..] == p[1..] + q;
      ChainAppend(OptGet(v, p[0]), p[1..], q);
    }
  }

  /** Short-circuiting: once a link before the last one is null or undefined,
      the whole chain is undefined. */
  lemma ChainShortCircuits(v: Value, path: seq<string>, i: nat)
    requires i < |path|
    requires Nullish(Chain(v, path[..i]))
    ensures Chain(v, path) == None
  {
    var rest := path[i..];
    assert path == path[..i] + rest;
    ChainAppend(v, path[..i], rest);
    ChainOfUndefined(rest[1..]);
  }
}
