/** The JavaScript values the client receives from its backend and keeps in
    its state, with the three runtime behaviours the code relies on:
    truthiness (`!x`, `a || b`), property reads (`x.data`, `x?.data`) and
    what a `catch` block turns a thrown value into. */
module JsValues {
  import opened Wrappers

  /** A JSON value as `response.json()` yields it, plus `undefined`, which a
      property read produces for a missing key. Numbers are integers here. */
  datatype JsValue =
    | Undefined
    | Null
    | Bool(b: bool)
    | Num(n: int)
    | Str(s: string)
    | Arr(items: seq<JsValue>)
    | Obj(fields: map<string, JsValue>)

  /** What a `throw` hands to `catch`: an `Error` object carrying a message,
      or any other value (HttpClient throws a plain `{status, ...}` object). */
  datatype Thrown = Error(message: string) | NonError(value: JsValue)

  /** JavaScript truthiness: `undefined`, `null`, `false`, `0` and `""` are
      falsy; every array and object is truthy, empty or not. */
  predicate Truthy(v: JsValue)
  {
    match v
    case Undefined => false
    case Null => false
    case Bool(b) => b
    case Num(n) => n != 0
    case Str(s) => s != ""
    case Arr(_) => true
    case Obj(_) => true
  }

  /** Truthiness of a nullable string (`string | null` in the source). */
  predicate TruthyString(s: Option<string>)
  {
    s.Some? && s.value != ""
  }

  /** The message V8 gives the TypeError raised by reading `key` from null or undefined. */
  function ReadOfNullMessage(nullish: string, key: string): string
  {
    "Cannot read properties of " + nullish + " (reading '" + key + "')"
  }

  /** `v.key`: throws on null and undefined, yields `undefined` for a key an
      object lacks, and for every other primitive and for arrays (the keys read
      in this client, `data`, `id` and `categories`, are not properties of
      those). */
  function Prop(v: JsValue, key: string): (r: Result<JsValue, Thrown>)
    ensures r.Failure? <==> v.Undefined? || v.Null?
    ensures v.Obj? && key in v.fields ==> r == Success(v.fields[key])
    ensures v.Obj? && key !in v.fields ==> r == Success(Undefined)
  {
    match v
    case Undefined => Failure(Error(ReadOfNullMessage("undefined", key)))
    case Null => Failure(Error(ReadOfNullMessage("null", key)))
    case Obj(fields) => Success(if key in fields then fields[key] else Undefined)
    case _ => Success(Undefined)
  }

  /** `v?.key`: like `Prop`, but null and undefined short-circuit to `undefined`. */
  function OptProp(v: JsValue, key: string): (r: JsValue)
    ensures v.Undefined? || v.Null? ==> r == Undefined
    ensures !(v.Undefined? || v.Null?) ==> Prop(v, key) == Success(r)
  {
    if v.Undefined? || v.Null? then Undefined else Prop(v, key).value
  }

  /** `err instanceof Error ? err.message : fallback`, as every hook's `catch` block writes it. */
  function MessageOf(e: Thrown, fallback: string): (m: string)
    ensures e.Error? ==> m == e.message
    ensures e.NonError? ==> m == fallback
  {
    match e
    case Error(message) => message
    case NonError(_) => fallback
  }
}
