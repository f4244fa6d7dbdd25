/** How the web client's JavaScript treats the JSON values it receives:
    property reads, truthiness, `String(v)` and the numeric coercion behind
    `>`. What the engine computes itself (number formatting, parsing a
    numeric string, exception texts) is passed in as an `Engine`. */
module JsValue {
  import opened Wrappers
  import opened JsonValue

  /** The engine's own conversions: `text` is `String(v)` for numbers and
      arrays, `numberOf` is `Number(s)` for a string (`None` for NaN), and
      the messages of the errors the browser raises. */
  datatype Engine = Engine(text: Json -> string, numberOf: string -> Option<real>,
                           typeErrorText: string, syntaxErrorText: string,
                           fetchErrorText: string)

  /** `v.name`: the member of an object, and `undefined` (`None`) for
      anything without that own property. Reading a property of `null`
      throws a TypeError, so callers handle null first. */
  function Prop(v: Json, name: string): (r: Option<Json>)
    requires !v.JNull?
    ensures v.JObj? ==> r == Get(v.fields, name)
    ensures !v.JObj? ==> r.None?
  {
    if v.JObj? then Get(v.fields, name) else None
  }

  /** JavaScript truthiness; `undefined` is `None`. */
  predicate Truthy(v: Option<Json>) {
    match v
    case None => false
    case Some(JNull) => false
    case Some(JBool(b)) => b
    case Some(JNum(n)) => n != 0.0
    case Some(JStr(s)) => |s| > 0
    case Some(_) => true
  }

  /** `a || b`. */
  function Or(a: Option<Json>, b: Json): (r: Json)
    ensures Truthy(a) ==> Some(r) == a
    ensures !Truthy(a) ==> r == b
  {
    if Truthy(a) then a.value else b
  }

  /** `String(v)`. */
  function JsString(v: Json, e: Engine): string {
    match v
    case JNull => "null"
    case JBool(b) => if b then "true" else "false"
    case JStr(s) => s
    case JObj(_) => "[object Object]"
    case _ => e.text(v)
  }

  /** `Number(v)` as a comparison computes it; `None` is NaN. */
  function JsNumber(v: Option<Json>, e: Engine): Option<real> {
    match v
    case None => None
    case Some(JNull) => Some(0.0)
    case Some(JBool(b)) => Some(if b then 1.0 else 0.0)
    case Some(JNum(n)) => Some(n)
    case Some(JObj(_)) => None
    case Some(x) => e.numberOf(JsString(x, e))
  }

  /** `v > bound`: false whenever `v` coerces to NaN. */
  predicate Above(v: Option<Json>, bound: real, e: Engine) {
    var x := JsNumber(v, e);
    x.Some? && x.value > bound
  }

  /** A missing value, null, or a non-positive number is never above a
      non-negative bound. */
  lemma NeverAbove(v: Option<Json>, bound: real, e: Engine)
    requires bound >= 0.0
    requires v.None? || v == Some(JNull) || (v.Some? && v.value.JNum? && v.value.n <= bound)
    ensures !Above(v, bound, e)
  {
  }
}
