/**
 * JavaScript values as they appear in documents, function arguments and
 * form state, together with the few language rules the source leans on:
 * truthiness (`if (x)`, `!x`, `||`), `typeof x === "number"`, `x ?? y`,
 * property access, `String(x)` and the numeric conversion behind `<`.
 */
module JsValue {
  import opened Wrappers
  import Text

  /** Milliseconds since the epoch; the model treats each `new Date()` as an opaque instant. */
  type Timestamp = int

  datatype Value =
    | Null
    | Bool(b: bool)
    | Num(n: real)
    | Str(s: string)
    | Time(at: Timestamp)
    | List(items: seq<Value>)
    | Obj(fields: map<string, Value>)

  /** A document or a plain object literal; an absent key is `undefined`. */
  type Doc = map<string, Value>

  /** `obj.f`, with `None` standing for `undefined`. */
  function Get(d: Doc, f: string): Option<Value> {
    if f in d then Some(d[f]) else None
  }

  /** `v.f` on a value that is not null or undefined. */
  function Prop(v: Option<Value>, f: string): Option<Value> {
    match v
    case Some(Obj(fields)) => Get(fields, f)
    case _ => None
  }

  /** JavaScript truthiness (NaN is not representable here). */
  predicate Truthy(v: Option<Value>) {
    match v
    case None => false
    case Some(Null) => false
    case Some(Bool(b)) => b
    case Some(Num(n)) => n != 0.0
    case Some(Str(s)) => s != ""
    case Some(_) => true
  }

  /** `typeof v === "number"`. */
  predicate IsNumber(v: Option<Value>) {
    v.Some? && v.value.Num?
  }

  /** `v === null || v === undefined`, the test behind `??`. */
  predicate Nullish(v: Option<Value>) {
    v == None || v == Some(Null)
  }

  /**
   * `ToNumber(v)`. `None` stands for NaN, and also for every non-empty
   * string: numeric and white-space-only text is not parsed here.
   */
  function ToNumber(v: Option<Value>): Option<real> {
    match v
    case None => None
    case Some(Null) => Some(0.0)
    case Some(Bool(b)) => Some(if b then 1.0 else 0.0)
    case Some(Num(n)) => Some(n)
    case Some(Str(s)) => TextToNumber(s)
    case Some(Time(at)) => Some(at as real)
    case Some(List(items)) => ListToNumber(items)
    case Some(Obj(_)) => None
  }

  /** `ToNumber` of a string: the empty string is 0; other text is taken as NaN. */
  function TextToNumber(s: string): Option<real> {
    if s == "" then Some(0.0) else None
  }

  /**
   * `ToNumber` of an array, which converts its `join(",")` text: an empty
   * array is 0; a one-element array converts that element's text (null
   * gives "" and so 0, a number gives its own text and so itself, a date
   * or an object gives text that is not numeric); a longer array's text
   * holds a comma and is NaN.
   */
  function ListToNumber(items: seq<Value>): Option<real>
    decreases List(items)
  {
    if items == [] then Some(0.0)
    else if |items| > 1 then None
    else match items[0]
      case Null => Some(0.0)
      case Num(n) => Some(n)
      case Str(s) => TextToNumber(s)
      case List(inner) => assert items[0] in items; ListToNumber(inner)
      case _ => None
  }

  /** `v < bound`: false whenever `v` converts to NaN. */
  predicate LessThan(v: Option<Value>, bound: real) {
    var n := ToNumber(v);
    n.Some? && n.value < bound
  }

  /** `String(v)`, the conversion a regular expression's `test` applies to its argument. */
  function ToText(v: Option<Value>): string {
    match v
    case None => "undefined"
    case Some(x) => ValueText(x)
  }

  function ValueText(x: Value): string
    decreases x, 1
  {
    match x
    case Null => "null"
    case Bool(b) => if b then "true" else "false"
    case Num(n) => Text.IntToString(n.Floor)
    case Str(s) => s
    case Time(at) => Text.IntToString(at)
    case List(items) => JoinText(items)
    case Obj(_) => "[object Object]"
  }

  /** `items.join(",")`, where null elements render as empty text. */
  function JoinText(items: seq<Value>): string
    decreases items, 0
  {
    if items == [] then ""
    else
      var first := if items[0] == Null then "" else ValueText(items[0]);
      if |items| == 1 then first else first + "," + JoinText(items[1..])
  }
}

/** The signed-in identity the auth service reports (`user` of `useAuth`). */
module Identity {
  datatype User = User(uid: string, email: string)
}
