/**
 * JavaScript values as far as the importer inspects them: truthiness,
 * `typeof`, own enumerable properties, the shallow copies made by `xtend`
 * and `Array.prototype.slice`, and thrown errors.
 */
module Js {

  /** A JavaScript value. Numbers are integers here; objects are values. */
  datatype Value =
    | Undefined
    | Null
    | Bool(b: bool)
    | Num(n: int)
    | Str(s: string)
    | Fn(id: nat)                        // a function, known by identity only
    | Arr(items: seq<Value>)
    | Obj(fields: map<string, Value>)    // a plain object: its own enumerable properties
    | Stream(stream: StreamInfo)         // an object whose prototype defines `_transform`

  /** The transform streams the importer creates or receives. */
  datatype StreamInfo =
    | SymlinkMarker(id: nat)                      // lib/stream/symlink.js FileSymlinkStream
    | HtmlRewriter(config: map<string, Value>)    // html-transform(config)
    | CssRewriter(config: map<string, Value>)     // css-transform(config)
    | External(id: nat)                           // any stream supplied by a caller

  /** `!!v` */
  predicate Truthy(v: Value)
  {
    match v
    case Undefined => false
    case Null => false
    case Bool(b) => b
    case Num(n) => n != 0
    case Str(s) => s != ""
    case _ => true
  }

  /** `typeof v === 'object'` (which holds for `null`). */
  predicate IsObjectType(v: Value)
  {
    v.Null? || v.Arr? || v.Obj? || v.Stream?
  }

  /**
   * `v.name` is a function the importer can call: streams have `pipe`,
   * `unpipe` and `write`; a plain object has a method only as an own
   * function-valued property; anything else has none.
   */
  predicate HasMethod(v: Value, name: string)
  {
    v.Stream? || (v.Obj? && name in v.fields && v.fields[name].Fn?)
  }

  /** Property lookup on a property map: a missing key reads as `undefined`. */
  function Get(m: map<string, Value>, key: string): (r: Value)
    ensures key !in m ==> r == Undefined
    ensures key in m ==> r == m[key]
  {
    if key in m then m[key] else Undefined
  }

  /** Decimal rendering of an array index, the key `Object.keys` reports for it. */
  function IndexKey(n: nat): (r: string)
    ensures |r| > 0
    decreases n
  {
    if n < 10 then [Digit(n)] else IndexKey(n / 10) + [Digit(n % 10)]
  }

  function Digit(d: nat): char
    requires d < 10
  {
    "0123456789"[d]
  }

  /** The index-keyed properties of an array. */
  function IndexedFields(items: seq<Value>): map<string, Value>
    decreases |items|
  {
    if items == [] then map[]
    else IndexedFields(items[..|items| - 1])[IndexKey(|items| - 1) := items[|items| - 1]]
  }

  /** The index-keyed properties of a string, one single-character string each. */
  function IndexedChars(s: string): map<string, Value>
    decreases |s|
  {
    if s == [] then map[]
    else IndexedChars(s[..|s| - 1])[IndexKey(|s| - 1) := Str([s[|s| - 1]])]
  }

  /**
   * The own enumerable properties `for…in`/`Object.assign`/`Object.keys`
   * see on a value. The own properties of function and stream objects are
   * not tracked, so they contribute none.
   */
  function OwnEnumerable(v: Value): map<string, Value>
  {
    match v
    case Obj(fields) => fields
    case Arr(items) => IndexedFields(items)
    case Str(s) => IndexedChars(s)
    case _ => map[]
  }

  /**
   * The copy `ProjectConfig.extend` stores for one value: arrays are sliced,
   * anything else whose `typeof` is 'object' is copied by `xtend` into a new
   * plain object (so `null` becomes `{}`), everything else is kept.
   */
  function ShallowCopy(v: Value): (r: Value)
    ensures v.Arr? ==> r == v
    ensures v.Obj? ==> r == v
    ensures !IsObjectType(v) ==> r == v
    ensures v.Null? ==> r == Obj(map[])
  {
    if v.Arr? then Arr(v.items)
    else if IsObjectType(v) then Obj(OwnEnumerable(v))
    else v
  }

  /** The kinds of error object the importer throws or passes on. */
  datatype ErrorKind = PlainError | TypeError | FileImport | ProjectImport

  /**
   * The own enumerable properties of an error other than `message` and
   * `stack`, which the importer reads and writes on their own.
   */
  type ErrorFields = m: map<string, Value> | "message" !in m && "stack" !in m witness map[]

  /**
   * A thrown error: its `message` and `stack` as read, and its other own
   * enumerable properties (`code`, `errno`, … for file-system errors).
   */
  datatype JsError = JsError(kind: ErrorKind, message: string, stack: string, fields: ErrorFields)

  /** `new Error(message)`; the frames of its stack are not modelled. */
  function NewError(message: string): (e: JsError)
    ensures e.kind == PlainError && e.message == message && e.fields == map[]
  {
    JsError(PlainError, message, "Error: " + message, map[])
  }

  /** The TypeError the runtime throws for `in` on a primitive, `Object.keys(null)`, … */
  const TypeErr := JsError(TypeError, "", "TypeError", map[])

  /** `err.code` */
  function Code(e: JsError): Value
  {
    Get(e.fields, "code")
  }

  /** `String(v)`, as string concatenation converts a value. Functions render by identity only. */
  function ToJsString(v: Value): string
  {
    match v
    case Undefined => "undefined"
    case Null => "null"
    case Bool(b) => if b then "true" else "false"
    case Num(n) => if n < 0 then "-" + IndexKey(-n) else IndexKey(n)
    case Str(s) => s
    case Fn(_) => "function"
    case Arr(items) => JoinItems(items)
    case Obj(_) => "[object Object]"
    case Stream(_) => "[object Object]"
  }

  /** `items.join(",")`, where `null` and `undefined` items render as nothing. */
  function JoinItems(items: seq<Value>): string
    decreases items
  {
    if items == [] then ""
    else
      var first := if items[0].Undefined? || items[0].Null? then "" else ToJsString(items[0]);
      if |items| == 1 then first else first + "," + JoinItems(items[1..])
  }

  /** How a JavaScript call ends: it returns a value or throws. */
  datatype Completion = Normal(value: Value) | Throw(error: JsError)

  /** A promise-like result. */
  datatype Result<+T> = Ok(value: T) | Err(error: JsError)

  datatype Option<+T> = None | Some(value: T)
}
