/** The JavaScript values the server reads back from `JSON.parse` and the
    client receives in stream events, with the three operations the source
    applies to them: truthiness (for `||` defaults), property access (which
    throws on `null` and `undefined`, unless written `?.`), and the string
    conversion `Array.prototype.join` performs on its elements. */
module Js {
  import opened Wrappers
  import Text

  /** Numbers are kept integral; JSON text never yields `undefined`, but
      property access on an object does. */
  datatype JsValue =
    | Undefined
    | Null
    | Bool(b: bool)
    | Num(n: int)
    | Str(s: string)
    | Arr(items: seq<JsValue>)
    | Obj(fields: map<string, JsValue>)

  /** Values `||` keeps; the falsy ones are replaced by the right operand. */
  predicate Truthy(v: JsValue) {
    match v
    case Undefined => false
    case Null => false
    case Bool(b) => b
    case Num(n) => n != 0
    case Str(s) => s != []
    case _ => true
  }

  /** `v || d` */
  function Or(v: JsValue, d: JsValue): JsValue {
    if Truthy(v) then v else d
  }

  /** `v.key`: None stands for the TypeError thrown when `v` is `null` or
      `undefined`. Arrays and strings answer `length`; every other missing
      property reads as `undefined`. */
  function Prop(v: JsValue, key: string): (r: Option<JsValue>)
    ensures r.None? <==> v.Undefined? || v.Null?
  {
    match v
    case Undefined => None
    case Null => None
    case Obj(fields) => Some(if key in fields then fields[key] else Undefined)
    case Arr(items) => Some(if key == "length" then Num(|items|) else Undefined)
    case Str(s) => Some(if key == "length" then Num(Text.Utf16Length(s)) else Undefined)
    case _ => Some(Undefined)
  }

  /** `v?.key`: never throws; `undefined` when `v` is `null` or `undefined`. */
  function OptProp(v: JsValue, key: string): JsValue {
    if v.Undefined? || v.Null? then Undefined else Prop(v, key).value
  }

  function DigitChar(d: nat): char
    requires d < 10
  {
    "0123456789"[d]
  }

  /** Decimal digits of a natural number, as `String(n)` writes them. */
  function NatToString(n: nat): string
    decreases n
  {
    if n < 10 then [DigitChar(n)] else NatToString(n / 10) + [DigitChar(n % 10)]
  }

  function IntToString(n: int): string {
    if n < 0 then "-" + NatToString(-n) else NatToString(n)
  }

  /** The string `Array.prototype.join` writes for one element: nothing for
      `null` and `undefined`, nested arrays joined with commas, plain objects
      as "[object Object]". */
  function JoinString(v: JsValue): string
    decreases v, 1
  {
    match v
    case Undefined => ""
    case Null => ""
    case Bool(b) => if b then "true" else "false"
    case Num(n) => IntToString(n)
    case Str(s) => s
    case Arr(items) => Text.Join(JoinStrings(items), ",")
    case Obj(_) => "[object Object]"
  }

  function JoinStrings(vs: seq<JsValue>): (r: seq<string>)
    ensures |r| == |vs|
    decreases vs, 0
  {
    if vs == [] then [] else [JoinString(vs[0])] + JoinStrings(vs[1..])
  }

  /** `vs.join(sep)` */
  function JoinValues(vs: seq<JsValue>, sep: string): string {
    Text.Join(JoinStrings(vs), sep)
  }

  function Strs(ss: seq<string>): (r: seq<JsValue>)
    ensures |r| == |ss| && forall i :: 0 <= i < |ss| ==> r[i] == Str(ss[i])
  {
    seq(|ss|, i requires 0 <= i < |ss| => Str(ss[i]))
  }

  /** `String(v)`, as `URLSearchParams` and template literals convert
      values. */
  function ToJsString(v: JsValue): string {
    match v
    case Undefined => "undefined"
    case Null => "null"
    case Arr(items) => JoinValues(items, ",")
    case _ => JoinString(v)
  }

  /** The properties every object literal inherits from `Object.prototype`:
      indexing a literal table with one of these names finds a function (or
      the prototype itself, for `__proto__`), not `undefined`. */
  const ObjectPrototypeMembers: set<string> := {
    "constructor", "hasOwnProperty", "isPrototypeOf", "propertyIsEnumerable",
    "toLocaleString", "toString", "valueOf", "__proto__",
    "__defineGetter__", "__defineSetter__", "__lookupGetter__", "__lookupSetter__"}

  /** What `table[key]` reads on an object literal whose own properties are
      the strings of `table`. */
  datatype Member = Own(value: string) | Inherited(name: string) | Absent

  function Index(table: map<string, string>, key: string): (r: Member)
    ensures r.Own? <==> key in table
    ensures r.Inherited? <==> key !in table && key in ObjectPrototypeMembers
  {
    if key in table then Own(table[key])
    else if key in ObjectPrototypeMembers then Inherited(key)
    else Absent
  }
}
