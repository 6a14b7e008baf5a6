/**
 * The JavaScript values a test definition and a response payload are made of,
 * JavaScript truthiness, `typeof v == "object"`, and `JSON.stringify`.
 *
 * `Undefined` stands for an absent property. Numbers are integers.
 */
module Json {

  datatype Value =
    | Undefined
    | Null
    | Bool(b: bool)
    | Num(n: int)
    | Str(s: string)
    | Arr(elems: seq<Value>)
    | Obj(members: seq<(string, Value)>)

  /** The five falsy values a JSON-shaped value can be. */
  const FalsyValues: set<Value> := {Undefined, Null, Bool(false), Num(0), Str("")}

  /** JavaScript truthiness, decided by the kind of value. */
  predicate Truthy(v: Value)
    ensures Truthy(v) <==> v !in FalsyValues
  {
    match v
    case Undefined => false
    case Null => false
    case Bool(b) => b
    case Num(n) => n != 0
    case Str(s) => s != ""
    case Arr(_) => true
    case Obj(_) => true
  }

  /** The `typeof` operator. */
  function TypeOf(v: Value): string {
    match v
    case Undefined => "undefined"
    case Null => "object"
    case Bool(_) => "boolean"
    case Num(_) => "number"
    case Str(_) => "string"
    case Arr(_) => "object"
    case Obj(_) => "object"
  }

  /** `typeof v == "object"`, which holds of `null` as well as of arrays and objects. */
  predicate IsObjectTyped(v: Value)
    ensures IsObjectTyped(v) <==> TypeOf(v) == "object"
  {
    v.Null? || v.Arr? || v.Obj?
  }

  function DigitChar(d: nat): char
    requires d < 10
  {
    "0123456789"[d]
  }

  function HexChar(d: nat): char
    requires d < 16
  {
    "0123456789abcdef"[d]
  }

  function NatToString(n: nat): (r: string)
    ensures |r| > 0
    ensures forall i :: 0 <= i < |r| ==> '0' <= r[i] <= '9'
    decreases n
  {
    if n < 10 then [DigitChar(n)] else NatToString(n / 10) + [DigitChar(n % 10)]
  }

  function IntToString(n: int): string {
    if n < 0 then "-" + NatToString(-n) else NatToString(n)
  }

  /** How `JSON.stringify` writes one character inside a string literal. */
  function EscapeChar(c: char): string {
    if c == '"' then "\\\""
    else if c == '\\' then "\\\\"
    else if c as int == 8 then "\\b"
    else if c == '\t' then "\\t"
    else if c == '\n' then "\\n"
    else if c as int == 12 then "\\f"
    else if c == '\r' then "\\r"
    else if c as int < 32 then "\\u00" + [HexChar(c as int / 16), HexChar(c as int % 16)]
    else [c]
  }

  function Escape(s: string): string {
    if s == [] then "" else EscapeChar(s[0]) + Escape(s[1..])
  }

  function Quote(s: string): string {
    "\"" + Escape(s) + "\""
  }

  function Join(parts: seq<string>): string {
    if parts == [] then ""
    else if |parts| == 1 then parts[0]
    else parts[0] + "," + Join(parts[1..])
  }

  /**
   * `JSON.stringify(v)`: no white space, members in their stored order, an
   * absent member left out of an object and written `null` inside an array.
   * Its first character tells which kind of value was written.
   */
  function Serialize(v: Value): (r: string)
    ensures |r| > 0
    ensures v.Null? ==> r == "null"
    ensures v.Num? ==> r[0] == '-' || '0' <= r[0] <= '9'
    ensures v.Str? ==> |r| >= 2 && r[0] == '"' && r[|r| - 1] == '"'
    ensures v.Arr? ==> |r| >= 2 && r[0] == '[' && r[|r| - 1] == ']'
    ensures v.Obj? ==> |r| >= 2 && r[0] == '{' && r[|r| - 1] == '}'
    decreases v
  {
    match v
    case Undefined => "null"
    case Null => "null"
    case Bool(b) => if b then "true" else "false"
    case Num(n) => IntToString(n)
    case Str(s) => Quote(s)
    case Arr(elems) => "[" + Join(SerializeElems(elems)) + "]"
    case Obj(members) => "{" + Join(SerializeMembers(members)) + "}"
  }

  function SerializeElems(vs: seq<Value>): seq<string>
    decreases vs
  {
    if vs == [] then [] else [Serialize(vs[0])] + SerializeElems(vs[1..])
  }

  function SerializeMembers(ms: seq<(string, Value)>): seq<string>
    decreases ms
  {
    if ms == [] then []
    else if ms[0].1.Undefined? then SerializeMembers(ms[1..])
    else
      var m := ms[0];
      assert m in ms;
      assert m.1 < m;
      [Quote(m.0) + ":" + Serialize(m.1)] + SerializeMembers(ms[1..])
  }

  /** The text `String(v)` gives an array: its elements' texts joined by commas. */
  function ArrayText(elems: seq<Value>): string
    decreases elems
  {
    if elems == [] then ""
    else if |elems| == 1 then ElementText(elems[0])
    else ElementText(elems[0]) + "," + ArrayText(elems[1..])
  }

  /** An array element as `join` writes it: `null` and `undefined` as nothing. */
  function ElementText(v: Value): string
    decreases v
  {
    match v
    case Undefined => ""
    case Null => ""
    case Bool(b) => if b then "true" else "false"
    case Num(n) => IntToString(n)
    case Str(s) => s
    case Arr(elems) => ArrayText(elems)
    case Obj(_) => "[object Object]"
  }
}
