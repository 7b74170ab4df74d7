/** JSON trees as `json.loads` delivers them, and the length of their printed form. */
module Json {
  import opened OrderedDict

  /** `Float` keeps the number's own spelling; only its truth value matters here. */
  datatype Json =
    | Null
    | Bool(b: bool)
    | Int(n: int)
    | Float(text: string, zero: bool)
    | Str(s: string)
    | Arr(items: seq<Json>)
    | Obj(fields: Dict<string, Json>)

  /** Python's truth value. */
  predicate Truthy(j: Json) {
    match j
    case Null => false
    case Bool(b) => b
    case Int(n) => n != 0
    case Float(_, zero) => !zero
    case Str(s) => s != ""
    case Arr(items) => items != []
    case Obj(fields) => fields != []
  }

  /** `a or b`. */
  function Or(a: Json, b: Json): Json {
    if Truthy(a) then a else b
  }

  function Fields(j: Json): Dict<string, Json> {
    if j.Obj? then j.fields else []
  }

  function Items(j: Json): seq<Json> {
    if j.Arr? then j.items else []
  }

  /** `obj.get(key, default)`. */
  function Lookup(j: Json, key: string, default: Json := Null): Json {
    match Get(Fields(j), key) case None => default case Some(v) => v
  }

  /** A string of 1 to 256 characters: what the store accepts as an identifier. */
  predicate IsId(j: Json) {
    j.Str? && 1 <= |j.s| <= 256
  }

  /** `{k: v for k, v in fields.items() if k != name}`. */
  function Without(fields: Dict<string, Json>, name: string): Dict<string, Json> {
    if fields == [] then []
    else if fields[0].0 == name then Without(fields[1..], name)
    else [fields[0]] + Without(fields[1..], name)
  }

  /** `{**a, **b}`. */
  function Merge(a: Dict<string, Json>, b: Dict<string, Json>): Dict<string, Json>
    decreases |b|
  {
    if b == [] then a else Merge(Put(a, b[0].0, b[0].1), b[1..])
  }

  // ---- length of json.dumps(value, ensure_ascii=False).encode("utf-8") ----

  function Utf8Width(c: char): (w: nat)
    ensures 1 <= w <= 4
  {
    var n := c as int;
    if n < 0x80 then 1 else if n < 0x800 then 2 else if n < 0x10000 then 3 else 4
  }

  function Utf8Len(s: string): (n: nat)
    ensures |s| <= n
  {
    if s == "" then 0 else Utf8Width(s[0]) + Utf8Len(s[1..])
  }

  function EscapedWidth(c: char): (w: nat)
    ensures w <= 6
  {
    var n := c as int;
    if c == '"' || c == '\\' then 2
    else if n == 8 || n == 9 || n == 10 || n == 12 || n == 13 then 2
    else if n < 32 then 6
    else Utf8Width(c)
  }

  function EscapedLen(s: string): (n: nat)
    ensures n <= 6 * |s|
  {
    if s == "" then 0 else EscapedWidth(s[0]) + EscapedLen(s[1..])
  }

  function Digits(n: nat): nat {
    if n < 10 then 1 else 1 + Digits(n / 10)
  }

  function DumpLen(j: Json): nat
    decreases j
  {
    match j
    case Null => 4
    case Bool(b) => if b then 4 else 5
    case Int(n) => if n < 0 then 1 + Digits(-n) else Digits(n)
    case Float(text, _) => |text|
    case Str(s) => 2 + EscapedLen(s)
    case Arr(items) => 2 + DumpItemsLen(items)
    case Obj(fields) => 2 + DumpFieldsLen(fields)
  }

  function DumpItemsLen(items: seq<Json>): nat
    decreases items
  {
    if items == [] then 0
    else DumpLen(items[0]) + (if |items| > 1 then 2 else 0) + DumpItemsLen(items[1..])
  }

  function DumpFieldsLen(fields: Dict<string, Json>): nat
    decreases fields
  {
    if fields == [] then 0
    else
      assert fields[0].1 < fields[0];
      2 + EscapedLen(fields[0].0) + 2 + DumpLen(fields[0].1)
      + (if |fields| > 1 then 2 else 0) + DumpFieldsLen(fields[1..])
  }
}
