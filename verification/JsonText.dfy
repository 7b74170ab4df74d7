/** The text `json.dumps(value, ensure_ascii=False)` prints, and that `DumpLen`, which the store's byte accounting
    adds up, is its length in UTF-8 (ccc_server/codex_conversation.py:88-94). */
module JsonText {
  import opened OrderedDict
  import opened Sequences
  import opened Json

  function Digit(n: nat): char
    requires n < 10
  {
    "0123456789"[n]
  }

  function Decimal(n: nat): string {
    (if n < 10 then "" else Decimal(n / 10)) + [Digit(n % 10)]
  }

  const HEX := "0123456789abcdef"

  /** One character inside a string literal. */
  function Escape(c: char): string {
    var n := c as int;
    if c == '"' then "\\\""
    else if c == '\\' then "\\\\"
    else if n == 8 then "\\b"
    else if n == 9 then "\\t"
    else if n == 10 then "\\n"
    else if n == 12 then "\\f"
    else if n == 13 then "\\r"
    else if n < 32 then "\\u00" + [HEX[n / 16], HEX[n % 16]]
    else [c]
  }

  function Escaped(s: string): string {
    if s == "" then "" else Escape(s[0]) + Escaped(s[1..])
  }

  function Quoted(s: string): string {
    "\"" + Escaped(s) + "\""
  }

  /** The printed value; a number that is not an integer keeps its spelling. */
  function Printed(j: Json): string
    decreases j, 1
  {
    match j
    case Null => "null"
    case Bool(b) => if b then "true" else "false"
    case Int(n) => if n < 0 then "-" + Decimal(-n) else Decimal(n)
    case Float(text, _) => text
    case Str(s) => Quoted(s)
    case Arr(items) => "[" + PrintedItems(items) + "]"
    case Obj(fields) => "{" + PrintedFields(fields) + "}"
  }

  function PrintedItems(items: seq<Json>): string
    decreases items, 0
  {
    if items == [] then ""
    else Printed(items[0]) + ((if |items| > 1 then ", " else "") + PrintedItems(items[1..]))
  }

  function PrintedFields(fields: Dict<string, Json>): string
    decreases fields, 0
  {
    if fields == [] then ""
    else
      assert fields[0].1 < fields[0];
      Quoted(fields[0].0)
      + (": " + (Printed(fields[0].1) + ((if |fields| > 1 then ", " else "") + PrintedFields(fields[1..]))))
  }

  /** Numbers are spelled in ASCII. */
  predicate Ascii(s: string) {
    forall i :: 0 <= i < |s| ==> s[i] as int < 0x80
  }

  predicate PlainNumbers(j: Json)
    decreases j, 1
  {
    match j
    case Float(text, _) => Ascii(text)
    case Arr(items) => PlainItems(items)
    case Obj(fields) => PlainFields(fields)
    case _ => true
  }

  predicate PlainItems(items: seq<Json>)
    decreases items, 0
  {
    items == [] || (PlainNumbers(items[0]) && PlainItems(items[1..]))
  }

  predicate PlainFields(fields: Dict<string, Json>)
    decreases fields, 0
  {
    fields == [] || (assert fields[0].1 < fields[0]; PlainNumbers(fields[0].1) && PlainFields(fields[1..]))
  }

  lemma {:induction false} Utf8Concat(a: string, b: string)
    ensures Utf8Len(a + b) == Utf8Len(a) + Utf8Len(b)
  {
    if a == "" {
      assert a + b == b;
    } else {
      assert (a + b)[1..] == a[1..] + b;
      Utf8Concat(a[1..], b);
    }
  }

  lemma {:induction false} AsciiLen(s: string)
    requires Ascii(s)
    ensures Utf8Len(s) == |s|
  {
    if s != "" { AsciiLen(s[1..]); }
  }

  lemma {:induction false} DecimalLen(n: nat)
    ensures Utf8Len(Decimal(n)) == Digits(n)
  {
    var last := [Digit(n % 10)];
    assert Ascii(last);
    AsciiLen(last);
    if n >= 10 {
      DecimalLen(n / 10);
      Utf8Concat(Decimal(n / 10), last);
    } else {
      assert "" + last == last;
    }
  }

  lemma {:induction false} EscapeLen(c: char)
    ensures Utf8Len(Escape(c)) == EscapedWidth(c)
  {
    var e := Escape(c);
    if e == [c] {
      assert e[1..] == "";
    } else {
      assert Ascii(e);
      AsciiLen(e);
    }
  }

  lemma {:induction false} EscapedIs(s: string)
    ensures Utf8Len(Escaped(s)) == EscapedLen(s)
  {
    if s != "" {
      EscapeLen(s[0]);
      EscapedIs(s[1..]);
      Utf8Concat(Escape(s[0]), Escaped(s[1..]));
    }
  }

  lemma {:induction false} QuotedLen(s: string)
    ensures Utf8Len(Quoted(s)) == 2 + EscapedLen(s)
  {
    EscapedIs(s);
    Utf8Concat("\"" + Escaped(s), "\"");
    Utf8Concat("\"", Escaped(s));
    AsciiLen("\"");
  }

  lemma {:induction false} Between(open: string, text: string, close: string)
    requires |open| == 1 && |close| == 1 && Ascii(open) && Ascii(close)
    ensures Utf8Len(open + text + close) == 2 + Utf8Len(text)
  {
    Utf8Concat(open + text, close);
    Utf8Concat(open, text);
    AsciiLen(open);
    AsciiLen(close);
  }

  /** The accounted length of a value is the length of its printed text in bytes. */
  lemma {:induction false} DumpLenIsLength(j: Json)
    requires PlainNumbers(j)
    ensures DumpLen(j) == Utf8Len(Printed(j))
    decreases j, 1
  {
    hide Utf8Len, Escaped, EscapedLen, Decimal, Digits;
    match j
    case Null => AsciiLen("null");
    case Bool(b) => AsciiLen(if b then "true" else "false");
    case Int(n) =>
      DecimalLen(if n < 0 then -n else n);
      AsciiLen("-");
      if n < 0 { Utf8Concat("-", Decimal(-n)); }
    case Float(text, _) => AsciiLen(text);
    case Str(s) => QuotedLen(s);
    case Arr(items) =>
      ItemsLen(items);
      Between("[", PrintedItems(items), "]");
    case Obj(fields) =>
      FieldsLen(fields);
      Between("{", PrintedFields(fields), "}");
  }

  lemma {:induction false} ItemsLen(items: seq<Json>)
    requires PlainItems(items)
    ensures DumpItemsLen(items) == Utf8Len(PrintedItems(items))
    decreases items, 0
  {
    hide Utf8Len, Printed, DumpLen;
    if items != [] {
      DumpLenIsLength(items[0]);
      ItemsLen(items[1..]);
      var comma, rest := if |items| > 1 then ", " else "", PrintedItems(items[1..]);
      AsciiLen(comma);
      Utf8Concat(Printed(items[0]), comma + rest);
      Utf8Concat(comma, rest);
    } else {
      AsciiLen("");
    }
  }

  lemma {:induction false} FieldsLen(fields: Dict<string, Json>)
    requires PlainFields(fields)
    ensures DumpFieldsLen(fields) == Utf8Len(PrintedFields(fields))
    decreases fields, 0
  {
    hide Utf8Len, Printed, DumpLen, Quoted, EscapedLen;
    if fields != [] {
      assert fields[0].1 < fields[0];
      var (key, value) := fields[0];
      DumpLenIsLength(value);
      FieldsLen(fields[1..]);
      QuotedLen(key);
      var comma, rest := if |fields| > 1 then ", " else "", PrintedFields(fields[1..]);
      AsciiLen(comma);
      AsciiLen(": ");
      Utf8Concat(Quoted(key), ": " + (Printed(value) + (comma + rest)));
      Utf8Concat(": ", Printed(value) + (comma + rest));
      Utf8Concat(Printed(value), comma + rest);
      Utf8Concat(comma, rest);
    } else {
      AsciiLen("");
    }
  }
}
