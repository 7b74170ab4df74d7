/** `CodexConversationStore._bounded` (ccc_server/codex_conversation.py:60-86): a
    depth-first copy of a JSON tree under one budget of characters and nodes that is
    threaded through the whole recursion. */
module Clipping {
  import opened OrderedDict
  import opened Json

  const CHAR_BUDGET := 256 * 1024
  const NODE_BUDGET := 4096
  const MAX_DEPTH := 16
  const MAX_WIDTH := 512
  const MAX_KEY := 256

  datatype Budget = Budget(chars: int, nodes: int, clipped: bool)

  function Min(a: int, b: int): int {
    if a <= b then a else b
  }

  function Shorten(s: string, n: nat): string {
    if |s| <= n then s else s[..n]
  }

  function Walk(limit: nat, j: Json, depth: nat, b0: Budget): (Json, Budget)
    decreases j, 1
  {
    var b := b0.(nodes := b0.nodes - 1);
    if depth > MAX_DEPTH || b.chars <= 0 || b.nodes <= 0 then (Null, b.(clipped := true))
    else match j
      case Str(s) =>
        var r := Shorten(s, Min(limit, b.chars));
        (Str(r), b.(chars := b.chars - Utf8Len(r), clipped := b.clipped || |r| < |s|))
      case Obj(fields) =>
        var (r, e) := WalkFields(limit, Prefix(fields), depth, b.(clipped := b.clipped || |fields| > MAX_WIDTH), []);
        (Obj(r), e)
      case Arr(items) =>
        var (r, e) := WalkItems(limit, Prefix(items), depth, b.(clipped := b.clipped || |items| > MAX_WIDTH));
        (Arr(r), e)
      case _ => (j, b)
  }

  function Prefix<T>(s: seq<T>): (r: seq<T>)
    ensures |r| <= MAX_WIDTH && r <= s
  {
    if |s| <= MAX_WIDTH then s else s[..MAX_WIDTH]
  }

  function WalkFields(limit: nat, fields: Dict<string, Json>, depth: nat, b: Budget,
                      acc: Dict<string, Json>): (Dict<string, Json>, Budget)
    decreases fields, 0
  {
    if fields == [] then (acc, b)
    else
      assert fields[0].1 < fields[0];
      var (v, e) := Walk(limit, fields[0].1, depth + 1, b);
      WalkFields(limit, fields[1..], depth, e, Put(acc, Shorten(fields[0].0, MAX_KEY), v))
  }

  function WalkItems(limit: nat, items: seq<Json>, depth: nat, b: Budget): (seq<Json>, Budget)
    decreases items, 0
  {
    if items == [] then ([], b)
    else
      var (v, e) := Walk(limit, items[0], depth + 1, b);
      var (rest, f) := WalkItems(limit, items[1..], depth, e);
      ([v] + rest, f)
  }

  /** The whole operation: the copy, and whether it was clipped. */
  function Bounded(limit: nat, j: Json): (Json, bool) {
    var (r, b) := Walk(limit, j, 0, Budget(CHAR_BUDGET, NODE_BUDGET, false));
    (r, b.clipped)
  }

  // ---- what is measured ----

  /** Nodes other than null. */
  function NonNull(j: Json): nat
    decreases j, 1
  {
    match j
    case Null => 0
    case Obj(fields) => 1 + NonNullFields(fields)
    case Arr(items) => 1 + NonNullItems(items)
    case _ => 1
  }

  function NonNullFields(fields: Dict<string, Json>): nat
    decreases fields, 0
  {
    if fields == [] then 0
    else
      assert fields[0].1 < fields[0];
      NonNull(fields[0].1) + NonNullFields(fields[1..])
  }

  function NonNullItems(items: seq<Json>): nat
    decreases items, 0
  {
    if items == [] then 0 else NonNull(items[0]) + NonNullItems(items[1..])
  }

  /** Characters held in string values (keys not counted). */
  function Chars(j: Json): nat
    decreases j, 1
  {
    match j
    case Str(s) => |s|
    case Obj(fields) => CharsFields(fields)
    case Arr(items) => CharsItems(items)
    case _ => 0
  }

  function CharsFields(fields: Dict<string, Json>): nat
    decreases fields, 0
  {
    if fields == [] then 0
    else
      assert fields[0].1 < fields[0];
      Chars(fields[0].1) + CharsFields(fields[1..])
  }

  function CharsItems(items: seq<Json>): nat
    decreases items, 0
  {
    if items == [] then 0 else Chars(items[0]) + CharsItems(items[1..])
  }

  /** Every key in the tree has at most 256 characters. */
  predicate KeysShort(j: Json)
    decreases j, 1
  {
    match j
    case Obj(fields) => KeysShortFields(fields)
    case Arr(items) => KeysShortItems(items)
    case _ => true
  }

  predicate KeysShortFields(fields: Dict<string, Json>)
    decreases fields, 0
  {
    fields == [] ||
    (assert fields[0].1 < fields[0];
     |fields[0].0| <= MAX_KEY && KeysShort(fields[0].1) && KeysShortFields(fields[1..]))
  }

  predicate KeysShortItems(items: seq<Json>)
    decreases items, 0
  {
    items == [] || (KeysShort(items[0]) && KeysShortItems(items[1..]))
  }

  /** No object in the tree repeats a key: what a Python dictionary guarantees. */
  predicate WellFormed(j: Json)
    decreases j, 1
  {
    match j
    case Obj(fields) => WellFormedFields(fields)
    case Arr(items) => WellFormedItems(items)
    case _ => true
  }

  predicate WellFormedFields(fields: Dict<string, Json>)
    decreases fields, 0
  {
    fields == [] ||
    (assert fields[0].1 < fields[0];
     !Has(fields[1..], fields[0].0) && WellFormed(fields[0].1) && WellFormedFields(fields[1..]))
  }

  predicate WellFormedItems(items: seq<Json>)
    decreases items, 0
  {
    items == [] || (WellFormed(items[0]) && WellFormedItems(items[1..]))
  }

  // ---- the budget is never overspent ----

  function Cap(n: int): nat {
    if n > 0 then n else 0
  }

  /** What a piece of the walk produced is covered by the budget it used up. */
  ghost predicate Paid(nodes: nat, chars: nat, b: Budget, e: Budget) {
    && nodes <= Cap(b.nodes - 1) - Cap(e.nodes - 1)
    && chars <= Cap(b.chars) - Cap(e.chars)
    && (b.clipped ==> e.clipped)
  }

  lemma {:induction false} PutCosts(acc: Dict<string, Json>, k: string, v: Json)
    ensures NonNullFields(Put(acc, k, v)) <= NonNullFields(acc) + NonNull(v)
    ensures CharsFields(Put(acc, k, v)) <= CharsFields(acc) + Chars(v)
    ensures KeysShortFields(acc) && |k| <= MAX_KEY && KeysShort(v) ==> KeysShortFields(Put(acc, k, v))
  {
    var p := Put(acc, k, v);
    if acc != [] && acc[0].0 != k {
      PutCosts(acc[1..], k, v);
      assert p[1..] == Put(acc[1..], k, v);
    } else if acc != [] {
      assert p[1..] == acc[1..];
    }
  }

  lemma {:induction false} WalkPaid(limit: nat, j: Json, depth: nat, b: Budget)
    ensures var (r, e) := Walk(limit, j, depth, b); Paid(NonNull(r), Chars(r), b, e) && KeysShort(r)
    decreases j, 1
  {
    var b1 := b.(nodes := b.nodes - 1);
    if depth > MAX_DEPTH || b1.chars <= 0 || b1.nodes <= 0 {
    } else {
      match j
      case Obj(fields) =>
        WalkFieldsPaid(limit, Prefix(fields), depth, b1.(clipped := b1.clipped || |fields| > MAX_WIDTH), []);
      case Arr(items) =>
        WalkItemsPaid(limit, Prefix(items), depth, b1.(clipped := b1.clipped || |items| > MAX_WIDTH));
      case _ =>
    }
  }

  lemma {:induction false} WalkFieldsPaid(limit: nat, fields: Dict<string, Json>, depth: nat, b: Budget,
                                          acc: Dict<string, Json>)
    ensures var (r, e) := WalkFields(limit, fields, depth, b, acc);
      && NonNullFields(acc) <= NonNullFields(acc) + Cap(b.nodes - 1) - Cap(e.nodes - 1)
      && NonNullFields(r) <= NonNullFields(acc) + Cap(b.nodes - 1) - Cap(e.nodes - 1)
      && CharsFields(acc) <= CharsFields(acc) + Cap(b.chars) - Cap(e.chars)
      && CharsFields(r) <= CharsFields(acc) + Cap(b.chars) - Cap(e.chars)
      && (b.clipped ==> e.clipped)
      && (KeysShortFields(acc) ==> KeysShortFields(r))
    decreases fields, 0
  {
    if fields != [] {
      assert fields[0].1 < fields[0];
      WalkPaid(limit, fields[0].1, depth + 1, b);
      var (v, e) := Walk(limit, fields[0].1, depth + 1, b);
      var key := Shorten(fields[0].0, MAX_KEY);
      PutCosts(acc, key, v);
      WalkFieldsPaid(limit, fields[1..], depth, e, Put(acc, key, v));
    }
  }

  lemma {:induction false} WalkItemsPaid(limit: nat, items: seq<Json>, depth: nat, b: Budget)
    ensures var (r, e) := WalkItems(limit, items, depth, b);
      Paid(NonNullItems(r), CharsItems(r), b, e) && KeysShortItems(r)
    decreases items, 0
  {
    if items != [] {
      WalkPaid(limit, items[0], depth + 1, b);
      var (v, e) := Walk(limit, items[0], depth + 1, b);
      WalkItemsPaid(limit, items[1..], depth, e);
      var (rest, _) := WalkItems(limit, items[1..], depth, e);
      assert ([v] + rest)[1..] == rest;
    }
  }

  // ---- an unclipped copy is faithful exactly when the keys are short ----

  lemma {:induction false} WalkFaithful(limit: nat, j: Json, depth: nat, b: Budget)
    requires WellFormed(j) && KeysShort(j) && !Walk(limit, j, depth, b).1.clipped
    ensures Walk(limit, j, depth, b).0 == j
    decreases j, 1
  {
    var b1 := b.(nodes := b.nodes - 1);
    match j
    case Obj(fields) =>
      var c := b1.(clipped := b1.clipped || |fields| > MAX_WIDTH);
      WalkFieldsPaid(limit, Prefix(fields), depth, c, []);
      WalkFieldsFaithful(limit, fields, depth, c, []);
      assert [] + fields == fields;
    case Arr(items) =>
      var c := b1.(clipped := b1.clipped || |items| > MAX_WIDTH);
      WalkItemsPaid(limit, Prefix(items), depth, c);
      WalkItemsFaithful(limit, items, depth, c);
    case _ =>
  }

  lemma {:induction false} WalkFieldsFaithful(limit: nat, fields: Dict<string, Json>, depth: nat, b: Budget,
                                              acc: Dict<string, Json>)
    requires WellFormedFields(fields) && KeysShortFields(fields)
    requires forall k :: Has(acc, k) ==> !Has(fields, k)
    requires !WalkFields(limit, fields, depth, b, acc).1.clipped
    ensures WalkFields(limit, fields, depth, b, acc).0 == acc + fields
    decreases fields, 0
  {
    if fields == [] {
      assert acc + [] == acc;
    } else {
      assert fields[0].1 < fields[0];
      var k := fields[0].0;
      var (v, e) := Walk(limit, fields[0].1, depth + 1, b);
      WalkFieldsPaid(limit, fields[1..], depth, e, Put(acc, k, v));
      WalkFaithful(limit, fields[0].1, depth + 1, b);
      assert Has(fields, k);
      PutFresh(acc, k, v);
      forall q | Has(Put(acc, k, v), q) ensures !Has(fields[1..], q) {
        GetPut(acc, k, v, q);
        assert q != k ==> Has(acc, q) && !Has(fields, q);
      }
      WalkFieldsFaithful(limit, fields[1..], depth, e, Put(acc, k, v));
      assert acc + [(k, v)] + fields[1..] == acc + fields;
    }
  }

  lemma {:induction false} WalkItemsFaithful(limit: nat, items: seq<Json>, depth: nat, b: Budget)
    requires WellFormedItems(items) && KeysShortItems(items)
    requires !WalkItems(limit, items, depth, b).1.clipped
    ensures WalkItems(limit, items, depth, b).0 == items
    decreases items, 0
  {
    if items != [] {
      var (v, e) := Walk(limit, items[0], depth + 1, b);
      WalkItemsPaid(limit, items[1..], depth, e);
      WalkFaithful(limit, items[0], depth + 1, b);
      WalkItemsFaithful(limit, items[1..], depth, e);
      assert [items[0]] + items[1..] == items;
    }
  }

  /** Bounded output always; and a copy reported as not clipped equals the input exactly
      when every key of the input has at most 256 characters. */
  lemma HonestClipping(limit: nat, j: Json)
    requires WellFormed(j)
    ensures var (r, clipped) := Bounded(limit, j);
      && NonNull(r) < NODE_BUDGET
      && Chars(r) <= CHAR_BUDGET
      && KeysShort(r)
      && (!clipped ==> (r == j <==> KeysShort(j)))
  {
    var b := Budget(CHAR_BUDGET, NODE_BUDGET, false);
    WalkPaid(limit, j, 0, b);
    if !Bounded(limit, j).1 && KeysShort(j) {
      WalkFaithful(limit, j, 0, b);
    }
  }

  /** Cutting a key is not reported: two keys that share their first 256 characters
      collapse into one, and the copy still says it was not clipped. */
  lemma LongKeysCollapseSilently(k: string)
    requires |k| == MAX_KEY
    ensures var j := Obj([(k + "a", Int(1)), (k + "b", Int(2))]);
      WellFormed(j) && Bounded(1, j) == (Obj([(k, Int(2))]), false)
  {
    var f := [(k + "a", Int(1)), (k + "b", Int(2))];
    var g := f[1..];
    assert g == [(k + "b", Int(2))] && g[1..] == [] && Prefix(f) == f;
    assert (k + "a")[|k|] != (k + "b")[|k|];
    assert !Has(g[1..], k + "a") && !Has(g, k + "a");
    assert Shorten(k + "a", MAX_KEY) == k && Shorten(k + "b", MAX_KEY) == k;
    var b := Budget(CHAR_BUDGET, NODE_BUDGET - 1, false);
    var e := Walk(1, Int(1), 1, b).1;
    assert WalkFields(1, f, 0, b, []) == WalkFields(1, g, 0, e, [(k, Int(1))]);
    assert Put([(k, Int(1))], k, Int(2)) == [(k, Int(2))];
    assert WalkFields(1, g, 0, e, [(k, Int(1))]) == WalkFields(1, g[1..], 0, Walk(1, Int(2), 1, e).1, [(k, Int(2))]);
    assert WellFormedFields(g) && WellFormedFields(f);
  }

  lemma FieldsStep(limit: nat, todo: Dict<string, Json>, i: nat, depth: nat, b: Budget, acc: Dict<string, Json>)
    requires i < |todo|
    ensures var (v, e) := Walk(limit, todo[i].1, depth + 1, b);
      WalkFields(limit, todo[i..], depth, b, acc)
      == WalkFields(limit, todo[i + 1..], depth, e, Put(acc, Shorten(todo[i].0, MAX_KEY), v))
  {
    hide Walk, Shorten, Put;
    assert todo[i..][1..] == todo[i + 1..];
  }

  lemma ItemsStep(limit: nat, todo: seq<Json>, i: nat, depth: nat, b: Budget)
    requires i < |todo|
    ensures var (v, e) := Walk(limit, todo[i], depth + 1, b);
      var (rest, f) := WalkItems(limit, todo[i + 1..], depth, e);
      WalkItems(limit, todo[i..], depth, b) == ([v] + rest, f)
  {
    hide Walk;
    assert todo[i..][1..] == todo[i + 1..];
  }

  /** The closure state of `_bounded`: two counters and a flag that the nested function updates. */
  class Clipper {
    const limit: nat
    var chars: int
    var nodes: int
    var clipped: bool

    constructor (limit: nat)
      ensures this.limit == limit && Now() == Budget(CHAR_BUDGET, NODE_BUDGET, false)
    {
      this.limit := limit;
      chars, nodes, clipped := CHAR_BUDGET, NODE_BUDGET, false;
    }

    function Now(): Budget
      reads this
    {
      Budget(chars, nodes, clipped)
    }

    method Visit(j: Json, depth: nat) returns (r: Json)
      modifies this
      ensures (r, Now()) == Walk(limit, j, depth, old(Now()))
      decreases j, 1
    {
      nodes := nodes - 1;
      if depth > MAX_DEPTH || chars <= 0 || nodes <= 0 {
        clipped := true;
        return Null;
      }
      match j {
        case Str(s) =>
          var kept := Shorten(s, Min(limit, chars));
          chars := chars - Utf8Len(kept);
          clipped := clipped || |kept| < |s|;
          return Str(kept);
        case Obj(fields) =>
          clipped := clipped || |fields| > MAX_WIDTH;
          var copy := VisitFields(Prefix(fields), depth);
          return Obj(copy);
        case Arr(items) =>
          clipped := clipped || |items| > MAX_WIDTH;
          var copy := VisitItems(Prefix(items), depth);
          return Arr(copy);
        case _ =>
          return j;
      }
    }

    /** The dictionary comprehension. */
    method VisitFields(todo: Dict<string, Json>, depth: nat) returns (copy: Dict<string, Json>)
      modifies this
      ensures (copy, Now()) == WalkFields(limit, todo, depth, old(Now()), [])
      decreases todo, 0
    {
      copy := [];
      for i := 0 to |todo|
        invariant WalkFields(limit, todo[i..], depth, Now(), copy) == WalkFields(limit, todo, depth, old(Now()), [])
      {
        FieldsStep(limit, todo, i, depth, Now(), copy);
        assert todo[i].1 < todo[i];
        hide WalkFields, Walk, Shorten, Put;
        var v := Visit(todo[i].1, depth + 1);
        copy := Put(copy, Shorten(todo[i].0, MAX_KEY), v);
      }
    }

    /** The list comprehension. */
    method VisitItems(todo: seq<Json>, depth: nat) returns (copy: seq<Json>)
      modifies this
      ensures (copy, Now()) == WalkItems(limit, todo, depth, old(Now()))
      decreases todo, 0
    {
      copy := [];
      ghost var all := WalkItems(limit, todo, depth, Now());
      assert [] + all.0 == all.0;
      for i := 0 to |todo|
        invariant var (rest, e) := WalkItems(limit, todo[i..], depth, Now()); all == (copy + rest, e)
      {
        ItemsStep(limit, todo, i, depth, Now());
        hide WalkItems, Walk;
        var v := Visit(todo[i], depth + 1);
        ghost var rest := WalkItems(limit, todo[i + 1..], depth, Now()).0;
        assert copy + ([v] + rest) == (copy + [v]) + rest;
        copy := copy + [v];
      }
      assert copy + [] == copy;
    }
  }
}
