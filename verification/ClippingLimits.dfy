/** When a bounded copy cuts nothing: the exact limits, over the nodes of the value in the order they are visited
    (ccc_server/codex_conversation.py:60-86). */
module ClippingLimits {
  import opened OrderedDict
  import opened Json
  import opened Clipping

  datatype Visit = Visit(node: Json, depth: nat)

  /** The nodes of a value, each before its children. */
  function Preorder(j: Json, depth: nat): seq<Visit>
    decreases j, 1
  {
    [Visit(j, depth)] +
    match j
    case Obj(fields) => PreorderFields(fields, depth + 1)
    case Arr(items) => PreorderItems(items, depth + 1)
    case _ => []
  }

  function PreorderFields(fields: Dict<string, Json>, depth: nat): seq<Visit>
    decreases fields, 0
  {
    if fields == [] then []
    else
      assert fields[0].1 < fields[0];
      Preorder(fields[0].1, depth) + PreorderFields(fields[1..], depth)
  }

  function PreorderItems(items: seq<Json>, depth: nat): seq<Visit>
    decreases items, 0
  {
    if items == [] then [] else Preorder(items[0], depth) + PreorderItems(items[1..], depth)
  }

  /** The UTF-8 bytes of the strings among visited nodes. */
  function TextBytes(visits: seq<Visit>): nat {
    if visits == [] then 0
    else
      TextBytes(visits[..|visits| - 1])
      + if visits[|visits| - 1].node.Str? then Utf8Len(visits[|visits| - 1].node.s) else 0
  }

  /** A node within the limits, given the bytes of text and the number of nodes before it. */
  predicate Within(limit: nat, v: Visit, textBefore: int, nodesBefore: int) {
    && v.depth <= 16 && nodesBefore < 4095 && textBefore < 262144
    && match v.node
       case Str(s) => |s| <= limit && |s| <= 262144 - textBefore
       case Obj(fields) => |fields| <= 512
       case Arr(items) => |items| <= 512
       case _ => true
  }

  ghost predicate AllWithin(limit: nat, visits: seq<Visit>, text: int, nodes: int) {
    forall i :: 0 <= i < |visits| ==> Within(limit, visits[i], text + TextBytes(visits[..i]), nodes + i)
  }

  lemma {:induction false} TextConcat(a: seq<Visit>, b: seq<Visit>)
    ensures TextBytes(a + b) == TextBytes(a) + TextBytes(b)
    decreases |b|
  {
    if b == [] {
      assert a + b == a;
    } else {
      assert (a + b)[..|a + b| - 1] == a + b[..|b| - 1];
      TextConcat(a, b[..|b| - 1]);
    }
  }

  lemma {:induction false} WithinConcat(limit: nat, a: seq<Visit>, b: seq<Visit>, text: int, nodes: int)
    ensures AllWithin(limit, a + b, text, nodes)
      <==> AllWithin(limit, a, text, nodes) && AllWithin(limit, b, text + TextBytes(a), nodes + |a|)
  {
    hide Within, TextBytes;
    forall i | 0 <= i < |a| ensures (a + b)[..i] == a[..i] && (a + b)[i] == a[i] {
    }
    forall i | 0 <= i < |b|
      ensures (a + b)[|a| + i] == b[i] && TextBytes((a + b)[..|a| + i]) == TextBytes(a) + TextBytes(b[..i]) {
      assert (a + b)[..|a| + i] == a + b[..i];
      TextConcat(a, b[..i]);
    }
    if AllWithin(limit, a + b, text, nodes) {
      forall i | 0 <= i < |a| ensures Within(limit, a[i], text + TextBytes(a[..i]), nodes + i) {
        assert Within(limit, (a + b)[i], text + TextBytes((a + b)[..i]), nodes + i);
      }
      forall i | 0 <= i < |b| ensures Within(limit, b[i], text + TextBytes(a) + TextBytes(b[..i]), nodes + |a| + i) {
        assert Within(limit, (a + b)[|a| + i], text + TextBytes((a + b)[..|a| + i]), nodes + (|a| + i));
      }
    }
    if AllWithin(limit, a, text, nodes) && AllWithin(limit, b, text + TextBytes(a), nodes + |a|) {
      forall i | 0 <= i < |a + b| ensures Within(limit, (a + b)[i], text + TextBytes((a + b)[..i]), nodes + i) {
        if i < |a| {
          assert Within(limit, a[i], text + TextBytes(a[..i]), nodes + i);
        } else {
          var k := i - |a|;
          assert Within(limit, b[k], text + TextBytes(a) + TextBytes(b[..k]), nodes + |a| + k);
        }
      }
    }
  }

  /** What a part of the walk did: cut something, or passed every node and paid for all of them. */
  ghost predicate Passed(limit: nat, visits: seq<Visit>, b: Budget, e: Budget) {
    && (!e.clipped <==> !b.clipped && AllWithin(limit, visits, 262144 - b.chars, 4096 - b.nodes))
    && (!e.clipped ==> e.chars == b.chars - TextBytes(visits) && e.nodes == b.nodes - |visits|)
  }

  lemma {:induction false} PassedConcat(limit: nat, u: seq<Visit>, v: seq<Visit>, b: Budget, e: Budget, f: Budget)
    requires Passed(limit, u, b, e) && Passed(limit, v, e, f)
    ensures Passed(limit, u + v, b, f)
  {
    hide AllWithin, TextBytes;
    WithinConcat(limit, u, v, 262144 - b.chars, 4096 - b.nodes);
    TextConcat(u, v);
  }

  lemma {:induction false} OneVisit(limit: nat, v: Visit, text: int, nodes: int)
    ensures AllWithin(limit, [v], text, nodes) <==> Within(limit, v, text, nodes)
    ensures TextBytes([v]) == if v.node.Str? then Utf8Len(v.node.s) else 0
  {
    assert [v][..0] == [];
  }

  lemma {:induction false} WalkPasses(limit: nat, j: Json, depth: nat, b: Budget)
    ensures Passed(limit, Preorder(j, depth), b, Walk(limit, j, depth, b).1)
    decreases j, 1
  {
    hide AllWithin, TextBytes, PreorderFields, PreorderItems, WalkFields, WalkItems, Utf8Len;
    var v := Visit(j, depth);
    var c := b.(nodes := b.nodes - 1);
    OneVisit(limit, v, 262144 - b.chars, 4096 - b.nodes);
    if depth > MAX_DEPTH || c.chars <= 0 || c.nodes <= 0 {
      WithinConcat(limit, [v], Preorder(j, depth)[1..], 262144 - b.chars, 4096 - b.nodes);
      assert [v] + Preorder(j, depth)[1..] == Preorder(j, depth);
    } else {
      match j
      case Obj(fields) =>
        var d := c.(clipped := c.clipped || |fields| > MAX_WIDTH);
        if |fields| <= MAX_WIDTH {
          FieldsPass(limit, fields, depth, d, []);
          PassedConcat(limit, [v], PreorderFields(fields, depth + 1), b, d, Walk(limit, j, depth, b).1);
        } else {
          WalkFieldsPaid(limit, Prefix(fields), depth, d, []);
          WithinConcat(limit, [v], PreorderFields(fields, depth + 1), 262144 - b.chars, 4096 - b.nodes);
        }
      case Arr(items) =>
        var d := c.(clipped := c.clipped || |items| > MAX_WIDTH);
        if |items| <= MAX_WIDTH {
          ItemsPass(limit, items, depth, d);
          PassedConcat(limit, [v], PreorderItems(items, depth + 1), b, d, Walk(limit, j, depth, b).1);
        } else {
          WalkItemsPaid(limit, Prefix(items), depth, d);
          WithinConcat(limit, [v], PreorderItems(items, depth + 1), 262144 - b.chars, 4096 - b.nodes);
        }
      case _ =>
        assert Preorder(j, depth) == [v];
    }
  }

  lemma {:induction false} FieldsPass(limit: nat, fields: Dict<string, Json>, depth: nat, b: Budget,
                                      acc: Dict<string, Json>)
    ensures Passed(limit, PreorderFields(fields, depth + 1), b, WalkFields(limit, fields, depth, b, acc).1)
    decreases fields, 0
  {
    if fields != [] {
      assert fields[0].1 < fields[0];
      WalkPasses(limit, fields[0].1, depth + 1, b);
      var (v, e) := Walk(limit, fields[0].1, depth + 1, b);
      var next := Put(acc, Shorten(fields[0].0, MAX_KEY), v);
      FieldsPass(limit, fields[1..], depth, e, next);
      hide Passed;
      PassedConcat(limit, Preorder(fields[0].1, depth + 1), PreorderFields(fields[1..], depth + 1), b, e,
                   WalkFields(limit, fields[1..], depth, e, next).1);
    } else {
      assert TextBytes([]) == 0;
    }
  }

  lemma {:induction false} ItemsPass(limit: nat, items: seq<Json>, depth: nat, b: Budget)
    ensures Passed(limit, PreorderItems(items, depth + 1), b, WalkItems(limit, items, depth, b).1)
    decreases items, 0
  {
    if items != [] {
      WalkPasses(limit, items[0], depth + 1, b);
      var (v, e) := Walk(limit, items[0], depth + 1, b);
      ItemsPass(limit, items[1..], depth, e);
      hide Passed;
      PassedConcat(limit, Preorder(items[0], depth + 1), PreorderItems(items[1..], depth + 1), b, e,
                   WalkItems(limit, items[1..], depth, e).1);
    } else {
      assert TextBytes([]) == 0;
    }
  }

  /** A copy is reported as not cut exactly when every node is within the limits: at most 16 levels down, among the
      first 4095 nodes, with less than 256 KiB of text before it, no wider than 512 entries, and, if it is a string, no
      longer than the text limit or than what is left of the 256 KiB. */
  lemma {:induction false} UncutIff(limit: nat, j: Json)
    ensures !Bounded(limit, j).1 <==> AllWithin(limit, Preorder(j, 0), 0, 0)
  {
    hide Walk, AllWithin, Preorder;
    WalkPasses(limit, j, 0, Budget(CHAR_BUDGET, NODE_BUDGET, false));
  }

  /** In particular whenever all of these hold of the whole value. */
  lemma {:induction false} SmallIsUncut(limit: nat, j: Json)
    requires var all := Preorder(j, 0);
      && |all| < 4096 && TextBytes(all) < 262144
      && forall i :: 0 <= i < |all| ==> Within(limit, all[i], 0, 0)
    ensures !Bounded(limit, j).1
  {
    var all := Preorder(j, 0);
    hide Bounded, Preorder, TextBytes;
    UncutIff(limit, j);
    forall i | 0 <= i < |all| ensures Within(limit, all[i], TextBytes(all[..i]), i) {
      assert Within(limit, all[i], 0, 0);
      TextUpTo(all, i);
    }
  }

  lemma {:induction false} TextUpTo(all: seq<Visit>, i: nat)
    requires i < |all|
    ensures TextBytes(all[..i]) + (if all[i].node.Str? then |all[i].node.s| else 0) <= TextBytes(all)
  {
    assert all[..i] + ([all[i]] + all[i + 1..]) == all;
    TextConcat(all[..i], [all[i]] + all[i + 1..]);
    TextConcat([all[i]], all[i + 1..]);
    OneVisit(0, all[i], 0, 0);
    hide TextBytes;
  }
}
