/** The parent/child graph of work items and the recursive query that lists it
    (control_plane.py:338-373, 608-642). */
module WorkGraph {
  import opened WorkLedger

  /** `id` is `d` edges below `root`. */
  ghost predicate Reaches(edges: seq<Edge>, root: string, id: string, d: nat)
    decreases d
  {
    if d == 0 then id == root
    else exists k :: 0 <= k < |edges| && edges[k].child == id && Reaches(edges, root, edges[k].parent, d - 1)
  }

  lemma BeforeTrans(order: seq<string>, a: string, b: string, c: string)
    requires NoRepeats(order) && Before(order, a, b) && Before(order, b, c)
    ensures Before(order, a, c)
  {
    var i, j :| 0 <= i < j < |order| && order[i] == a && order[j] == b;
    var k, l :| 0 <= k < l < |order| && order[k] == b && order[l] == c;
    assert j == k;
  }

  lemma BeforeIrreflexive(order: seq<string>, a: string)
    requires NoRepeats(order)
    ensures !Before(order, a, a)
  {
  }

  /** Everything strictly below a node was inserted after it. */
  lemma {:induction false} BelowIsLater(order: seq<string>, edges: seq<Edge>, root: string, id: string, d: nat)
    requires NoRepeats(order) && Forest(order, edges) && d > 0 && Reaches(edges, root, id, d)
    ensures Before(order, root, id)
    decreases d
  {
    var k :| 0 <= k < |edges| && edges[k].child == id && Reaches(edges, root, edges[k].parent, d - 1);
    assert Before(order, edges[k].parent, id);
    if d > 1 {
      BelowIsLater(order, edges, root, edges[k].parent, d - 1);
      BeforeTrans(order, root, edges[k].parent, id);
    }
  }

  /** In a forest a node has one depth below a root. */
  lemma {:induction false} DepthIsUnique(order: seq<string>, edges: seq<Edge>, root: string, id: string, d: nat, e: nat)
    requires NoRepeats(order) && Forest(order, edges) && Reaches(edges, root, id, d) && Reaches(edges, root, id, e)
    ensures d == e
    decreases d
  {
    if d == 0 || e == 0 {
      if d > 0 {
        BelowIsLater(order, edges, root, id, d);
        BeforeIrreflexive(order, root);
      }
      if e > 0 {
        BelowIsLater(order, edges, root, id, e);
        BeforeIrreflexive(order, root);
      }
    } else {
      var k :| 0 <= k < |edges| && edges[k].child == id && Reaches(edges, root, edges[k].parent, d - 1);
      var l :| 0 <= l < |edges| && edges[l].child == id && Reaches(edges, root, edges[l].parent, e - 1);
      assert k == l;
      DepthIsUnique(order, edges, root, edges[k].parent, d - 1, e - 1);
    }
  }

  // ---- the query ----

  datatype Row = Row(id: string, depth: nat)

  /** Where a row came from: the row and the edge that produced it. */
  datatype Origin = Origin(row: nat, edge: nat)

  /** The rows produced so far, when `i` rows were expanded and `n` edges of row `i` were looked at. */
  ghost predicate Produced(edges: seq<Edge>, rows: seq<Row>, via: seq<Origin>, i: nat, n: nat) {
    && |via| == |rows| && 0 < |rows|
    && (forall j :: 1 <= j < |rows| ==>
          && via[j].row < j && via[j].edge < |edges|
          && (via[j].row < i || (via[j].row == i && via[j].edge < n))
          && edges[via[j].edge] == edges[via[j].edge].(parent := rows[via[j].row].id, child := rows[j].id)
          && rows[j].depth == rows[via[j].row].depth + 1)
    && (forall a, b :: 0 <= a < b < |rows| ==> rows[a].id != rows[b].id)
  }

  /** Every edge of an expanded row has produced its child. */
  ghost predicate Expanded(edges: seq<Edge>, rows: seq<Row>, i: nat, n: nat) {
    forall m, k :: 0 <= m < |rows| && 0 <= k < |edges| && (m < i || (m == i && k < n)) && edges[k].parent == rows[m].id
      ==> exists j :: 0 <= j < |rows| && rows[j].id == edges[k].child
  }

  lemma {:induction false} RowReaches(edges: seq<Edge>, rows: seq<Row>, via: seq<Origin>, i: nat, n: nat, j: nat)
    requires Produced(edges, rows, via, i, n) && rows[0].depth == 0 && j < |rows|
    ensures Reaches(edges, rows[0].id, rows[j].id, rows[j].depth)
    decreases j
  {
    if j > 0 {
      RowReaches(edges, rows, via, i, n, via[j].row);
      var k := via[j].edge;
      assert edges[k].child == rows[j].id && edges[k].parent == rows[via[j].row].id;
    }
  }

  /** The child of an edge not yet looked at has not been produced: in a forest no row comes twice. */
  lemma ChildIsNew(order: seq<string>, edges: seq<Edge>, rows: seq<Row>, via: seq<Origin>, i: nat, n: nat)
    requires NoRepeats(order) && Forest(order, edges)
    requires Produced(edges, rows, via, i, n) && rows[0].depth == 0
    requires i < |rows| && n < |edges| && edges[n].parent == rows[i].id
    ensures forall j :: 0 <= j < |rows| ==> rows[j].id != edges[n].child
  {
    forall j | 0 <= j < |rows| ensures rows[j].id != edges[n].child {
      assert j > 0 ==> edges[via[j].edge].child == rows[j].id && edges[via[j].edge].parent == rows[via[j].row].id;
      if rows[j].id == edges[n].child {
        if j == 0 {
          RowReaches(edges, rows, via, i, n, i);
          assert Reaches(edges, rows[0].id, edges[n].child, rows[i].depth + 1);
          BelowIsLater(order, edges, rows[0].id, edges[n].child, rows[i].depth + 1);
          BeforeIrreflexive(order, rows[0].id);
        }
      }
    }
  }

  /** Distinct numbers below `n` are at most `n`. */
  lemma {:induction false} Pigeonhole(s: seq<nat>, n: nat)
    requires NoRepeats(s) && forall i :: 0 <= i < |s| ==> s[i] < n
    ensures |s| <= n
    decreases n
  {
    if s != [] {
      assert s[0] < n;
      if i :| 0 <= i < |s| && s[i] == n - 1 {
        Pigeonhole(s[..i] + s[i + 1..], n - 1);
      } else {
        Pigeonhole(s, n - 1);
      }
    }
  }

  function UsedEdges(via: seq<Origin>): (r: seq<nat>)
    ensures |r| == |via| && forall j :: 0 <= j < |via| ==> r[j] == via[j].edge
  {
    if via == [] then [] else [via[0].edge] + UsedEdges(via[1..])
  }

  /** Rows other than the root come from distinct edges, so there are at most as many as edges. */
  lemma RowsBounded(edges: seq<Edge>, rows: seq<Row>, via: seq<Origin>, i: nat, n: nat)
    requires Produced(edges, rows, via, i, n)
    ensures |rows| <= |edges| + 1
  {
    var used := UsedEdges(via[1..]);
    forall a, b | 0 <= a < b < |used| ensures used[a] != used[b] {
      assert edges[via[a + 1].edge].child == rows[a + 1].id && edges[via[b + 1].edge].child == rows[b + 1].id;
    }
    Pigeonhole(used, |edges|);
  }

  /** Appending the child of the edge being looked at. */
  lemma Grown(order: seq<string>, edges: seq<Edge>, rows: seq<Row>, via: seq<Origin>, i: nat, n: nat)
    requires NoRepeats(order) && Forest(order, edges)
    requires Produced(edges, rows, via, i, n) && Expanded(edges, rows, i, n) && rows[0].depth == 0
    requires i < |rows| && n < |edges| && edges[n].parent == rows[i].id
    ensures Produced(edges, rows + [Row(edges[n].child, rows[i].depth + 1)], via + [Origin(i, n)], i, n + 1)
    ensures Expanded(edges, rows + [Row(edges[n].child, rows[i].depth + 1)], i, n + 1)
  {
    ChildIsNew(order, edges, rows, via, i, n);
    var more := rows + [Row(edges[n].child, rows[i].depth + 1)];
    forall m, k | 0 <= m < |more| && 0 <= k < |edges| && (m < i || (m == i && k < n + 1))
      && edges[k].parent == more[m].id
      ensures exists j :: 0 <= j < |more| && more[j].id == edges[k].child
    {
      assert more[m] == rows[m];
      if m == i && k == n {
        assert more[|rows|].id == edges[k].child;
      } else {
        var j :| 0 <= j < |rows| && rows[j].id == edges[k].child;
        assert more[j] == rows[j];
      }
    }
  }

  lemma Skipped(edges: seq<Edge>, rows: seq<Row>, via: seq<Origin>, i: nat, n: nat)
    requires Produced(edges, rows, via, i, n) && Expanded(edges, rows, i, n)
    requires i < |rows| && n < |edges| && edges[n].parent != rows[i].id
    ensures Produced(edges, rows, via, i, n + 1) && Expanded(edges, rows, i, n + 1)
  {
  }

  lemma NextRow(edges: seq<Edge>, rows: seq<Row>, via: seq<Origin>, i: nat)
    requires Produced(edges, rows, via, i, |edges|) && Expanded(edges, rows, i, |edges|)
    ensures Produced(edges, rows, via, i + 1, 0) && Expanded(edges, rows, i + 1, 0)
  {
  }

  lemma FirstRow(edges: seq<Edge>, root: string)
    ensures Produced(edges, [Row(root, 0)], [Origin(0, 0)], 0, 0) && Expanded(edges, [Row(root, 0)], 0, 0)
  {
  }

  /** When every row is expanded the rows are exactly the nodes below the root, with their depths. */
  lemma WalkComplete(order: seq<string>, edges: seq<Edge>, rows: seq<Row>, via: seq<Origin>, root: string)
    requires NoRepeats(order) && Forest(order, edges) && 0 < |rows| && rows[0] == Row(root, 0)
    requires Produced(edges, rows, via, |rows|, 0) && Expanded(edges, rows, |rows|, 0)
    ensures forall a, b :: 0 <= a < b < |rows| ==> rows[a].id != rows[b].id
    ensures forall id, d :: Row(id, d) in rows <==> Reaches(edges, root, id, d)
  {
    forall id, d ensures Row(id, d) in rows <==> Reaches(edges, root, id, d) {
      hide Forest;
      if Row(id, d) in rows {
        var j :| 0 <= j < |rows| && rows[j] == Row(id, d);
        RowReaches(edges, rows, via, |rows|, 0, j);
      }
      if Reaches(edges, root, id, d) {
        AllReached(edges, rows, via, id, d);
        var j :| 0 <= j < |rows| && rows[j].id == id;
        RowReaches(edges, rows, via, |rows|, 0, j);
        DepthIsUnique(order, edges, root, id, d, rows[j].depth);
      }
    }
  }

  lemma {:induction false} AllReached(edges: seq<Edge>, rows: seq<Row>, via: seq<Origin>, id: string, d: nat)
    requires Produced(edges, rows, via, |rows|, 0) && Expanded(edges, rows, |rows|, 0) && rows[0].depth == 0
    requires Reaches(edges, rows[0].id, id, d)
    ensures exists j :: 0 <= j < |rows| && rows[j].id == id
    decreases d
  {
    if d > 0 {
      var k :| 0 <= k < |edges| && edges[k].child == id && Reaches(edges, rows[0].id, edges[k].parent, d - 1);
      AllReached(edges, rows, via, edges[k].parent, d - 1);
      var m :| 0 <= m < |rows| && rows[m].id == edges[k].parent;
    } else {
      assert rows[0].id == id;
    }
  }

  /** `WITH RECURSIVE graph ... UNION ALL`: rows are taken in order and each appends its children, with nothing
      removing repeated rows. On a forest it stops, and lists each node below the root once, with its depth. */
  method Walk(ghost order: seq<string>, edges: seq<Edge>, root: string) returns (rows: seq<Row>)
    requires NoRepeats(order) && Forest(order, edges)
    ensures forall a, b :: 0 <= a < b < |rows| ==> rows[a].id != rows[b].id
    ensures forall id, d :: Row(id, d) in rows <==> Reaches(edges, root, id, d)
  {
    hide Produced, Expanded, Forest, Reaches, NoRepeats;
    rows := [Row(root, 0)];
    ghost var via := [Origin(0, 0)];
    FirstRow(edges, root);
    var i := 0;
    while i < |rows|
      invariant i <= |rows|
      invariant Produced(edges, rows, via, i, 0) && Expanded(edges, rows, i, 0) && 0 < |rows| && rows[0] == Row(root, 0)
      decreases |edges| + 1 - i
    {
      RowsBounded(edges, rows, via, i, 0);
      var n := 0;
      while n < |edges|
        invariant n <= |edges| && i < |rows|
        invariant Produced(edges, rows, via, i, n) && Expanded(edges, rows, i, n) && rows[0] == Row(root, 0)
      {
        if edges[n].parent == rows[i].id {
          Grown(order, edges, rows, via, i, n);
          rows, via := rows + [Row(edges[n].child, rows[i].depth + 1)], via + [Origin(i, n)];
        } else {
          Skipped(edges, rows, via, i, n);
        }
        n := n + 1;
      }
      NextRow(edges, rows, via, i);
      i := i + 1;
    }
    WalkComplete(order, edges, rows, via, root);
  }

  /** `graph`: the walk joined with the item rows. */
  method Graph(t: Table, root: string) returns (rows: seq<Row>)
    requires LedgerOk(t)
    ensures forall a, b :: 0 <= a < b < |rows| ==> rows[a].id != rows[b].id
    ensures forall id, d :: Row(id, d) in rows <==> id in t.items && Reaches(t.edges, root, id, d)
  {
    hide LedgerOk;
    LedgerForest(t);
    var all := Walk(t.order, t.edges, root);
    rows := [];
    for i := 0 to |all|
      invariant forall a, b :: 0 <= a < b < |rows| ==> rows[a].id != rows[b].id
      invariant forall r :: r in rows <==> r in all[..i] && r.id in t.items
    {
      assert all[..i + 1] == all[..i] + [all[i]];
      if all[i].id in t.items {
        forall a | 0 <= a < |rows| ensures rows[a].id != all[i].id {
          assert rows[a] in all[..i];
        }
        rows := rows + [all[i]];
      }
    }
    assert all[..|all|] == all;
    forall id, d ensures Row(id, d) in rows <==> id in t.items && Reaches(t.edges, root, id, d) {
      assert Row(id, d) in all <==> Reaches(t.edges, root, id, d);
    }
  }

  lemma LedgerForest(t: Table)
    requires LedgerOk(t)
    ensures NoRepeats(t.order) && Forest(t.order, t.edges)
  {
  }

  /** In every consistent ledger each child has exactly one parent, and that parent was inserted strictly earlier. */
  lemma OneOlderParent(t: Table, child: string, k: nat, l: nat)
    requires LedgerOk(t) && k < |t.edges| && l < |t.edges| && t.edges[k].child == child && t.edges[l].child == child
    ensures k == l && Before(t.order, t.edges[k].parent, child) && !Before(t.order, child, t.edges[k].parent)
  {
    LedgerForest(t);
    if Before(t.order, child, t.edges[k].parent) {
      BeforeTrans(t.order, child, t.edges[k].parent, child);
      BeforeIrreflexive(t.order, child);
    }
  }
}
