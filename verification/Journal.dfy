/** The attribution journal's index (sender_envelope.py:397-449): an append-only file of JSON lines,
    read incrementally from the last complete line. JSON is a parameter: `parse` gives a row or nothing. */
module Journal {
  import opened OrderedDict

  type Bytes = seq<bv8>

  const LF: bv8 := 10
  const CR: bv8 := 13
  const MAX_HOPS := 20

  // ---- lines ----

  /** `blob.rfind(b'\n') + 1`. */
  function LastLine(s: Bytes): (n: nat)
    ensures n <= |s| && (n > 0 ==> s[n - 1] == LF) && forall i :: n <= i < |s| ==> s[i] != LF
  {
    if s == [] then 0 else if s[|s| - 1] == LF then |s| else LastLine(s[..|s| - 1])
  }

  predicate Whole(s: Bytes) {
    s == [] || s[|s| - 1] == LF
  }

  /** First line break, or the length. */
  function Break(s: Bytes): (i: nat)
    ensures i <= |s| && (i < |s| ==> s[i] == LF || s[i] == CR) && forall k :: 0 <= k < i ==> s[k] != LF && s[k] != CR
  {
    if s == [] || s[0] == LF || s[0] == CR then 0 else 1 + Break(s[1..])
  }

  function Width(s: Bytes, i: nat): (w: nat)
    requires i < |s|
    ensures 1 <= w && i + w <= |s|
  {
    if s[i] == CR && i + 1 < |s| && s[i + 1] == LF then 2 else 1
  }

  predicate HasBreak(s: Bytes) {
    Break(s) < |s|
  }

  function Head(s: Bytes): Bytes
    requires HasBreak(s)
  {
    s[..Break(s)]
  }

  function Tail(s: Bytes): (t: Bytes)
    requires HasBreak(s)
    ensures |t| < |s|
  {
    s[Break(s) + Width(s, Break(s))..]
  }

  /** `bytes.splitlines()`: breaks at LF, CR and CR LF. */
  function SplitLines(s: Bytes): seq<Bytes>
    decreases |s|
  {
    if s == [] then [] else if !HasBreak(s) then [s] else [Head(s)] + SplitLines(Tail(s))
  }

  lemma {:induction false} BreakAppend(a: Bytes, b: Bytes)
    requires Break(a) < |a|
    ensures Break(a + b) == Break(a)
  {
    if a[0] != LF && a[0] != CR {
      assert (a + b)[1..] == a[1..] + b;
      BreakAppend(a[1..], b);
    }
  }

  lemma {:induction false} WholeBreaks(a: Bytes)
    requires Whole(a) && a != []
    ensures Break(a) < |a|
  {
  }

  /** The first line of a whole text is untouched by what follows. */
  lemma FirstLineKept(a: Bytes, b: Bytes)
    requires Whole(a) && a != []
    ensures HasBreak(a) && HasBreak(a + b) && Head(a + b) == Head(a) && Tail(a + b) == Tail(a) + b
    ensures Whole(Tail(a))
  {
    WholeBreaks(a);
    BreakAppend(a, b);
    hide Break;
    var i := Break(a);
    assert Width(a + b, i) == Width(a, i);
    assert (a + b)[..i] == a[..i] && (a + b)[i + Width(a, i)..] == a[i + Width(a, i)..] + b;
    if Tail(a) != [] { assert Tail(a)[|Tail(a)| - 1] == a[|a| - 1]; }
  }

  /** Splitting at a line boundary splits the lines. */
  lemma {:induction false} SplitAtBoundary(a: Bytes, b: Bytes)
    requires Whole(a)
    ensures SplitLines(a + b) == SplitLines(a) + SplitLines(b)
    decreases |a|
  {
    hide Head, Tail, HasBreak, Whole;
    if a == [] {
      assert a + b == b;
    } else {
      FirstLineKept(a, b);
      SplitAtBoundary(Tail(a), b);
      assert SplitLines(a + b) == [Head(a)] + SplitLines(Tail(a) + b);
      assert [Head(a)] + (SplitLines(Tail(a)) + SplitLines(b)) == ([Head(a)] + SplitLines(Tail(a))) + SplitLines(b);
    }
  }

  // ---- rows ----

  /** What the row says of a dashboard send: nothing, or its recipient, time (None when it is no number) and digest. */
  datatype HumanSend = NoSend | Send(target: string, at: Option<int>, digest: string)

  datatype Attr = Attr(messageId: string, relay: seq<string>, transportIds: seq<string>, send: HumanSend, body: string)

  datatype Row = Row(attr: Attr, node: string, keys: seq<string>)

  datatype Index = Index(aliases: map<string, string>, snapshots: map<string, Attr>,
                         human: map<string, map<string, (int, string)>>)

  const NOTHING := Index(map[], map[], map[])

  /** `_validated` keeps the last 20 hops. */
  function Trimmed(a: Attr): (r: Attr)
    ensures |r.relay| <= MAX_HOPS && r.messageId == a.messageId
  {
    if |a.relay| <= MAX_HOPS then a else a.(relay := a.relay[|a.relay| - MAX_HOPS..])
  }

  const TAG := "\U{27E8}wt:"

  function Bare(key: string): string {
    var k := if |key| >= 4 && key[..4] == TAG then key[4..] else key;
    if k != "" && k[|k| - 1] == '\U{27E9}' then k[..|k| - 1] else k
  }

  function AddAliases(aliases: map<string, string>, keys: seq<string>, id: string): map<string, string>
    decreases |keys|
  {
    if keys == [] then aliases
    else AddAliases(if keys[0] == "" then aliases else aliases[Bare(keys[0]) := id], keys[1..], id)
  }

  function AddSend(human: map<string, map<string, (int, string)>>, a: Attr): map<string, map<string, (int, string)>> {
    match a.send
    case NoSend => human
    case Send(target, at, digest) =>
      var sends := if target in human then human[target] else map[];
      human[target := if at.Some? then sends[a.messageId := (at.value, digest)] else sends]
  }

  predicate Replaces(snapshots: map<string, Attr>, a: Attr) {
    a.messageId !in snapshots || |a.relay| >= |snapshots[a.messageId].relay|
  }

  /** `_journal_add` for a line that parses. */
  function AddRow(x: Index, row: Row, nodes: set<string>): Index {
    if row.node !in nodes then x
    else
      var a := Trimmed(row.attr);
      Index(AddAliases(x.aliases, [a.messageId] + a.transportIds + row.keys, a.messageId),
            if Replaces(x.snapshots, a) then x.snapshots[a.messageId := a] else x.snapshots,
            AddSend(x.human, a))
  }

  function AddLine(x: Index, line: Bytes, nodes: set<string>, parse: Bytes -> Option<Row>): Index {
    match parse(line) case None => x case Some(row) => AddRow(x, row, nodes)
  }

  function Fold(x: Index, lines: seq<Bytes>, nodes: set<string>, parse: Bytes -> Option<Row>): Index
    decreases |lines|
  {
    if lines == [] then x else Fold(AddLine(x, lines[0], nodes, parse), lines[1..], nodes, parse)
  }

  lemma {:induction false} FoldConcat(x: Index, a: seq<Bytes>, b: seq<Bytes>, nodes: set<string>,
                                      parse: Bytes -> Option<Row>)
    ensures Fold(x, a + b, nodes, parse) == Fold(Fold(x, a, nodes, parse), b, nodes, parse)
    decreases |a|
  {
    if a == [] {
      assert a + b == b;
    } else {
      assert (a + b)[1..] == a[1..] + b;
      FoldConcat(AddLine(x, a[0], nodes, parse), a[1..], b, nodes, parse);
    }
  }

  lemma FoldStep(x: Index, lines: seq<Bytes>, i: nat, nodes: set<string>, parse: Bytes -> Option<Row>)
    requires i <= |lines|
    ensures Fold(x, lines[i..], nodes, parse)
      == if i == |lines| then x else Fold(AddLine(x, lines[i], nodes, parse), lines[i + 1..], nodes, parse)
  {
    hide AddLine;
    if i < |lines| {
      assert lines[i..][1..] == lines[i + 1..];
    }
  }

  /** The index a reader starting from nothing builds over a stretch of the file. */
  function Rebuild(content: Bytes, nodes: set<string>, parse: Bytes -> Option<Row>): Index {
    Fold(NOTHING, SplitLines(content), nodes, parse)
  }

  // ---- the cached index ----

  datatype Stat = Stat(inode: int, mtime: int, size: nat)

  datatype Cached = Cached(signature: Stat, offset: nat, index: Index)

  /** `_journal_index`: `st` is what stat reported, `content` what the read that follows sees. */
  function Refresh(cache: Option<Cached>, st: Stat, content: Bytes, nodes: set<string>,
                   parse: Bytes -> Option<Row>): Cached {
    if cache.Some? && cache.value.signature == st then cache.value
    else
      var base := if cache.None? || st.inode != cache.value.signature.inode || st.size <= cache.value.offset
        then Cached(st, 0, NOTHING) else cache.value;
      var blob := if base.offset <= |content| then content[base.offset..] else [];
      var end := LastLine(blob);
      Cached(st, base.offset + end, Fold(base.index, SplitLines(blob[..end]), nodes, parse))
  }

  /** Appending to the file, putting another file in its place, or indexing it while another writer appends between
      the stat and the read. */
  datatype Op = Append(bytes: Bytes) | Replace(inode: int, content: Bytes) | IndexAt(mtime: int, late: Bytes)

  /** `seen` is how much of the file the last real read saw. A replacement has an inode of its own (`used`). */
  datatype World = World(content: Bytes, inode: int, used: set<int>, cache: Option<Cached>, seen: nat)

  function Step(w: World, op: Op, nodes: set<string>, parse: Bytes -> Option<Row>): World {
    match op
    case Append(bytes) => w.(content := w.content + bytes)
    case Replace(inode, content) => if inode in w.used then w
      else w.(content := content, inode := inode, used := w.used + {inode})
    case IndexAt(mtime, late) =>
      var st := Stat(w.inode, mtime, |w.content|);
      var read := w.content + late;
      w.(content := read, cache := Some(Refresh(w.cache, st, read, nodes, parse)),
         seen := if w.cache.Some? && w.cache.value.signature == st then w.seen else |read|)
  }

  function Run(ops: seq<Op>, nodes: set<string>, parse: Bytes -> Option<Row>): World {
    if ops == [] then World([], 0, {0}, None, 0)
      else Step(Run(ops[..|ops| - 1], nodes, parse), ops[|ops| - 1], nodes, parse)
  }

  ghost predicate CacheOk(c: Cached, content: Bytes, seen: nat, nodes: set<string>, parse: Bytes -> Option<Row>) {
    && c.signature.size <= seen <= |content|
    && c.offset == LastLine(content[..seen])
    && c.index == Rebuild(content[..c.offset], nodes, parse)
  }

  ghost predicate WorldOk(w: World, nodes: set<string>, parse: Bytes -> Option<Row>) {
    && w.inode in w.used
    && (w.cache.Some? ==>
          && w.cache.value.signature.inode in w.used
          && (w.cache.value.signature.inode == w.inode ==> CacheOk(w.cache.value, w.content, w.seen, nodes, parse)))
  }

  lemma {:induction false} LastLineAppend(a: Bytes, b: Bytes)
    requires Whole(a)
    ensures LastLine(a + b) == |a| + LastLine(b)
    decreases |b|
  {
    if b == [] {
      assert a + b == a;
    } else if b[|b| - 1] != LF {
      assert (a + b)[..|a + b| - 1] == a + b[..|b| - 1];
      LastLineAppend(a, b[..|b| - 1]);
    }
  }

  lemma {:induction false} LastLineIsWhole(s: Bytes)
    ensures Whole(s[..LastLine(s)])
    ensures LastLine(s) == |s[..LastLine(s)]|
  {
  }

  /** Reading on from a line boundary gives what reading from the start gives. */
  lemma ReadOn(content: Bytes, offset: nat, nodes: set<string>, parse: Bytes -> Option<Row>)
    requires offset <= |content| && Whole(content[..offset])
    ensures var end := LastLine(content[offset..]);
      && offset + end == LastLine(content)
      && Fold(Rebuild(content[..offset], nodes, parse), SplitLines(content[offset..][..end]), nodes, parse)
         == Rebuild(content[..offset + end], nodes, parse)
  {
    hide *;
    var a, b := content[..offset], content[offset..];
    assert content == a + b;
    LastLineAppend(a, b);
    var end := LastLine(b);
    assert content[..offset + end] == a + b[..end];
    SplitAtBoundary(a, b[..end]);
    RebuildIs(a, nodes, parse);
    RebuildIs(content[..offset + end], nodes, parse);
    FoldConcat(NOTHING, SplitLines(a), SplitLines(b[..end]), nodes, parse);
  }

  lemma RebuildIs(content: Bytes, nodes: set<string>, parse: Bytes -> Option<Row>)
    ensures Rebuild(content, nodes, parse) == Fold(NOTHING, SplitLines(content), nodes, parse)
  {
  }

  /** A read from a boundary of the file. */
  lemma RereadOk(offset: nat, index: Index, st: Stat, read: Bytes, nodes: set<string>, parse: Bytes -> Option<Row>)
    requires offset <= |read| && Whole(read[..offset]) && index == Rebuild(read[..offset], nodes, parse)
      && st.size <= |read|
    ensures var blob := read[offset..];
      CacheOk(Cached(st, offset + LastLine(blob), Fold(index, SplitLines(blob[..LastLine(blob)]), nodes, parse)),
        read, |read|, nodes, parse)
  {
    hide Fold, SplitLines, Rebuild, LastLine, Whole;
    ReadOn(read, offset, nodes, parse);
    assert read[..|read|] == read;
  }

  /** The three ways of a refresh: as it is, reading on, and starting over. */
  lemma {:induction false} RefreshReads(cache: Option<Cached>, st: Stat, read: Bytes, nodes: set<string>,
                                        parse: Bytes -> Option<Row>)
    ensures var next := Refresh(cache, st, read, nodes, parse);
      if cache.Some? && cache.value.signature == st then next == cache.value
      else if cache.Some? && cache.value.signature.inode == st.inode && st.size > cache.value.offset then
        cache.value.offset <= |read| ==> next == ReadFrom(cache.value.offset, cache.value.index, st, read, nodes, parse)
      else next == ReadFrom(0, NOTHING, st, read, nodes, parse)
  {
    hide Fold, SplitLines, LastLine;
  }

  function ReadFrom(offset: nat, index: Index, st: Stat, read: Bytes, nodes: set<string>,
                    parse: Bytes -> Option<Row>): Cached
    requires offset <= |read|
  {
    var blob := read[offset..];
    Cached(st, offset + LastLine(blob), Fold(index, SplitLines(blob[..LastLine(blob)]), nodes, parse))
  }

  lemma {:induction false} RefreshOk(w: World, mtime: int, late: Bytes, nodes: set<string>, parse: Bytes -> Option<Row>)
    requires WorldOk(w, nodes, parse)
    ensures var next := Step(w, IndexAt(mtime, late), nodes, parse);
      && WorldOk(next, nodes, parse) && next.inode == w.inode && next.cache.Some?
         && next.cache.value.signature.inode == w.inode
      && next.seen >= |w.content|
  {
    hide Fold, SplitLines, Rebuild, LastLine, Whole, CacheOk, Refresh;
    var st, read := Stat(w.inode, mtime, |w.content|), w.content + late;
    RefreshReads(w.cache, st, read, nodes, parse);
    if w.cache.Some? && w.cache.value.signature.inode == w.inode {
      StillOk(w.cache.value, w.content, late, w.seen, nodes, parse);
    }
    if w.cache.Some? && w.cache.value.signature == st {
    } else if w.cache.Some? && w.cache.value.signature.inode == w.inode && st.size > w.cache.value.offset {
      RereadOk(w.cache.value.offset, w.cache.value.index, st, read, nodes, parse);
    } else {
      NothingRebuilt(nodes, parse);
      EmptyIsWhole();
      FromStart(read);
      RereadOk(0, NOTHING, st, read, nodes, parse);
    }
  }

  lemma FromStart(read: Bytes)
    ensures read[..0] == [] && read[0..] == read
  {
  }

  /** What is appended later does not disturb the cached part. */
  lemma StillOk(c: Cached, content: Bytes, late: Bytes, seen: nat, nodes: set<string>, parse: Bytes -> Option<Row>)
    requires CacheOk(c, content, seen, nodes, parse)
    ensures CacheOk(c, content + late, seen, nodes, parse)
    ensures c.signature.size <= seen && c.offset <= |content|
    ensures var read := content + late;
      Whole(read[..c.offset]) && c.index == Rebuild(read[..c.offset], nodes, parse)
  {
    hide Fold, SplitLines, Rebuild, LastLine, Whole;
    var read := content + late;
    assert read[..seen] == content[..seen];
    OffsetSeen(content[..seen]);
    LastLineIsWhole(content[..seen]);
    assert read[..c.offset] == content[..c.offset] == content[..seen][..c.offset];
  }

  lemma OffsetSeen(s: Bytes)
    ensures LastLine(s) <= |s|
  {
  }

  lemma EmptyIsWhole()
    ensures Whole([])
  {
  }

  lemma NothingRebuilt(nodes: set<string>, parse: Bytes -> Option<Row>)
    ensures Rebuild([], nodes, parse) == NOTHING
  {
  }

  /** Incremental equals full rebuild: after any sequence of appends, half-written lines included, replacements of the
      file and index calls, the cached index, if it is of the file in place,
        is the from-scratch fold over the complete lines read, and the offset is the end of the
      last complete line the last read saw. */
  lemma {:induction false} IncrementalEqualsRebuild(ops: seq<Op>, nodes: set<string>, parse: Bytes -> Option<Row>)
    ensures WorldOk(Run(ops, nodes, parse), nodes, parse)
    decreases |ops|
  {
    hide Fold, SplitLines, Rebuild, Refresh;
    if ops != [] {
      var w := Run(ops[..|ops| - 1], nodes, parse);
      IncrementalEqualsRebuild(ops[..|ops| - 1], nodes, parse);
      match ops[|ops| - 1]
      case Append(bytes) =>
        if w.cache.Some? && w.cache.value.signature.inode == w.inode {
          assert (w.content + bytes)[..w.seen] == w.content[..w.seen];
          assert (w.content + bytes)[..w.cache.value.offset] == w.content[..w.cache.value.offset];
        }
      case Replace(_, _) =>
      case IndexAt(mtime, late) => RefreshOk(w, mtime, late, nodes, parse);
    }
  }

  /** An index call covers every complete line the file held when it was called. */
  lemma IndexIsCurrent(ops: seq<Op>, mtime: int, late: Bytes, nodes: set<string>, parse: Bytes -> Option<Row>)
    ensures var before := Run(ops, nodes, parse);
      var c := Step(before, IndexAt(mtime, late), nodes, parse).cache;
      && c.Some?
      && LastLine(before.content) <= c.value.offset <= |before.content + late|
      && Whole((before.content + late)[..c.value.offset])
      && c.value.index == Rebuild((before.content + late)[..c.value.offset], nodes, parse)
  {
    hide Fold, SplitLines, Rebuild, Refresh;
    IncrementalEqualsRebuild(ops, nodes, parse);
    var w := Run(ops, nodes, parse);
    RefreshOk(w, mtime, late, nodes, parse);
    var next := Step(w, IndexAt(mtime, late), nodes, parse);
    var all := next.content[..next.seen];
    LastLineIsWhole(all);
    assert next.content[..next.cache.value.offset] == all[..next.cache.value.offset];
    assert all[..|w.content|] == w.content;
    LastLineGrows(w.content, all);
  }

  lemma LastLineGrows(a: Bytes, b: Bytes)
    requires a <= b
    ensures LastLine(a) <= LastLine(b)
  {
    if LastLine(a) > 0 {
      assert b[LastLine(a) - 1] == LF;
    }
  }

  // ---- which snapshot a message keeps ----

  /** The rows of message `m` that the index takes. */
  predicate Takes(line: Bytes, m: string, nodes: set<string>, parse: Bytes -> Option<Row>) {
    match parse(line) case None => false case Some(row) => row.node in nodes && row.attr.messageId == m
  }

  function AttrAt(line: Bytes, m: string, nodes: set<string>, parse: Bytes -> Option<Row>): Attr
    requires Takes(line, m, nodes, parse)
  {
    var a := parse(line).value.attr;
    if |a.relay| > 20 then a.(relay := a.relay[|a.relay| - 20..]) else a
  }

  /** Line `i` is the latest among those of message `m` with the longest recorded relay chain. */
  ghost predicate Winner(lines: seq<Bytes>, i: nat, m: string, nodes: set<string>, parse: Bytes -> Option<Row>) {
    && i < |lines| && Takes(lines[i], m, nodes, parse)
    && forall j :: 0 <= j < |lines| && Takes(lines[j], m, nodes, parse) ==>
         var mine, other := |AttrAt(lines[i], m, nodes, parse).relay|, |AttrAt(lines[j], m, nodes, parse).relay|;
         other <= mine && (j > i ==> other < mine)
  }

  /** What one more line does to the snapshot of `m`. */
  lemma AddLineSnapshot(x: Index, line: Bytes, m: string, nodes: set<string>, parse: Bytes -> Option<Row>)
    ensures var y := AddLine(x, line, nodes, parse);
      if Takes(line, m, nodes, parse)
        && (m !in x.snapshots || |AttrAt(line, m, nodes, parse).relay| >= |x.snapshots[m].relay|)
      then m in y.snapshots && y.snapshots[m] == AttrAt(line, m, nodes, parse)
      else (m in y.snapshots <==> m in x.snapshots) && (m in x.snapshots ==> y.snapshots[m] == x.snapshots[m])
  {
    hide AddAliases, AddSend;
  }

  lemma WinnerStays(init: seq<Bytes>, last: Bytes, i: nat, m: string, nodes: set<string>, parse: Bytes -> Option<Row>)
    requires Winner(init, i, m, nodes, parse)
    requires Takes(last, m, nodes, parse)
      ==> |AttrAt(last, m, nodes, parse).relay| < |AttrAt(init[i], m, nodes, parse).relay|
    ensures Winner(init + [last], i, m, nodes, parse)
  {
    hide Takes, AttrAt;
  }

  lemma WinnerNew(init: seq<Bytes>, last: Bytes, m: string, nodes: set<string>, parse: Bytes -> Option<Row>)
    requires Takes(last, m, nodes, parse)
    requires forall j :: 0 <= j < |init| && Takes(init[j], m, nodes, parse) ==>
      |AttrAt(init[j], m, nodes, parse).relay| <= |AttrAt(last, m, nodes, parse).relay|
    ensures Winner(init + [last], |init|, m, nodes, parse)
  {
    hide Takes, AttrAt;
  }

  /** A message's snapshot is the latest among its rows with the longest relay chain (chains are cut to 20 hops first).
      */
  lemma {:induction false} SnapshotIsLatestLongest(lines: seq<Bytes>, m: string, nodes: set<string>,
                                                   parse: Bytes -> Option<Row>)
    ensures var x := Fold(NOTHING, lines, nodes, parse);
      && (m in x.snapshots <==> exists i :: 0 <= i < |lines| && Takes(lines[i], m, nodes, parse))
      && (m in x.snapshots ==> exists i: nat ::
            Winner(lines, i, m, nodes, parse) && x.snapshots[m] == AttrAt(lines[i], m, nodes, parse))
    decreases |lines|
  {
    hide AddLine, Takes, AttrAt;
    if lines != [] {
      var init, last := lines[..|lines| - 1], lines[|lines| - 1];
      SnapshotIsLatestLongest(init, m, nodes, parse);
      assert lines == init + [last];
      FoldConcat(NOTHING, init, [last], nodes, parse);
      var x := Fold(NOTHING, init, nodes, parse);
      assert [last][1..] == [];
      AddLineSnapshot(x, last, m, nodes, parse);
      var took := Takes(last, m, nodes, parse)
        && (m !in x.snapshots || |AttrAt(last, m, nodes, parse).relay| >= |x.snapshots[m].relay|);
      if took {
        WinnerNew(init, last, m, nodes, parse);
        assert lines[|init|] == last;
      } else if m in x.snapshots {
        var i: nat :| Winner(init, i, m, nodes, parse) && x.snapshots[m] == AttrAt(init[i], m, nodes, parse);
        WinnerStays(init, last, i, m, nodes, parse);
        assert lines[i] == init[i];
      }
    }
  }

  // ---- the cache entry, updated in place ----

  class JournalCache {
    var cache: Option<Cached>

    constructor ()
      ensures cache == None
    {
      cache := None;
    }

    method IndexFile(st: Stat, content: Bytes, nodes: set<string>, parse: Bytes -> Option<Row>) returns (index: Index)
      modifies this
      ensures cache == Some(Refresh(old(cache), st, content, nodes, parse)) && index == cache.value.index
    {
      if cache.Some? && cache.value.signature == st {
        return cache.value.index;
      }
      var offset, x := 0, NOTHING;
      if cache.Some? && st.inode == cache.value.signature.inode && st.size > cache.value.offset {
        offset, x := cache.value.offset, cache.value.index;
      }
      var blob := if offset <= |content| then content[offset..] else [];
      var end := LastLine(blob);
      var lines := SplitLines(blob[..end]);
      ghost var base := x;
      hide Fold, AddLine, SplitLines, LastLine;
      assert lines[0..] == lines;
      for i := 0 to |lines|
        invariant Fold(x, lines[i..], nodes, parse) == Fold(base, lines, nodes, parse)
      {
        FoldStep(x, lines, i, nodes, parse);
        x := AddLine(x, lines[i], nodes, parse);
      }
      FoldStep(x, lines, |lines|, nodes, parse);
      cache := Some(Cached(st, offset + end, x));
      return x;
    }
  }
}
