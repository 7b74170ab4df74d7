/** What the journal index answers, said over the lines of the journal: which message a key leads to, and which
    dashboard sends are known (sender_envelope.py:390-422). */
module JournalLookup {
  import opened OrderedDict
  import opened Sequences
  import opened Journal

  // ---- keys and what they strip to ----

  const OPENING := "\U{27E8}wt:"
  const CLOSING := "\U{27E9}"

  predicate EndsClosed(s: string) {
    s != "" && s[|s| - 1..] == CLOSING
  }

  /** `bare` is `key` without the opening tag and without one closing bracket, where it has them. */
  predicate StripsTo(key: string, bare: string) {
    var start := if OPENING <= key then OPENING + bare else bare;
    key == start + CLOSING || (key == start && !EndsClosed(bare))
  }

  lemma {:induction false} StrippedIs(key: string, bare: string)
    ensures StripsTo(key, bare) <==> bare == Bare(key)
  {
  }

  // ---- the lines that speak of a key ----

  /** A line the index takes: it parses, and its node is one of the known ones. */
  predicate Taken(line: Bytes, nodes: set<string>, parse: Bytes -> Option<Row>) {
    parse(line).Some? && parse(line).value.node in nodes
  }

  /** The keys a row lists: its message id, its transport ids and its own keys. */
  predicate Lists(row: Row, key: string) {
    key == row.attr.messageId || key in row.attr.transportIds || key in row.keys
  }

  ghost predicate ListsBare(row: Row, bare: string) {
    exists key: string :: Lists(row, key) && key != "" && StripsTo(key, bare)
  }

  /** The line is taken and lists a key that strips to `bare`. */
  ghost predicate Speaks(line: Bytes, bare: string, nodes: set<string>, parse: Bytes -> Option<Row>) {
    Taken(line, nodes, parse) && ListsBare(parse(line).value, bare)
  }

  function MessageOf(line: Bytes, parse: Bytes -> Option<Row>): Option<string> {
    match parse(line) case None => None case Some(row) => Some(row.attr.messageId)
  }

  // ---- one line ----

  lemma {:induction false} AliasesAdded(aliases: map<string, string>, keys: seq<string>, id: string, bare: string)
    ensures var after := AddAliases(aliases, keys, id);
      if exists i :: 0 <= i < |keys| && keys[i] != "" && Bare(keys[i]) == bare
      then bare in after && after[bare] == id
      else (bare in after <==> bare in aliases) && (bare in aliases ==> after[bare] == aliases[bare])
    decreases |keys|
  {
    hide Bare;
    if keys != [] {
      var next := if keys[0] == "" then aliases else aliases[Bare(keys[0]) := id];
      AliasesAdded(next, keys[1..], id, bare);
      assert forall j :: 0 < j < |keys| ==> keys[j] == keys[1..][j - 1];
      if exists i :: 0 <= i < |keys[1..]| && keys[1..][i] != "" && Bare(keys[1..][i]) == bare {
        var i :| 0 <= i < |keys[1..]| && keys[1..][i] != "" && Bare(keys[1..][i]) == bare;
        assert keys[i + 1] == keys[1..][i];
      }
    }
  }

  lemma {:induction false} ListedKeys(row: Row, bare: string)
    ensures var keys := [row.attr.messageId] + row.attr.transportIds + row.keys;
      ListsBare(row, bare) <==> exists i :: 0 <= i < |keys| && keys[i] != "" && Bare(keys[i]) == bare
  {
    hide Bare, StripsTo;
    var keys := [row.attr.messageId] + row.attr.transportIds + row.keys;
    if ListsBare(row, bare) {
      var key: string :| Lists(row, key) && key != "" && StripsTo(key, bare);
      StrippedIs(key, bare);
      assert key in keys;
    }
    if exists i :: 0 <= i < |keys| && keys[i] != "" && Bare(keys[i]) == bare {
      var i :| 0 <= i < |keys| && keys[i] != "" && Bare(keys[i]) == bare;
      StrippedIs(keys[i], bare);
      assert Lists(row, keys[i]);
    }
  }

  /** What one more line does to the alias of `bare`. */
  lemma {:induction false} LineAliases(x: Index, line: Bytes, bare: string, nodes: set<string>,
                                       parse: Bytes -> Option<Row>)
    ensures var y := AddLine(x, line, nodes, parse);
      if Speaks(line, bare, nodes, parse) then bare in y.aliases && Some(y.aliases[bare]) == MessageOf(line, parse)
      else (bare in y.aliases <==> bare in x.aliases) && (bare in x.aliases ==> y.aliases[bare] == x.aliases[bare])
  {
    hide AddAliases, AddSend, ListsBare, Bare;
    if Taken(line, nodes, parse) {
      var row := parse(line).value;
      ListedKeys(row, bare);
      AliasesAdded(x.aliases, [row.attr.messageId] + row.attr.transportIds + row.keys, row.attr.messageId, bare);
    }
  }

  // ---- every journal ----

  /** Line `i` is the last that speaks of `bare`. */
  ghost predicate LastSpeaks(lines: seq<Bytes>, i: nat, bare: string, nodes: set<string>,
                             parse: Bytes -> Option<Row>) {
    && i < |lines| && Speaks(lines[i], bare, nodes, parse)
    && forall j :: i < j < |lines| ==> !Speaks(lines[j], bare, nodes, parse)
  }

  /** A key leads somewhere exactly when some line of the journal lists it, and then to the message of the last one. */
  lemma {:induction false} AliasIsLatest(lines: seq<Bytes>, bare: string, nodes: set<string>,
                                         parse: Bytes -> Option<Row>)
    ensures var x := Fold(NOTHING, lines, nodes, parse);
      && (bare in x.aliases <==> exists i :: 0 <= i < |lines| && Speaks(lines[i], bare, nodes, parse))
      && (bare in x.aliases ==> exists i: nat ::
            LastSpeaks(lines, i, bare, nodes, parse) && Some(x.aliases[bare]) == MessageOf(lines[i], parse))
    decreases |lines|
  {
    hide AddLine, Speaks;
    if lines != [] {
      var init, last := lines[..|lines| - 1], lines[|lines| - 1];
      AliasIsLatest(init, bare, nodes, parse);
      assert lines == init + [last];
      FoldConcat(NOTHING, init, [last], nodes, parse);
      var x := Fold(NOTHING, init, nodes, parse);
      assert [last][1..] == [];
      LineAliases(x, last, bare, nodes, parse);
      if Speaks(last, bare, nodes, parse) {
        assert LastSpeaks(lines, |init|, bare, nodes, parse);
      } else if bare in x.aliases {
        var i: nat :| LastSpeaks(init, i, bare, nodes, parse) && Some(x.aliases[bare]) == MessageOf(init[i], parse);
        assert LastSpeaks(lines, i, bare, nodes, parse) && lines[i] == init[i];
      }
    }
  }

  /** Whatever a key leads to has a snapshot. */
  lemma {:induction false} AliasResolves(lines: seq<Bytes>, bare: string, nodes: set<string>,
                                         parse: Bytes -> Option<Row>)
    ensures var x := Fold(NOTHING, lines, nodes, parse); bare in x.aliases ==> x.aliases[bare] in x.snapshots
  {
    hide Fold, AddLine;
    AliasIsLatest(lines, bare, nodes, parse);
    var x := Fold(NOTHING, lines, nodes, parse);
    if bare in x.aliases {
      var i: nat :| LastSpeaks(lines, i, bare, nodes, parse) && Some(x.aliases[bare]) == MessageOf(lines[i], parse);
      var m := x.aliases[bare];
      SnapshotIsLatestLongest(lines, m, nodes, parse);
      assert Takes(lines[i], m, nodes, parse);
    }
  }

  // ---- dashboard sends ----

  /** The line is a dashboard send to `target`. */
  predicate SendsTo(line: Bytes, target: string, nodes: set<string>, parse: Bytes -> Option<Row>) {
    Taken(line, nodes, parse) && parse(line).value.attr.send.Send? && parse(line).value.attr.send.target == target
  }

  /** And one of message `m` with a time that is a number. */
  predicate Times(line: Bytes, target: string, m: string, nodes: set<string>, parse: Bytes -> Option<Row>) {
    SendsTo(line, target, nodes, parse) && parse(line).value.attr.messageId == m && parse(line).value.attr.send.at.Some?
  }

  function TimeAndDigest(line: Bytes, parse: Bytes -> Option<Row>): Option<(int, string)> {
    match parse(line)
    case Some(Row(Attr(_, _, _, Send(_, Some(at), digest), _), _, _)) => Some((at, digest))
    case _ => None
  }

  function Known(x: Index, target: string, m: string): Option<(int, string)> {
    if target in x.human && m in x.human[target] then Some(x.human[target][m]) else None
  }

  lemma {:induction false} LineSends(x: Index, line: Bytes, target: string, m: string, nodes: set<string>,
                                     parse: Bytes -> Option<Row>)
    ensures var y := AddLine(x, line, nodes, parse);
      && (target in y.human <==> target in x.human || SendsTo(line, target, nodes, parse))
      && Known(y, target, m)
         == if Times(line, target, m, nodes, parse) then TimeAndDigest(line, parse)
            else Known(x, target, m)
    ensures Times(line, target, m, nodes, parse) ==> TimeAndDigest(line, parse).Some?
  {
    hide AddAliases;
  }

  ghost predicate LastTimes(lines: seq<Bytes>, i: nat, target: string, m: string, nodes: set<string>,
                            parse: Bytes -> Option<Row>) {
    && i < |lines| && Times(lines[i], target, m, nodes, parse)
    && forall j :: i < j < |lines| ==> !Times(lines[j], target, m, nodes, parse)
  }

  /** The index knows a recipient exactly when a dashboard send to it was recorded, and of each message sent to it the
      time and digest of the last such line whose time is a number. */
  lemma {:induction false} SendIsLatest(lines: seq<Bytes>, target: string, m: string, nodes: set<string>,
                                        parse: Bytes -> Option<Row>)
    ensures var x := Fold(NOTHING, lines, nodes, parse);
      && (target in x.human <==> exists i :: 0 <= i < |lines| && SendsTo(lines[i], target, nodes, parse))
      && match Known(x, target, m)
         case None => forall i :: 0 <= i < |lines| ==> !Times(lines[i], target, m, nodes, parse)
         case Some(v) =>
           exists i: nat ::
             LastTimes(lines, i, target, m, nodes, parse) && Some(v) == TimeAndDigest(lines[i], parse)
    decreases |lines|
  {
    hide AddLine, SendsTo, Times, Known;
    if lines != [] {
      var init, last := lines[..|lines| - 1], lines[|lines| - 1];
      SendIsLatest(init, target, m, nodes, parse);
      assert lines == init + [last];
      FoldConcat(NOTHING, init, [last], nodes, parse);
      var x := Fold(NOTHING, init, nodes, parse);
      assert [last][1..] == [];
      LineSends(x, last, target, m, nodes, parse);
      if Times(last, target, m, nodes, parse) {
        assert LastTimes(lines, |init|, target, m, nodes, parse);
      } else if Known(x, target, m).Some? {
        var v := Known(x, target, m).value;
        var i: nat :| LastTimes(init, i, target, m, nodes, parse) && Some(v) == TimeAndDigest(init[i], parse);
        assert LastTimes(lines, i, target, m, nodes, parse) && lines[i] == init[i];
      }
    } else {
      NothingKnown(target, m);
    }
  }

  lemma {:induction false} NothingKnown(target: string, m: string)
    ensures Known(NOTHING, target, m) == None && target !in NOTHING.human
  {
  }
}
