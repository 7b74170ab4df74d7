/** What the rows of an ACP turn hold, said over the updates received and without the code that folds them: every tool
    row with its contents and its place among the tool rows, every plan row, and the shape of every assistant row
    (ccc_server/acp.py:1500-1520, 1607-1694, 1706-1747, 1767-1800, 2112-2174). */
module ToolRows {
  import opened OrderedDict
  import opened Sequences
  import opened TurnFold

  predicate About(u: Update, id: string) {
    (u.ToolCall? || u.ToolUpdate?) && u.id == id
  }

  /** The last value the updates give a tool, or `none`. */
  function Latest(us: seq<Update>, id: string, says: Update -> Option<string>, none: string): string {
    if us == [] then none
    else
      var n := |us| - 1;
      if About(us[n], id) && says(us[n]).Some? then says(us[n]).value else Latest(us[..n], id, says, none)
  }

  function Given(text: string): Option<string> {
    if text != "" then Some(text) else None
  }

  // ---- what an update says; an announcement says everything ----

  const TITLE := (u: Update) =>
    match u
    case ToolCall(_, title, kind, _, _, _, _) =>
      Some(if title != "" then title else if kind != "" then kind else "tool")
    case ToolUpdate(_, title, _, _, _, _, _, _) => Given(title)
    case _ => None

  const KIND := (u: Update) =>
    match u
    case ToolCall(_, _, kind, _, _, _, _) => Some(kind)
    case ToolUpdate(_, _, kind, _, _, _, _, _) => Given(kind)
    case _ => None

  const STATUS := (u: Update) =>
    match u
    case ToolCall(_, _, _, status, _, _, _) => Some(if status != "" then status else "running")
    case ToolUpdate(_, _, _, status, _, _, _, _) => Given(status)
    case _ => None

  const INPUT := (u: Update) =>
    match u
    case ToolCall(_, _, _, _, _, input, _) => Some(input)
    case ToolUpdate(_, _, _, _, _, input, _, _) => Given(input)
    case _ => None

  /** The detail is renewed with the input. An announcement without input, or whose input has no detail, shows its
      kind. */
  const DETAIL := (u: Update) =>
    match u
    case ToolCall(_, _, kind, _, detail, input, _) => Some(if input != "" && detail != "" then detail else kind)
    case ToolUpdate(_, _, _, _, detail, input, _, _) => if input != "" then Some(detail) else None
    case _ => None

  const DIFF := (u: Update) =>
    match u
    case ToolCall(_, _, _, _, _, _, diff) => Some(diff)
    case ToolUpdate(_, _, _, _, _, _, diff, _) => Given(diff)
    case _ => None

  /** Only the update that ends a tool brings output, of which 1200 characters are kept. */
  const OUTPUT := (u: Update) =>
    match u
    case ToolCall(_, _, _, _, _, _, _) => Some("")
    case ToolUpdate(_, _, _, status, _, _, _, output) =>
      if status in {"completed", "failed"} && output != "" then Some(if |output| > 1200 then output[..1200] else output)
      else None
    case _ => None

  /** The tool the updates describe. */
  function Shown(us: seq<Update>, id: string, emitted: bool): Tool {
    Tool(Latest(us, id, TITLE, "tool"), Latest(us, id, KIND, ""), Latest(us, id, STATUS, "running"),
         Latest(us, id, DETAIL, ""), Latest(us, id, INPUT, ""), Latest(us, id, DIFF, ""), Latest(us, id, OUTPUT, ""),
         emitted)
  }

  predicate Ends(u: Update, id: string) {
    u.ToolUpdate? && u.id == id && u.status in {"completed", "failed"}
  }

  /** The tool ended since it was last announced. */
  predicate EndedSince(us: seq<Update>, id: string) {
    us != [] &&
    var n := |us| - 1;
    Ends(us[n], id) || (!(us[n].ToolCall? && us[n].id == id) && EndedSince(us[..n], id))
  }

  /** The tools in the order they were first mentioned. */
  function Mentioned(us: seq<Update>): seq<string> {
    if us == [] then []
    else
      var n := |us| - 1;
      var ids := Mentioned(us[..n]);
      if (us[n].ToolCall? || us[n].ToolUpdate?) && us[n].id !in ids then ids + [us[n].id] else ids
  }

  /** The rows written as tools ended: one for each ending update unless the tool had ended since its announcement. */
  function EndRows(us: seq<Update>): seq<Row> {
    if us == [] then []
    else
      var n := |us| - 1;
      EndRows(us[..n])
      + if us[n].ToolUpdate? && Ends(us[n], us[n].id) && !EndedSince(us[..n], us[n].id)
        then [ToolRow(us[n].id, Shown(us, us[n].id, true))] else []
  }

  /** The rows written with the response: the tools that did not end since their announcement. */
  function LeftRows(us: seq<Update>, ids: seq<string>): seq<Row> {
    if ids == [] then []
    else (if EndedSince(us, ids[0]) then [] else [ToolRow(ids[0], Shown(us, ids[0], true))]) + LeftRows(us, ids[1..])
  }

  /** The tool rows among rows. */
  function ToolsIn(rows: seq<Row>): seq<Row> {
    if rows == [] then []
    else ToolsIn(rows[..|rows| - 1]) + if rows[|rows| - 1].ToolRow? then [rows[|rows| - 1]] else []
  }

  // ---- the tracked tools ----

  lemma {:induction false} LatestStep(us: seq<Update>, u: Update, id: string, says: Update -> Option<string>,
                                      none: string)
    ensures Latest(us + [u], id, says, none)
      == if About(u, id) && says(u).Some? then says(u).value else Latest(us, id, says, none)
  {
    assert (us + [u])[..|us|] == us;
  }

  lemma {:induction false} ShownStep(us: seq<Update>, u: Update, id: string, emitted: bool)
    ensures var was, now := Shown(us, id, emitted), Shown(us + [u], id, emitted);
      if !About(u, id) then now == was
      else if u.ToolCall? then now == Announced(u).(emitted := emitted)
      else now == ApplyUpdate(was, u).(emitted := emitted)
  {
    hide Latest;
    LatestStep(us, u, id, TITLE, "tool");
    LatestStep(us, u, id, KIND, "");
    LatestStep(us, u, id, STATUS, "running");
    LatestStep(us, u, id, DETAIL, "");
    LatestStep(us, u, id, INPUT, "");
    LatestStep(us, u, id, DIFF, "");
    LatestStep(us, u, id, OUTPUT, "");
  }

  lemma {:induction false} EndedStep(us: seq<Update>, u: Update, id: string)
    ensures EndedSince(us + [u], id) <==> Ends(u, id) || (!(u.ToolCall? && u.id == id) && EndedSince(us, id))
  {
    assert (us + [u])[..|us|] == us;
  }

  lemma {:induction false} MentionedStep(us: seq<Update>, u: Update)
    ensures Mentioned(us + [u])
      == if (u.ToolCall? || u.ToolUpdate?) && u.id !in Mentioned(us) then Mentioned(us) + [u.id] else Mentioned(us)
  {
    assert (us + [u])[..|us|] == us;
  }

  lemma {:induction false} Unmentioned(us: seq<Update>, id: string)
    requires id !in Mentioned(us)
    ensures Shown(us, id, false) == LAZY && !EndedSince(us, id)
    decreases |us|
  {
    if us != [] {
      var n := |us| - 1;
      assert us[..n] + [us[n]] == us;
      MentionedStep(us[..n], us[n]);
      ShownStep(us[..n], us[n], id, false);
      EndedStep(us[..n], us[n], id);
      hide Shown, EndedSince, Mentioned, ApplyUpdate, Announced;
      Unmentioned(us[..n], id);
    }
  }

  /** The dictionary of tools that the updates describe. */
  ghost predicate Tracks(tools: Dict<string, Tool>, us: seq<Update>) {
    && Distinct(tools) && Keys(tools) == Mentioned(us)
    && forall id :: Get(tools, id) == if id in Mentioned(us) then Some(Shown(us, id, EndedSince(us, id))) else None
  }

  lemma {:induction false} TracksIdle(tools: Dict<string, Tool>, us: seq<Update>, u: Update)
    requires Tracks(tools, us) && !u.ToolCall? && !u.ToolUpdate?
    ensures Tracks(tools, us + [u])
  {
    hide Shown, EndedSince, Mentioned, Distinct, Get, Keys;
    MentionedStep(us, u);
    forall id ensures Get(tools, id)
      == if id in Mentioned(us + [u]) then Some(Shown(us + [u], id, EndedSince(us + [u], id))) else None {
      ShownStep(us, u, id, EndedSince(us, id));
      EndedStep(us, u, id);
    }
  }

  lemma {:induction false} TracksPut(tools: Dict<string, Tool>, us: seq<Update>, u: Update, tool: Tool)
    requires Tracks(tools, us) && (u.ToolCall? || u.ToolUpdate?)
    requires tool == Shown(us + [u], u.id, EndedSince(us + [u], u.id))
    ensures Tracks(Put(tools, u.id, tool), us + [u])
  {
    hide Shown, EndedSince, Mentioned, Distinct, Get, Keys, Put;
    MentionedStep(us, u);
    PutDistinct(tools, u.id, tool);
    PutKeys(tools, u.id, tool);
    HasMentioned(tools, us, u.id);
    forall id ensures Get(Put(tools, u.id, tool), id)
      == if id in Mentioned(us + [u]) then Some(Shown(us + [u], id, EndedSince(us + [u], id))) else None {
      GetPut(tools, u.id, tool, id);
      ShownStep(us, u, id, EndedSince(us, id));
      EndedStep(us, u, id);
    }
  }

  lemma {:induction false} HasMentioned(tools: Dict<string, Tool>, us: seq<Update>, id: string)
    requires Tracks(tools, us)
    ensures Has(tools, id) <==> id in Mentioned(us)
  {
    hide Shown, EndedSince, Mentioned;
  }

  /** The tool an update or announcement leaves is the one the updates describe. */
  lemma {:induction false} NextTool(tools: Dict<string, Tool>, us: seq<Update>, u: Update)
    requires Tracks(tools, us)
    ensures u.ToolCall? ==> Announced(u) == Shown(us + [u], u.id, EndedSince(us + [u], u.id))
    ensures u.ToolUpdate? ==>
      var was := match Get(tools, u.id) case None => LAZY case Some(t) => t;
      var tool := ApplyUpdate(was, u);
      && was.emitted == EndedSince(us, u.id) == tool.emitted
      && tool.(emitted := true) == Shown(us + [u], u.id, true)
      && tool.(emitted := EndedSince(us + [u], u.id)) == Shown(us + [u], u.id, EndedSince(us + [u], u.id))
  {
    hide EndedSince, Mentioned, Latest;
    if u.ToolCall? || u.ToolUpdate? {
      if u.id !in Mentioned(us) { Unmentioned(us, u.id); }
      ShownStep(us, u, u.id, EndedSince(us, u.id));
      EndedStep(us, u, u.id);
    }
  }

  lemma {:induction false} AppendTool(rows: seq<Row>, row: Row)
    ensures ToolsIn(rows + [row]) == ToolsIn(rows) + if row.ToolRow? then [row] else []
  {
    assert (rows + [row])[..|rows|] == rows;
  }

  lemma {:induction false} FlushTools(s: Session)
    requires s.turn.Some?
    ensures ToolsIn(Flush(s).rows) == ToolsIn(s.rows)
    ensures Flush(s).turn.Some? && Flush(s).turn.value.tools == s.turn.value.tools
  {
    hide ToolsIn;
    if Blocks(s.turn.value) != [] {
      AppendTool(s.rows, Assistant(Blocks(s.turn.value)));
      assert ToolsIn(s.rows) + [] == ToolsIn(s.rows);
    } else {
      assert s.rows + [] == s.rows;
    }
  }

  /** One update against the tools and their rows. */
  lemma {:induction false} HandleTracks(s: Session, us: seq<Update>, u: Update)
    requires s.turn.Some? && Tracks(s.turn.value.tools, us)
    ensures var t := Handle(s, u);
      && t.turn.Some? && Tracks(t.turn.value.tools, us + [u])
      && ToolsIn(t.rows) == ToolsIn(s.rows)
         + if u.ToolUpdate? && Ends(u, u.id) && !EndedSince(us, u.id)
           then [ToolRow(u.id, Shown(us + [u], u.id, true))] else []
  {
    hide Tracks, Flush, ToolsIn, ApplyUpdate, Announced, Shown, EndedSince, Put, Get;
    var tools := s.turn.value.tools;
    assert ToolsIn(s.rows) + [] == ToolsIn(s.rows);
    match u
    case ToolCall(_, _, _, _, _, _, _) =>
      FlushTools(s);
      NextTool(tools, us, u);
      TracksPut(tools, us, u, Announced(u));
    case ToolUpdate(id, _, _, _, _, _, _, _) =>
      NextTool(tools, us, u);
      EndedStep(us, u, id);
      TracksPut(tools, us, u, Shown(us + [u], id, EndedSince(us + [u], id)));
      AppendTool(s.rows, ToolRow(id, Shown(us + [u], id, true)));
    case PlanUpdate(entries) =>
      TracksIdle(tools, us, u);
      if entries != s.plan {
        FlushTools(s.(plan := entries));
        AppendTool(Flush(s.(plan := entries)).rows, PlanRow(entries));
      }
    case _ => TracksIdle(tools, us, u);
  }

  lemma {:induction false} AllTracked(s: Session, us: seq<Update>)
    requires Fresh(s)
    ensures var t := HandleAll(s, us);
      t.turn.Some? && Tracks(t.turn.value.tools, us) && ToolsIn(t.rows) == ToolsIn(s.rows) + EndRows(us)
    decreases |us|
  {
    hide Handle, Tracks, Shown, EndedSince, ToolsIn;
    if us == [] {
      assert Tracks([], []) by { NothingTracked(); }
      assert ToolsIn(s.rows) + [] == ToolsIn(s.rows);
    } else {
      var n := |us| - 1;
      var u := us[n];
      assert us[..n] + [u] == us;
      AllTracked(s, us[..n]);
      HandleTracks(HandleAll(s, us[..n]), us[..n], u);
    }
  }

  lemma {:induction false} NothingTracked()
    ensures Tracks([], [])
  {
  }

  // ---- the finished turn ----

  lemma {:induction false} ToolsConcat(a: seq<Row>, b: seq<Row>)
    ensures ToolsIn(a + b) == ToolsIn(a) + ToolsIn(b)
    decreases |b|
  {
    if b == [] {
      assert a + b == a && ToolsIn(a) + [] == ToolsIn(a);
    } else {
      assert (a + b)[..|a + b| - 1] == a + b[..|b| - 1];
      ToolsConcat(a, b[..|b| - 1]);
    }
  }

  lemma {:induction false} AllToolRows(rows: seq<Row>)
    requires forall i :: 0 <= i < |rows| ==> rows[i].ToolRow?
    ensures ToolsIn(rows) == rows
    decreases |rows|
  {
    if rows != [] {
      AllToolRows(rows[..|rows| - 1]);
      assert rows[..|rows| - 1] + [rows[|rows| - 1]] == rows;
    }
  }

  lemma {:induction false} OpenIsLeft(tools: Dict<string, Tool>, us: seq<Update>)
    requires forall i :: 0 <= i < |tools| ==> tools[i].1 == Shown(us, tools[i].0, EndedSince(us, tools[i].0))
    ensures OpenRows(tools) == LeftRows(us, Keys(tools))
    decreases |tools|
  {
    hide EndedSince, Latest;
    if tools != [] {
      assert forall i :: 0 <= i < |tools[1..]| ==> tools[1..][i] == tools[i + 1];
      OpenIsLeft(tools[1..], us);
      assert Keys(tools)[1..] == Keys(tools[1..]);
      assert tools[0].1.(emitted := true) == Shown(us, tools[0].0, true);
    }
  }

  lemma {:induction false} TrackedAt(tools: Dict<string, Tool>, us: seq<Update>, i: nat)
    requires Tracks(tools, us) && i < |tools|
    ensures tools[i].1 == Shown(us, tools[i].0, EndedSince(us, tools[i].0))
  {
    hide Shown, EndedSince, Mentioned;
    GetAt(tools, i);
  }

  lemma {:induction false} FinalTools(s: Session, r: Response)
    requires s.turn.Some?
    ensures ToolsIn(Finalize(s, r).rows) == ToolsIn(s.rows) + OpenRows(s.turn.value.tools)
  {
    hide ToolsIn, OpenRows, Flush;
    var tools := s.turn.value.tools;
    var o := s.(rows := s.rows + OpenRows(tools));
    OpenRowsAreTools(tools);
    AllToolRows(OpenRows(tools));
    ToolsConcat(s.rows, OpenRows(tools));
    FlushTools(o);
    var g := Flush(o);
    var more := ResultOf(g.rows, r);
    ToolsConcat(g.rows, more);
    assert ToolsIn(more) == [] by { NoToolResult(g.rows, r); }
    assert ToolsIn(g.rows) + [] == ToolsIn(g.rows);
  }

  lemma {:induction false} NoToolResult(rows: seq<Row>, r: Response)
    ensures ToolsIn(ResultOf(rows, r)) == []
  {
  }

  /** The tool rows of a finished turn, in their order and with their contents: one for each update that ended a tool
      announced or first mentioned since, showing what had been said of it by then, and with the response one for
      each tool that had not ended, showing all that was said. */
  lemma {:induction false} ToolRowsHold(s: Session, us: seq<Update>, r: Response)
    requires Fresh(s)
    ensures ToolsIn(Finalize(HandleAll(s, us), r).rows)
      == ToolsIn(s.rows) + EndRows(us) + LeftRows(us, Mentioned(us))
  {
    AllTracked(s, us);
    var t := HandleAll(s, us);
    var tools := t.turn.value.tools;
    hide Finalize, HandleAll, Shown, EndedSince, ToolsIn, EndRows, LeftRows, OpenRows;
    FinalTools(t, r);
    forall i | 0 <= i < |tools| ensures tools[i].1 == Shown(us, tools[i].0, EndedSince(us, tools[i].0)) {
      TrackedAt(tools, us, i);
    }
    OpenIsLeft(tools, us);
  }

  // ---- plan rows ----

  function PlansIn(rows: seq<Row>): seq<Row> {
    if rows == [] then []
    else PlansIn(rows[..|rows| - 1]) + if rows[|rows| - 1].PlanRow? then [rows[|rows| - 1]] else []
  }

  /** The plan in force after the updates: the last one sent. */
  function PlanAfter(plan: seq<string>, us: seq<Update>): seq<string> {
    if us == [] then plan
    else if us[|us| - 1].PlanUpdate? then us[|us| - 1].entries
    else PlanAfter(plan, us[..|us| - 1])
  }

  /** A row for each plan that differs from the one in force. */
  function PlanRows(plan: seq<string>, us: seq<Update>): seq<Row> {
    if us == [] then []
    else
      var n := |us| - 1;
      PlanRows(plan, us[..n])
      + if us[n].PlanUpdate? && us[n].entries != PlanAfter(plan, us[..n]) then [PlanRow(us[n].entries)] else []
  }

  // ---- assistant rows ----

  /** A thinking block before a text block, neither of them empty, and at least one of them. */
  predicate Shaped(row: Row) {
    row.Assistant? ==>
      || (|row.blocks| == 1 && row.blocks[0].text != "")
      || (|row.blocks| == 2 && row.blocks[0].Thinking? && row.blocks[1].Text? && row.blocks[0].text != ""
          && row.blocks[1].text != "")
  }

  lemma {:induction false} FlushShapes(s: Session)
    requires s.turn.Some?
    ensures var f := Flush(s);
      && f.turn.Some? && f.plan == s.plan && PlansIn(f.rows) == PlansIn(s.rows) && |f.rows| <= |s.rows| + 1
      && s.rows <= f.rows && (|f.rows| > |s.rows| ==> Shaped(f.rows[|s.rows|]))
  {
    if Blocks(s.turn.value) != [] {
      assert (s.rows + [Assistant(Blocks(s.turn.value))])[..|s.rows|] == s.rows;
      assert PlansIn(s.rows) + [] == PlansIn(s.rows);
    } else {
      assert s.rows + [] == s.rows;
    }
  }

  lemma {:induction false} AppendPlan(rows: seq<Row>, row: Row)
    ensures PlansIn(rows + [row]) == PlansIn(rows) + if row.PlanRow? then [row] else []
  {
    assert (rows + [row])[..|rows|] == rows;
  }

  ghost predicate ShapedFrom(rows: seq<Row>, k: nat) {
    forall i :: k <= i < |rows| ==> Shaped(rows[i])
  }

  /** One update: the plan row it writes, if it changes the plan, and the shape of whatever it writes. */
  lemma {:induction false} HandleShapes(s: Session, u: Update, k: nat)
    requires s.turn.Some? && k <= |s.rows| && ShapedFrom(s.rows, k)
    ensures var t := Handle(s, u);
      && t.turn.Some? && s.rows <= t.rows && ShapedFrom(t.rows, k)
      && t.plan == (if u.PlanUpdate? then u.entries else s.plan)
      && PlansIn(t.rows) == PlansIn(s.rows)
         + if u.PlanUpdate? && u.entries != s.plan then [PlanRow(u.entries)] else []
  {
    hide Flush, PlansIn, ApplyUpdate, Announced, Put, Get;
    assert PlansIn(s.rows) + [] == PlansIn(s.rows);
    match u
    case ToolCall(_, _, _, _, _, _, _) => FlushShapes(s);
    case ToolUpdate(id, _, _, _, _, _, _, _) =>
      var tool := ApplyUpdate(match Get(s.turn.value.tools, id) case None => LAZY case Some(t) => t, u);
      AppendPlan(s.rows, ToolRow(id, tool.(emitted := true)));
    case PlanUpdate(entries) =>
      if entries != s.plan {
        FlushShapes(s.(plan := entries));
        var f := Flush(s.(plan := entries));
        AppendPlan(f.rows, PlanRow(entries));
        assert (f.rows + [PlanRow(entries)])[..|s.rows|] == f.rows[..|s.rows|] == s.rows;
        assert ShapedFrom(f.rows + [PlanRow(entries)], k);
      }
    case _ =>
  }

  lemma {:induction false} AllShaped(s: Session, us: seq<Update>)
    requires Fresh(s)
    ensures var t := HandleAll(s, us);
      && t.turn.Some? && s.rows <= t.rows && ShapedFrom(t.rows, |s.rows|) && t.plan == PlanAfter(s.plan, us)
      && PlansIn(t.rows) == PlansIn(s.rows) + PlanRows(s.plan, us)
    decreases |us|
  {
    hide Handle, PlansIn;
    if us == [] {
      assert PlansIn(s.rows) + [] == PlansIn(s.rows);
    } else {
      var n := |us| - 1;
      AllShaped(s, us[..n]);
      HandleShapes(HandleAll(s, us[..n]), us[n], |s.rows|);
    }
  }

  lemma {:induction false} NoPlans(rows: seq<Row>, more: seq<Row>)
    requires forall i :: 0 <= i < |more| ==> !more[i].PlanRow?
    ensures PlansIn(rows + more) == PlansIn(rows)
    decreases |more|
  {
    if more == [] {
      assert rows + more == rows;
    } else {
      assert (rows + more)[..|rows + more| - 1] == rows + more[..|more| - 1];
      NoPlans(rows, more[..|more| - 1]);
    }
  }

  lemma {:induction false} FinalShapes(s: Session, r: Response, k: nat)
    requires s.turn.Some? && k <= |s.rows| && ShapedFrom(s.rows, k)
    ensures var f := Finalize(s, r);
      s.rows <= f.rows && ShapedFrom(f.rows, k) && f.plan == s.plan && PlansIn(f.rows) == PlansIn(s.rows)
  {
    hide PlansIn, OpenRows, Flush;
    var open := OpenRows(s.turn.value.tools);
    OpenRowsAreTools(s.turn.value.tools);
    NoPlans(s.rows, open);
    var o := s.(rows := s.rows + open);
    assert forall i :: |s.rows| <= i < |o.rows| ==> o.rows[i] == open[i - |s.rows|];
    FlushShapes(o);
    var g := Flush(o);
    NoPlans(g.rows, ResultOf(g.rows, r));
  }

  /** The plan rows of a finished turn are the plans sent that differed from the one in force, in order; the plan is
      the last one sent; and every assistant row holds a thinking block, a text block or both in that order, none
      of them empty. */
  lemma {:induction false} PlanAndTextRowsHold(s: Session, us: seq<Update>, r: Response)
    requires Fresh(s)
    ensures var f := Finalize(HandleAll(s, us), r);
      && s.rows <= f.rows && ShapedFrom(f.rows, |s.rows|) && f.plan == PlanAfter(s.plan, us)
      && PlansIn(f.rows) == PlansIn(s.rows) + PlanRows(s.plan, us)
  {
    hide Finalize, HandleAll, PlansIn, PlanRows, PlanAfter;
    AllShaped(s, us);
    FinalShapes(HandleAll(s, us), r, |s.rows|);
  }

  // ---- the result row ----

  function ResultsIn(rows: seq<Row>): nat {
    if rows == [] then 0 else ResultsIn(rows[..|rows| - 1]) + if rows[|rows| - 1].ResultRow? then 1 else 0
  }

  lemma {:induction false} NoResults(rows: seq<Row>, more: seq<Row>)
    requires forall i :: 0 <= i < |more| ==> !more[i].ResultRow?
    ensures ResultsIn(rows + more) == ResultsIn(rows)
    decreases |more|
  {
    if more == [] {
      assert rows + more == rows;
    } else {
      assert (rows + more)[..|rows + more| - 1] == rows + more[..|more| - 1];
      NoResults(rows, more[..|more| - 1]);
    }
  }

  lemma {:induction false} HandleResults(s: Session, u: Update)
    requires s.turn.Some?
    ensures Handle(s, u).turn.Some? && s.rows <= Handle(s, u).rows && ResultsIn(Handle(s, u).rows) == ResultsIn(s.rows)
  {
    hide ResultsIn, ApplyUpdate, Announced, Put, Get;
    var more := Handle(s, u).rows[|s.rows|..];
    assert s.rows + more == Handle(s, u).rows;
    NoResults(s.rows, more);
  }

  lemma {:induction false} AllResults(s: Session, us: seq<Update>)
    requires Fresh(s)
    ensures var t := HandleAll(s, us); t.turn.Some? && s.rows <= t.rows && ResultsIn(t.rows) == ResultsIn(s.rows)
    decreases |us|
  {
    hide Handle, ResultsIn;
    if us != [] {
      AllResults(s, us[..|us| - 1]);
      HandleResults(HandleAll(s, us[..|us| - 1]), us[|us| - 1]);
    }
  }

  /** How a turn ends: with an error row that carries the message; with a row that gives the stop reason, unless the
      transcript ends in one already; or without any when another client holds the session. */
  lemma {:induction false} ResultRowEnds(s: Session, us: seq<Update>, r: Response)
    requires Fresh(s)
    ensures var f := Finalize(HandleAll(s, us), r);
      var last := if f.rows == [] then PlanRow([]) else f.rows[|f.rows| - 1];
      match r
      case Failed(message) =>
        && last == ResultRow("error", if message != "" then message else "ACP turn failed")
        && ResultsIn(f.rows) == ResultsIn(s.rows) + 1
      case Ok(stop) =>
        && last.ResultRow? && last.subtype == (if stop != "" then stop else "end_turn")
        && (ResultsIn(f.rows) == ResultsIn(s.rows) + 1 || f.rows == s.rows)
      case RemoteBusy => ResultsIn(f.rows) == ResultsIn(s.rows)
  {
    hide *;
    AllResults(s, us);
    var t := HandleAll(s, us);
    FinalRows(t, r);
    var open := OpenRows(t.turn.value.tools);
    var more := if Blocks(t.turn.value) == [] then [] else [Assistant(Blocks(t.turn.value))];
    OpenRowsAreTools(t.turn.value.tools);
    NoResults(t.rows, open);
    NoResults(t.rows + open, more);
    EndsWith(s.rows, t.rows, open, more, r);
  }

  lemma {:induction false} FinalRows(t: Session, r: Response)
    requires t.turn.Some?
    ensures var more := if Blocks(t.turn.value) == [] then [] else [Assistant(Blocks(t.turn.value))];
      var all := t.rows + OpenRows(t.turn.value.tools) + more;
      Finalize(t, r).rows == all + ResultOf(all, r)
  {
    hide OpenRows, Blocks;
  }

  lemma {:induction false} ResultsGrow(rows: seq<Row>, kept: seq<Row>)
    requires rows <= kept
    ensures ResultsIn(rows) <= ResultsIn(kept)
    ensures ResultsIn(kept) == ResultsIn(rows) && |rows| < |kept| ==> !kept[|kept| - 1].ResultRow?
    decreases |kept|
  {
    if |rows| == |kept| {
      assert rows == kept;
    } else {
      ResultsGrow(rows, kept[..|kept| - 1]);
    }
  }

  lemma {:induction false} EndsWith(rows: seq<Row>, kept: seq<Row>, open: seq<Row>, more: seq<Row>, r: Response)
    requires rows <= kept && ResultsIn(kept) == ResultsIn(rows)
    requires forall i :: 0 <= i < |open| ==> open[i].ToolRow?
    requires forall i :: 0 <= i < |more| ==> more[i].Assistant?
    requires ResultsIn(kept + open + more) == ResultsIn(rows)
    ensures var g := kept + open + more;
      var all := g + ResultOf(g, r);
      var last := if all == [] then PlanRow([]) else all[|all| - 1];
      match r
      case Failed(message) =>
        && last == ResultRow("error", if message != "" then message else "ACP turn failed")
        && ResultsIn(all) == ResultsIn(rows) + 1
      case Ok(stop) =>
        && last.ResultRow? && last.subtype == (if stop != "" then stop else "end_turn")
        && (ResultsIn(all) == ResultsIn(rows) + 1 || all == rows)
      case RemoteBusy => ResultsIn(all) == ResultsIn(rows)
  {
    var g := kept + open + more;
    var added := ResultOf(g, r);
    ResultsGrow(rows, kept);
    if added == [] {
      assert g + added == g;
      if r.Ok? {
        assert more == [] && open == [];
        assert g == kept == rows;
      }
    } else {
      assert (g + added)[..|g|] == g && |added| == 1;
    }
  }
}
