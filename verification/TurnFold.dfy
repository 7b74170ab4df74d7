/** How a live ACP turn becomes transcript rows (ccc_server/acp.py:1000-1013, 1488-1520, 1587-1747, 2112-2174,
    2623-2660): the prompt's own row, then streamed chunks accumulate, tool calls and plan changes flush them into
    rows, and the prompt's response flushes the rest. History replay, usage figures and bubble previews are left out. */
module TurnFold {
  import opened OrderedDict
  import opened Sequences

  datatype Tool = Tool(title: string, kind: string, status: string, detail: string, input: string, diff: string,
                       output: string, emitted: bool)

  datatype Block = Thinking(text: string) | Text(text: string)

  datatype Row =
    | UserText(text: string)
    | Assistant(blocks: seq<Block>)
    | ToolRow(id: string, tool: Tool)
    | PlanRow(entries: seq<string>)
    | ResultRow(subtype: string, error: string)

  datatype Turn = Turn(text: string, thought: string, all: string, tools: Dict<string, Tool>)

  datatype Session = Session(rows: seq<Row>, plan: seq<string>, turn: Option<Turn>, finalText: string)

  /** A session/update. Empty strings stand for absent fields; `detail` and `input` are what the opaque
      formatters make of the raw input, `output` what they make of the content. */
  datatype Update =
    | MessageChunk(text: string)
    | ThoughtChunk(text: string)
    | ToolCall(id: string, title: string, kind: string, status: string, detail: string, input: string, diff: string)
    | ToolUpdate(id: string, title: string, kind: string, status: string, detail: string, input: string, diff: string,
      output: string)
    | PlanUpdate(entries: seq<string>)
    | Other

  const PREVIEW_MAX := 1200

  predicate Ended(status: string) {
    status == "completed" || status == "failed"
  }

  // ---- the source's helpers ----

  function AppendText(turn: Turn, chunk: string): Turn {
    turn.(text := turn.text + chunk, all := turn.all + chunk)
  }

  function Blocks(turn: Turn): seq<Block> {
    (if turn.thought != "" then [Thinking(turn.thought)] else []) + (if turn.text != "" then [Text(turn.text)] else [])
  }

  /** `_acp_flush_turn_text_unlocked`: at most one row, and both accumulators are reset. */
  function Flush(s: Session): Session {
    match s.turn
    case None => s
    case Some(turn) =>
      s.(rows := s.rows + (if Blocks(turn) == [] then [] else [Assistant(Blocks(turn))]),
         turn := Some(turn.(thought := "", text := "")))
  }

  function Announced(u: Update): Tool
    requires u.ToolCall?
  {
    Tool(OrElse(u.title, OrElse(u.kind, "tool")), u.kind, OrElse(u.status, "running"),
         if u.input != "" then OrElse(u.detail, u.kind) else u.kind, u.input, u.diff, "", false)
  }

  /** `_acp_apply_tool_update`. */
  function ApplyUpdate(tool: Tool, u: Update): Tool
    requires u.ToolUpdate?
  {
    var t := tool.(title := OrElse(u.title, tool.title), kind := OrElse(u.kind, tool.kind),
      status := OrElse(u.status, tool.status),
                   diff := OrElse(u.diff, tool.diff));
    var v := if u.input != "" then t.(detail := u.detail, input := u.input) else t;
    if Ended(u.status) && u.output != ""
      then v.(output := if |u.output| <= PREVIEW_MAX then u.output else u.output[..PREVIEW_MAX]) else v
  }

  const LAZY := Tool("tool", "", "running", "", "", "", "", false)

  /** `_acp_handle_session_update`, live branch. */
  function Handle(s: Session, u: Update): Session {
    match u
    case MessageChunk(chunk) =>
      if s.turn.None? || chunk == "" then s else s.(turn := Some(AppendText(s.turn.value, chunk)))
    case ThoughtChunk(chunk) =>
      if s.turn.None? || chunk == "" then s
        else s.(turn := Some(s.turn.value.(thought := s.turn.value.thought + chunk)))
    case ToolCall(id, _, _, _, _, _, _) =>
      if s.turn.None? then s
      else
        var f := Flush(s);
        f.(turn := Some(f.turn.value.(tools := Put(f.turn.value.tools, id, Announced(u)))))
    case ToolUpdate(id, _, _, status, _, _, _, _) =>
      if s.turn.None? then s
      else
        var turn := s.turn.value;
        var tool := ApplyUpdate(match Get(turn.tools, id) case None => LAZY case Some(t) => t, u);
        if !tool.emitted && Ended(status) then
          var done := tool.(emitted := true);
          s.(rows := s.rows + [ToolRow(id, done)], turn := Some(turn.(tools := Put(turn.tools, id, done))))
        else s.(turn := Some(turn.(tools := Put(turn.tools, id, tool))))
    case PlanUpdate(entries) =>
      if entries == s.plan then s
      else
        var f := Flush(s.(plan := entries));
        f.(rows := f.rows + [PlanRow(entries)])
    case Other => s
  }

  function HandleAll(s: Session, us: seq<Update>): Session {
    if us == [] then s else Handle(HandleAll(s, us[..|us| - 1]), us[|us| - 1])
  }

  /** The rows of the tools still open, in announcement order. */
  function OpenRows(tools: Dict<string, Tool>): seq<Row> {
    if tools == [] then []
    else (if tools[0].1.emitted then [] else [ToolRow(tools[0].0, tools[0].1.(emitted := true))]) + OpenRows(tools[1..])
  }

  datatype Response = Ok(stopReason: string) | Failed(message: string) | RemoteBusy

  function ResultOf(rows: seq<Row>, r: Response): seq<Row> {
    match r
    case Failed(message) => [ResultRow("error", OrElse(message, "ACP turn failed"))]
    case RemoteBusy => []
    case Ok(stop) =>
      var subtype := OrElse(stop, "end_turn");
      if rows != [] && rows[|rows| - 1].ResultRow? && rows[|rows| - 1].subtype == subtype then []
        else [ResultRow(subtype, "")]
  }

  /** `_acp_finalize_turn`. */
  function Finalize(s: Session, r: Response): Session {
    var f := match s.turn
      case None => s
      case Some(turn) =>
        var g := Flush(s.(rows := s.rows + OpenRows(turn.tools)));
        g.(turn := None, finalText := OrElse(turn.all, turn.text));
    f.(rows := f.rows + ResultOf(f.rows, r))
  }

  // ---- what is conserved ----

  function BlockText(bs: seq<Block>): string {
    if bs == [] then "" else (if bs[0].Text? then bs[0].text else "") + BlockText(bs[1..])
  }

  function BlockThought(bs: seq<Block>): string {
    if bs == [] then "" else (if bs[0].Thinking? then bs[0].text else "") + BlockThought(bs[1..])
  }

  function TextOf(rows: seq<Row>): string {
    if rows == [] then ""
    else TextOf(rows[..|rows| - 1]) + (if rows[|rows| - 1].Assistant? then BlockText(rows[|rows| - 1].blocks) else "")
  }

  function ThoughtOf(rows: seq<Row>): string {
    if rows == [] then ""
    else
      ThoughtOf(rows[..|rows| - 1])
      + (if rows[|rows| - 1].Assistant? then BlockThought(rows[|rows| - 1].blocks) else "")
  }

  function Messages(us: seq<Update>): string {
    if us == [] then "" else Messages(us[..|us| - 1]) + (if us[|us| - 1].MessageChunk? then us[|us| - 1].text else "")
  }

  function Thoughts(us: seq<Update>): string {
    if us == [] then "" else Thoughts(us[..|us| - 1]) + (if us[|us| - 1].ThoughtChunk? then us[|us| - 1].text else "")
  }

  lemma AppendRow(rows: seq<Row>, row: Row)
    ensures TextOf(rows + [row]) == TextOf(rows) + (if row.Assistant? then BlockText(row.blocks) else "")
    ensures ThoughtOf(rows + [row]) == ThoughtOf(rows) + (if row.Assistant? then BlockThought(row.blocks) else "")
  {
    assert (rows + [row])[..|rows|] == rows;
  }

  lemma {:induction false} BlocksHold(turn: Turn)
    ensures BlockText(Blocks(turn)) == turn.text && BlockThought(Blocks(turn)) == turn.thought
  {
    hide *;
    BlocksAre(turn);
    TextBlock(turn.text);
    var text: seq<Block> := if turn.text != "" then [Text(turn.text)] else [];
    FirstBlock(Thinking(turn.thought), text);
    NothingAdded(turn.thought);
    NothingBefore(turn.text);
  }

  lemma {:induction false} TextBlock(text: string)
    ensures var bs: seq<Block> := if text != "" then [Text(text)] else [];
      BlockText(bs) == text && BlockThought(bs) == ""
  {
    hide *;
    NoBlocks();
    if text != "" {
      FirstBlock(Text(text), []);
      NothingAdded(text);
      assert [Text(text)] + [] == [Text(text)];
      assert "" + "" == "";
    }
  }

  lemma NothingBefore(s: string)
    ensures "" + s == s
  {
  }

  lemma BlocksAre(turn: Turn)
    ensures var text: seq<Block> := if turn.text != "" then [Text(turn.text)] else [];
      Blocks(turn) == if turn.thought != "" then [Thinking(turn.thought)] + text else text
  {
  }

  lemma NoBlocks()
    ensures BlockText([]) == "" && BlockThought([]) == ""
  {
  }

  lemma FirstBlock(block: Block, rest: seq<Block>)
    ensures BlockText([block] + rest) == (if block.Text? then block.text else "") + BlockText(rest)
    ensures BlockThought([block] + rest) == (if block.Thinking? then block.text else "") + BlockThought(rest)
  {
    assert ([block] + rest)[1..] == rest;
  }

  /** Text shown so far plus text still accumulating; likewise for thoughts. */
  function Carried(s: Session): (string, string) {
    match s.turn
    case None => (TextOf(s.rows), ThoughtOf(s.rows))
    case Some(turn) => (TextOf(s.rows) + turn.text, ThoughtOf(s.rows) + turn.thought)
  }

  lemma FlushCarries(s: Session)
    ensures Carried(Flush(s)) == Carried(s) && s.rows <= Flush(s).rows
    ensures s.turn.Some? ==> TextOf(Flush(s).rows) == Carried(s).0 && ThoughtOf(Flush(s).rows) == Carried(s).1
    ensures s.turn.Some? ==> Flush(s).turn == Some(s.turn.value.(thought := "", text := ""))
  {
    if s.turn.Some? {
      var turn := s.turn.value;
      BlocksHold(turn);
      if Blocks(turn) != [] {
        AppendRow(s.rows, Assistant(Blocks(turn)));
      } else {
        assert s.rows + [] == s.rows;
        assert TextOf(s.rows) + "" == TextOf(s.rows) && ThoughtOf(s.rows) + "" == ThoughtOf(s.rows);
      }
      var r := Flush(s).rows;
      assert TextOf(r) + "" == TextOf(r) && ThoughtOf(r) + "" == ThoughtOf(r);
    }
  }

  /** One update adds exactly its own chunk to what is carried, and only appends rows. */
  lemma HandleCarries(s: Session, u: Update)
    requires s.turn.Some?
    ensures Handle(s, u).turn.Some? && s.rows <= Handle(s, u).rows
    ensures Carried(Handle(s, u)).0 == Carried(s).0 + (if u.MessageChunk? then u.text else "")
    ensures Carried(Handle(s, u)).1 == Carried(s).1 + (if u.ThoughtChunk? then u.text else "")
    ensures Handle(s, u).turn.value.all == s.turn.value.all + (if u.MessageChunk? then u.text else "")
  {
    hide Flush, TextOf, ThoughtOf, ApplyUpdate, Announced;
    assert Carried(s).0 + "" == Carried(s).0 && Carried(s).1 + "" == Carried(s).1;
    match u
    case MessageChunk(chunk) =>
      assert (TextOf(s.rows) + s.turn.value.text) + chunk == TextOf(s.rows) + (s.turn.value.text + chunk);
    case ThoughtChunk(chunk) =>
      assert (ThoughtOf(s.rows) + s.turn.value.thought) + chunk == ThoughtOf(s.rows) + (s.turn.value.thought + chunk);
    case ToolCall(id, _, _, _, _, _, _) => FlushCarries(s);
    case ToolUpdate(id, _, _, status, _, _, _, _) =>
      var tool := ApplyUpdate(match Get(s.turn.value.tools, id) case None => LAZY case Some(t) => t, u);
      AppendRow(s.rows, ToolRow(id, tool.(emitted := true)));
      assert TextOf(s.rows) + "" == TextOf(s.rows) && ThoughtOf(s.rows) + "" == ThoughtOf(s.rows);
    case PlanUpdate(entries) =>
      if entries != s.plan {
        var p := s.(plan := entries);
        FlushCarries(p);
        AppendRow(Flush(p).rows, PlanRow(entries));
        assert TextOf(Flush(p).rows) + "" == TextOf(Flush(p).rows)
          && ThoughtOf(Flush(p).rows) + "" == ThoughtOf(Flush(p).rows);
      }
    case Other =>
  }

  /** The session as the prompt is sent. */
  ghost predicate Fresh(s: Session) {
    s.turn == Some(Turn("", "", "", []))
  }

  lemma {:induction false} AllCarried(s: Session, us: seq<Update>)
    requires Fresh(s)
    ensures var t := HandleAll(s, us);
      && t.turn.Some? && s.rows <= t.rows
      && Carried(t) == (TextOf(s.rows) + Messages(us), ThoughtOf(s.rows) + Thoughts(us))
      && t.turn.value.all == Messages(us)
    decreases |us|
  {
    if us != [] {
      var init, u := us[..|us| - 1], us[|us| - 1];
      AllCarried(s, init);
      HandleCarries(HandleAll(s, init), u);
      assert (TextOf(s.rows) + Messages(init)) + (if u.MessageChunk? then u.text else "")
        == TextOf(s.rows) + (Messages(init) + (if u.MessageChunk? then u.text else ""));
      assert (ThoughtOf(s.rows) + Thoughts(init)) + (if u.ThoughtChunk? then u.text else "")
        == ThoughtOf(s.rows) + (Thoughts(init) + (if u.ThoughtChunk? then u.text else ""));
    }
  }

  lemma {:induction false} SilentRows(rows: seq<Row>, more: seq<Row>)
    requires forall i :: 0 <= i < |more| ==> !more[i].Assistant?
    ensures TextOf(rows + more) == TextOf(rows) && ThoughtOf(rows + more) == ThoughtOf(rows)
    decreases |more|
  {
    hide *;
    if more == [] {
      assert rows + more == rows;
    } else {
      var init, last := more[..|more| - 1], more[|more| - 1];
      assert !last.Assistant?;
      SilentRows(rows, init);
      LastApart(rows, more);
      AppendRow(rows + init, last);
      NothingAdded(TextOf(rows));
      NothingAdded(ThoughtOf(rows));
    }
  }

  lemma LastApart<T>(a: seq<T>, b: seq<T>)
    requires b != []
    ensures a + b == (a + b[..|b| - 1]) + [b[|b| - 1]]
  {
  }

  lemma NothingAdded(s: string)
    ensures s + "" == s
  {
  }

  lemma {:induction false} OpenRowsAreTools(tools: Dict<string, Tool>)
    ensures forall i :: 0 <= i < |OpenRows(tools)| ==> OpenRows(tools)[i].ToolRow?
  {
    if tools != [] {
      OpenRowsAreTools(tools[1..]);
    }
  }

  /** Conservation: a turn ended by its prompt response has emitted text blocks that concatenate to exactly the
      message chunks received, thinking blocks that concatenate to the thought chunks, and hands the same text
      to a synchronous ask. Nothing that was in the transcript changes. */
  lemma TurnConservesStream(s: Session, us: seq<Update>, r: Response)
    requires Fresh(s)
    ensures var f := Finalize(HandleAll(s, us), r);
      && s.rows <= f.rows && f.turn.None?
      && TextOf(f.rows) == TextOf(s.rows) + Messages(us)
      && ThoughtOf(f.rows) == ThoughtOf(s.rows) + Thoughts(us)
      && f.finalText == Messages(us)
  {
    hide Flush, TextOf, ThoughtOf, OpenRows, Messages, Thoughts;
    AllCarried(s, us);
    var t := HandleAll(s, us);
    var turn := t.turn.value;
    OpenRowsAreTools(turn.tools);
    SilentRows(t.rows, OpenRows(turn.tools));
    var o := t.(rows := t.rows + OpenRows(turn.tools));
    FlushCarries(o);
    var g := Flush(o).(turn := None, finalText := OrElse(turn.all, turn.text));
    SilentRows(g.rows, ResultOf(g.rows, r));
    if Messages(us) == "" {
      TextEmpty(s, us);
    }
  }

  /** The session as the prompt is sent: its text is a row, and a turn is open. */
  function Started(s: Session, prompt: string): Session {
    s.(rows := s.rows + [UserText(prompt)], turn := Some(Turn("", "", "", [])))
  }

  /** A whole turn: the transcript goes on with the prompt's row, and then with rows whose text blocks concatenate
      to the message chunks received and whose thinking blocks to the thought chunks. */
  lemma {:induction false} PromptThenStream(s: Session, prompt: string, us: seq<Update>, r: Response)
    ensures var f := Finalize(HandleAll(Started(s, prompt), us), r);
      && s.rows + [UserText(prompt)] <= f.rows && f.turn.None?
      && TextOf(f.rows) == TextOf(s.rows) + Messages(us)
      && ThoughtOf(f.rows) == ThoughtOf(s.rows) + Thoughts(us)
      && f.finalText == Messages(us)
  {
    hide Finalize, HandleAll, TextOf, ThoughtOf;
    SilentRows(s.rows, [UserText(prompt)]);
    TurnConservesStream(Started(s, prompt), us, r);
  }

  /** With no message chunk the accumulator is empty too. */
  lemma TextEmpty(s: Session, us: seq<Update>)
    requires Fresh(s) && Messages(us) == ""
    ensures HandleAll(s, us).turn.Some? && HandleAll(s, us).turn.value.text == ""
  {
    AllCarried(s, us);
    var t := HandleAll(s, us);
    assert TextOf(s.rows) + "" == TextOf(s.rows);
    RowsTextGrows(s.rows, t.rows);
  }

  lemma {:induction false} RowsTextGrows(rows: seq<Row>, more: seq<Row>)
    requires rows <= more
    ensures |TextOf(rows)| <= |TextOf(more)|
    decreases |more|
  {
    if |rows| < |more| {
      RowsTextGrows(rows, more[..|more| - 1]);
    } else {
      assert rows == more;
    }
  }

  // ---- tool rows ----

  function Count(rows: seq<Row>, id: string): nat {
    if rows == [] then 0
    else
      Count(rows[..|rows| - 1], id)
      + (if rows[|rows| - 1].ToolRow? && rows[|rows| - 1].id == id then 1 else 0)
  }

  predicate Emitted(s: Session, id: string) {
    s.turn.Some? && match Get(s.turn.value.tools, id) case None => false case Some(t) => t.emitted
  }

  predicate Known(s: Session, id: string) {
    s.turn.Some? && Has(s.turn.value.tools, id)
  }

  /** Announcements of `id` that arrive when its row was already written. */
  function Repeats(s: Session, us: seq<Update>, id: string): nat {
    if us == [] then 0
    else
      var init, u := us[..|us| - 1], us[|us| - 1];
      Repeats(s, init, id) + if u.ToolCall? && u.id == id && Emitted(HandleAll(s, init), id) then 1 else 0
  }

  predicate Mentions(us: seq<Update>, id: string) {
    exists i :: 0 <= i < |us| && (us[i].ToolCall? || us[i].ToolUpdate?) && us[i].id == id
  }

  lemma AppendCount(rows: seq<Row>, row: Row, id: string)
    ensures Count(rows + [row], id) == Count(rows, id) + if row.ToolRow? && row.id == id then 1 else 0
  {
    assert (rows + [row])[..|rows|] == rows;
  }

  lemma FlushCount(s: Session, id: string)
    ensures Count(Flush(s).rows, id) == Count(s.rows, id)
    ensures s.turn.Some? ==> Flush(s).turn.Some? && Flush(s).turn.value.tools == s.turn.value.tools
  {
    if s.turn.Some? {
      if Blocks(s.turn.value) != [] {
        AppendCount(s.rows, Assistant(Blocks(s.turn.value)), id);
      } else {
        assert s.rows + [] == s.rows;
      }
    }
  }

  /** One update against one tool. */
  lemma HandleTool(s: Session, u: Update, id: string)
    requires s.turn.Some? && Distinct(s.turn.value.tools)
    ensures var t := Handle(s, u);
      && t.turn.Some? && Distinct(t.turn.value.tools)
      && (var mine := (u.ToolCall? || u.ToolUpdate?) && u.id == id;
          && (Known(t, id) <==> Known(s, id) || mine)
          && (Emitted(t, id) <==> if mine && u.ToolCall? then false else Emitted(s, id) || (mine && Ended(u.status)))
          && Count(t.rows, id) == Count(s.rows, id)
             + (if mine && u.ToolUpdate? && Ended(u.status) && !Emitted(s, id) then 1 else 0))
  {
    hide Flush, Count, Distinct, ApplyUpdate, Announced;
    var tools := s.turn.value.tools;
    match u
    case MessageChunk(_) =>
    case ThoughtChunk(_) =>
    case ToolCall(k, _, _, _, _, _, _) =>
      FlushCount(s, id);
      PutDistinct(tools, k, Announced(u));
      GetPut(tools, k, Announced(u), id);
      AnnouncedIsOpen(u);
    case ToolUpdate(k, _, _, status, _, _, _, _) =>
      var was := match Get(tools, k) case None => LAZY case Some(t) => t;
      var tool := ApplyUpdate(was, u);
      UpdateKeepsFlag(was, u);
      PutDistinct(tools, k, tool);
      PutDistinct(tools, k, tool.(emitted := true));
      GetPut(tools, k, tool, id);
      GetPut(tools, k, tool.(emitted := true), id);
      AppendCount(s.rows, ToolRow(k, tool.(emitted := true)), id);
    case PlanUpdate(entries) =>
      if entries != s.plan {
        FlushCount(s.(plan := entries), id);
        AppendCount(Flush(s.(plan := entries)).rows, PlanRow(entries), id);
      }
    case Other =>
  }

  lemma AnnouncedIsOpen(u: Update)
    requires u.ToolCall?
    ensures !Announced(u).emitted
  {
  }

  lemma UpdateKeepsFlag(tool: Tool, u: Update)
    requires u.ToolUpdate?
    ensures ApplyUpdate(tool, u).emitted == tool.emitted
  {
  }

  lemma {:induction false} AllTools(s: Session, us: seq<Update>, id: string)
    requires Fresh(s)
    ensures var t := HandleAll(s, us);
      && t.turn.Some? && Distinct(t.turn.value.tools)
      && (Known(t, id) <==> Mentions(us, id))
      && (Emitted(t, id) ==> Known(t, id))
      && Count(t.rows, id) == Count(s.rows, id) + Repeats(s, us, id) + if Emitted(t, id) then 1 else 0
    decreases |us|
  {
    hide Handle, Count, Distinct, Fresh;
    FreshTools(s);
    if us != [] {
      var init, u := us[..|us| - 1], us[|us| - 1];
      AllTools(s, init, id);
      HandleTool(HandleAll(s, init), u, id);
      if Mentions(us, id) {
        var i :| 0 <= i < |us| && (us[i].ToolCall? || us[i].ToolUpdate?) && us[i].id == id;
        assert i < |us| - 1 ==> init[i] == us[i];
      }
      if Mentions(init, id) {
        var i :| 0 <= i < |init| && (init[i].ToolCall? || init[i].ToolUpdate?) && init[i].id == id;
        assert us[i] == init[i];
      }
    }
  }

  lemma FreshTools(s: Session)
    requires Fresh(s)
    ensures s.turn.Some? && s.turn.value.tools == [] && Distinct(s.turn.value.tools)
  {
  }

  lemma {:induction false} CountConcat(a: seq<Row>, b: seq<Row>, id: string)
    ensures Count(a + b, id) == Count(a, id) + Count(b, id)
    decreases |b|
  {
    if b == [] {
      assert a + b == a;
    } else {
      assert (a + b)[..|a + b| - 1] == a + b[..|b| - 1];
      CountConcat(a, b[..|b| - 1], id);
    }
  }

  lemma {:induction false} OpenRowsCount(tools: Dict<string, Tool>, id: string)
    requires Distinct(tools)
    ensures Count(OpenRows(tools), id) == match Get(tools, id) case None => 0 case Some(t) => if t.emitted then 0 else 1
  {
    if tools != [] {
      OpenRowsCount(tools[1..], id);
      var head: seq<Row> := if tools[0].1.emitted then [] else [ToolRow(tools[0].0, tools[0].1.(emitted := true))];
      CountConcat(head, OpenRows(tools[1..]), id);
      GetIndex(tools[1..], tools[0].0);
      assert head != [] ==> head[..0] == [];
      assert Count(head, id) == if head != [] && tools[0].0 == id then 1 else 0;
    }
  }

  lemma ResultCount(rows: seq<Row>, r: Response, id: string)
    ensures Count(rows + ResultOf(rows, r), id) == Count(rows, id)
  {
    var more := ResultOf(rows, r);
    if more == [] {
      assert rows + more == rows;
    } else {
      assert more == [more[0]];
      AppendCount(rows, more[0], id);
    }
  }

  /** A finished turn has written, for each tool it mentioned, one row, plus one more for every announcement that
      came after the tool's row was already written. */
  lemma ToolRowsCounted(s: Session, us: seq<Update>, r: Response, id: string)
    requires Fresh(s)
    ensures Count(Finalize(HandleAll(s, us), r).rows, id)
      == Count(s.rows, id) + Repeats(s, us, id) + if Mentions(us, id) then 1 else 0
  {
    hide Count, Distinct, Flush, OpenRows, Fresh;
    AllTools(s, us, id);
    var t := HandleAll(s, us);
    var tools := t.turn.value.tools;
    OpenRowsCount(tools, id);
    CountConcat(t.rows, OpenRows(tools), id);
    var o := t.(rows := t.rows + OpenRows(tools));
    FlushCount(o, id);
    ResultCount(Flush(o).rows, r, id);
  }

  // ---- a tool announced once ----

  predicate AnnouncedAt(us: seq<Update>, n: nat, id: string) {
    && n < |us| && us[n].ToolCall? && us[n].id == id
    && forall i :: 0 <= i < |us| && i != n ==> !(us[i].ToolCall? && us[i].id == id)
  }

  predicate EndedBefore(us: seq<Update>, n: nat, id: string) {
    exists i :: 0 <= i < n && i < |us| && us[i].ToolUpdate? && us[i].id == id && Ended(us[i].status)
  }

  lemma {:induction false} EmittedWithoutCall(s: Session, us: seq<Update>, id: string)
    requires Fresh(s) && forall i :: 0 <= i < |us| ==> !(us[i].ToolCall? && us[i].id == id)
    ensures Repeats(s, us, id) == 0
    ensures Emitted(HandleAll(s, us), id) <==> EndedBefore(us, |us|, id)
    decreases |us|
  {
    hide Handle, Count, Distinct, Fresh, Ended;
    FreshTools(s);
    if us != [] {
      var init, u := us[..|us| - 1], us[|us| - 1];
      EmittedWithoutCall(s, init, id);
      AllTools(s, init, id);
      HandleTool(HandleAll(s, init), u, id);
      if EndedBefore(us, |us|, id) {
        var i :| 0 <= i < |us| && us[i].ToolUpdate? && us[i].id == id && Ended(us[i].status);
        assert i < |us| - 1 ==> init[i] == us[i];
      }
      if EndedBefore(init, |init|, id) {
        var i :| 0 <= i < |init| && init[i].ToolUpdate? && init[i].id == id && Ended(init[i].status);
        assert us[i] == init[i];
      }
    }
  }

  lemma {:induction false} RepeatsOnce(s: Session, us: seq<Update>, n: nat, id: string)
    requires Fresh(s) && AnnouncedAt(us, n, id)
    ensures Repeats(s, us, id) == if EndedBefore(us, n, id) then 1 else 0
    decreases |us|
  {
    hide HandleAll, Fresh, Ended;
    var init := us[..|us| - 1];
    if n == |us| - 1 {
      EmittedWithoutCall(s, init, id);
      EndedPrefix(us, init, n, id);
    } else {
      assert forall i :: 0 <= i < |init| ==> init[i] == us[i];
      RepeatsOnce(s, init, n, id);
      EndedPrefix(us, init, n, id);
    }
  }

  lemma EndedPrefix(us: seq<Update>, init: seq<Update>, n: nat, id: string)
    requires us != [] && init == us[..|us| - 1] && n <= |init|
    ensures EndedBefore(us, n, id) <==> EndedBefore(init, n, id)
  {
    hide Ended;
    assert forall i :: 0 <= i < |init| ==> init[i] == us[i];
  }

  /** A tool announced once by `tool_call` gets exactly one finalized row if and only if no update ended it before
      the announcement; an early end writes a row, and the announcement then starts the tool over. */
  lemma OneRowPerTool(s: Session, us: seq<Update>, r: Response, n: nat, id: string)
    requires Fresh(s) && AnnouncedAt(us, n, id)
    ensures var rows := Count(Finalize(HandleAll(s, us), r).rows, id) - Count(s.rows, id);
      (rows == 1 <==> !EndedBefore(us, n, id)) && (EndedBefore(us, n, id) ==> rows == 2)
  {
    hide Finalize, HandleAll, Fresh, Count, Repeats, EndedBefore;
    ToolRowsCounted(s, us, r, id);
    RepeatsOnce(s, us, n, id);
    assert Mentions(us, id);
  }

  lemma {:induction false} HandleAllSplit(s: Session, us: seq<Update>, n: nat)
    requires n <= |us|
    ensures HandleAll(s, us) == HandleAll(HandleAll(s, us[..n]), us[n..])
    decreases |us|
  {
    if n == |us| {
      assert us[..n] == us && us[n..] == [];
    } else {
      var init := us[..|us| - 1];
      HandleAllSplit(s, init, n);
      assert init[..n] == us[..n] && init[n..] == us[n..][..|us[n..]| - 1];
    }
  }

  lemma {:induction false} RowsOnlyGrow(s: Session, us: seq<Update>, r: Response)
    requires s.turn.Some?
    ensures HandleAll(s, us).turn.Some? && s.rows <= HandleAll(s, us).rows
    ensures s.rows <= Finalize(HandleAll(s, us), r).rows
    decreases |us|
  {
    hide Handle, OpenRows, ResultOf;
    if us != [] {
      var init := us[..|us| - 1];
      RowsOnlyGrow(s, init, r);
      HandleCarries(HandleAll(s, init), us[|us| - 1]);
    }
    var t := HandleAll(s, us);
    FlushCarries(t.(rows := t.rows + OpenRows(t.turn.value.tools)));
  }

  /** Stream order: when a tool is announced, every chunk received before is already in rows, and none of the
      tool's rows is among them unless it ended early. Rows are only appended,
        so all that text precedes the tool's row. */
  lemma TextPrecedesTool(s: Session, us: seq<Update>, r: Response, n: nat, id: string)
    requires Fresh(s) && AnnouncedAt(us, n, id) && !EndedBefore(us, n, id)
    ensures var k := |HandleAll(s, us[..n + 1]).rows|;
      var rows := Finalize(HandleAll(s, us), r).rows;
      && k <= |rows|
      && TextOf(rows[..k]) == TextOf(s.rows) + Messages(us[..n])
      && ThoughtOf(rows[..k]) == ThoughtOf(s.rows) + Thoughts(us[..n])
      && Count(rows[..k], id) == Count(s.rows, id)
  {
    hide Flush, Fresh, TextOf, ThoughtOf, Count, Finalize, Messages, Thoughts, Ended, Distinct;
    var before := HandleAll(s, us[..n]);
    AllCarried(s, us[..n]);
    AllTools(s, us[..n], id);
    assert forall i :: 0 <= i < n ==> us[..n][i] == us[i];
    EmittedWithoutCall(s, us[..n], id);
    assert us[..n + 1][..n] == us[..n];
    var at := HandleAll(s, us[..n + 1]);
    assert at == Handle(before, us[n]);
    FlushCarries(before);
    FlushCount(before, id);
    HandleAllSplit(s, us, n + 1);
    RowsOnlyGrow(at, us[n + 1..], r);
    var rows := Finalize(HandleAll(s, us), r).rows;
    assert rows[..|at.rows|] == at.rows;
  }

  // ---- the session dictionary, updated in place ----

  class AcpSession {
    var rows: seq<Row>
    var plan: seq<string>
    var turn: Option<Turn>
    var finalText: string

    function Contents(): Session
      reads this
    {
      Session(rows, plan, turn, finalText)
    }

    constructor ()
      ensures Contents() == Session([], [], None, "")
    {
      rows, plan, turn, finalText := [], [], None, "";
    }

    /** `_acp_emit_event_unlocked`. */
    method Emit(row: Row)
      modifies this`rows
      ensures rows == old(rows) + [row]
    {
      rows := rows + [row];
    }

    /** `activate_turn`, for a session with no turn in progress. */
    method Activate(prompt: string)
      modifies this`rows, this`turn
      ensures Contents() == Started(old(Contents()), prompt)
    {
      turn := Some(Turn("", "", "", []));
      Emit(UserText(prompt));
    }

    method FlushTurnText()
      modifies this`rows, this`turn
      ensures Contents() == Flush(old(Contents()))
    {
      if turn.None? {
        return;
      }
      var blocks: seq<Block> := [];
      if turn.value.thought != "" {
        blocks := blocks + [Thinking(turn.value.thought)];
      }
      if turn.value.text != "" {
        blocks := blocks + [Text(turn.value.text)];
      }
      assert blocks == Blocks(turn.value);
      turn := Some(turn.value.(thought := "", text := ""));
      if blocks != [] {
        Emit(Assistant(blocks));
      } else {
        assert rows + [] == rows;
      }
    }

    method HandleUpdate(u: Update)
      modifies this
      ensures Contents() == Handle(old(Contents()), u)
    {
      match u {
        case MessageChunk(chunk) =>
          if turn.Some? && chunk != "" {
            turn := Some(AppendText(turn.value, chunk));
          }
        case ThoughtChunk(chunk) =>
          if turn.Some? && chunk != "" {
            turn := Some(turn.value.(thought := turn.value.thought + chunk));
          }
        case ToolCall(id, _, _, _, _, _, _) =>
          if turn.Some? {
            FlushTurnText();
            turn := Some(turn.value.(tools := Put(turn.value.tools, id, Announced(u))));
          }
        case ToolUpdate(id, _, _, status, _, _, _, _) =>
          if turn.Some? {
            var tool := ApplyUpdate(match Get(turn.value.tools, id) case None => LAZY case Some(t) => t, u);
            if !tool.emitted && Ended(status) {
              tool := tool.(emitted := true);
              Emit(ToolRow(id, tool));
            }
            turn := Some(turn.value.(tools := Put(turn.value.tools, id, tool)));
          }
        case PlanUpdate(entries) =>
          if entries != plan {
            plan := entries;
            FlushTurnText();
            Emit(PlanRow(entries));
          }
        case Other =>
      }
    }

    method FinalizeTurn(r: Response)
      modifies this
      ensures Contents() == Finalize(old(Contents()), r)
    {
      hide ResultOf;
      if turn.Some? {
        var tools := turn.value.tools;
        ghost var before := rows;
        for i := 0 to |tools|
          invariant rows + OpenRows(tools[i..]) == before + OpenRows(tools)
          invariant turn == old(turn) && plan == old(plan) && finalText == old(finalText)
        {
          assert tools[i..][1..] == tools[i + 1..];
          ghost var rest := OpenRows(tools[i + 1..]);
          if !tools[i].1.emitted {
            assert rows + ([ToolRow(tools[i].0, tools[i].1.(emitted := true))] + rest)
              == (rows + [ToolRow(tools[i].0, tools[i].1.(emitted := true))]) + rest;
            Emit(ToolRow(tools[i].0, tools[i].1.(emitted := true)));
          } else {
            assert rows + ([] + rest) == rows + rest;
          }
        }
        assert rows + OpenRows([]) == rows;
        var text, all := turn.value.text, turn.value.all;
        FlushTurnText();
        finalText := OrElse(all, text);
        turn := None;
      }
      rows := rows + ResultOf(rows, r);
    }
  }
}
