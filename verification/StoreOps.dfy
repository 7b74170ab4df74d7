/** `CodexConversationStore.hydrate`, `record`, `_delta`, `connect` and `events_since`
    (ccc_server/codex_conversation.py:40-58, 184-376) as functions on the store's contents. */
module StoreOps {
  import opened OrderedDict
  import opened Sequences
  import opened Json
  import opened Clipping
  import opened Conversation
  import opened Eviction

  /** One retained event. The wall-clock stamp is left out. */
  datatype Event = Event(at: nat, name: string, params: Json, threadId: Json, truncated: bool)

  datatype Store = Store(events: seq<Event>, threads: Dict<string, Thread>, generation: string, at: nat,
                         connected: bool)

  /** `Invalid` stands for the ValueErrors the operations raise before touching the store. */
  datatype Outcome = Invalid | Done(accepted: bool, store: Store)

  function Last<T>(s: seq<T>, n: nat): (r: seq<T>)
    ensures |r| <= n
  {
    if |s| <= n then s else s[|s| - n..]
  }

  // ---- one thread: hydrate ----

  predicate Finished(status: Json) {
    status == Str("completed") || status == Str("failed") || status == Str("interrupted")
  }

  /** A snapshot item replaces what the turn holds unless that was written after the read began. */
  function HydrateItem(lim: Limits, t: Thread, turnId: string, item: Json, complete: bool, before: int): Thread {
    if !item.Obj? then t
    else
      var iid := Lookup(item, "id");
      var held := if iid.Str? then Get(ItemsOf(t, turnId), iid.s) else None;
      if held.None? || held.value.at <= before then PutItem(lim, t, turnId, item.fields, complete, before) else t
  }

  function HydrateItems(lim: Limits, t: Thread, turnId: string, items: seq<Json>, complete: bool, before: int): Thread
    decreases |items|
  {
    if items == [] then t
    else HydrateItems(lim, HydrateItem(lim, t, turnId, items[0], complete, before), turnId, items[1..], complete,
      before)
  }

  /** A history row that names a turn. */
  predicate NamesTurn(raw: Json) {
    raw.Obj? && IsId(Lookup(raw, "id"))
  }

  function TurnName(raw: Json): string
    requires NamesTurn(raw)
  {
    Lookup(raw, "id").s
  }

  /** The loop body for one history row, before its trim. */
  function MergeTurn(lim: Limits, t: Thread, raw: Json, before: int): Thread
    requires NamesTurn(raw)
  {
    var turnId := TurnName(raw);
    var (meta, clipped) := Bounded(lim.textLimit, Obj(Without(raw.fields, "items")));
    var u := AssignTurn(Flag(OpenTurn(t, turnId), clipped), turnId, Fields(meta), before, Some(before));
    var items := Or(Lookup(raw, "items"), Arr([]));
    if !items.Arr? then u
    else
      HydrateItems(lim, Flag(u, |items.items| > lim.maxItems), turnId, Last(items.items, lim.maxItems),
                   Finished(Lookup(raw, "status")), before)
  }

  /** A row whose items are not a list skips the trim at the end of the loop body. */
  predicate SkipsTrim(raw: Json) {
    !Or(Lookup(raw, "items"), Arr([])).Arr?
  }

  function HydrateTurns(lim: Limits, t: Thread, rows: seq<Json>, before: int): Thread
    decreases |rows|
  {
    if rows == [] then t
    else if !NamesTurn(rows[0]) then HydrateTurns(lim, t, rows[1..], before)
    else
      var u := MergeTurn(lim, t, rows[0], before);
      HydrateTurns(lim, if SkipsTrim(rows[0]) then u else Trim(lim, u), rows[1..], before)
  }

  function HistoryOrder(rows: seq<Json>): seq<string> {
    if rows == [] then []
    else (if NamesTurn(rows[0]) then [TurnName(rows[0])] else []) + HistoryOrder(rows[1..])
  }

  /** `OrderedDict((key, turns[key]) for key in keys if key in turns)`. */
  function Gather(acc: Dict<string, Turn>, keys: seq<string>, turns: Dict<string, Turn>): Dict<string, Turn>
    decreases |keys|
  {
    if keys == [] then acc
    else
      match Get(turns, keys[0])
      case None => Gather(acc, keys[1..], turns)
      case Some(turn) => Gather(Put(acc, keys[0], turn), keys[1..], turns)
  }

  /** History order first, then the turns the history does not mention. */
  function Reorder(t: Thread, order: seq<string>): Thread {
    t.(turns := Gather([], order + Keys(t.turns), t.turns))
  }

  function HydrateHead(lim: Limits, t: Thread, head: Dict<string, Json>, overlong: bool, before: int): Thread {
    var (bounded, clipped) := Bounded(lim.textLimit, Obj(head));
    AssignThread(Flag(t, clipped || overlong), Without(Fields(bounded), "turns"), before, Some(before))
  }

  function HydrateThread(lim: Limits, t: Thread, head: Dict<string, Json>, history: seq<Json>, before: int): Thread {
    var u := HydrateHead(lim, t, head, |history| > lim.maxTurns, before);
    var rows := Last(history, lim.maxTurns);
    Trim(lim, Reorder(HydrateTurns(lim, u, rows, before), HistoryOrder(rows)))
  }

  // ---- one thread: record ----

  function Segment(s: string): string {
    if s == "" || s[0] == '/' then "" else [s[0]] + Segment(s[1..])
  }

  predicate Contains(s: string, part: string) {
    StartsWith(s, part) || (s != "" && Contains(s[1..], part))
  }

  function Padded(parts: seq<Json>, n: nat): (r: seq<Json>)
    ensures |r| >= n
    decreases n - |parts|
  {
    if |parts| >= n then parts else Padded(parts + [Str("")], n)
  }

  function PyText(lim: Limits, j: Json): string {
    if j.Str? then j.s else lim.pyStr(j)
  }

  const DELTA_KINDS := ["agentMessage", "plan", "reasoning", "commandExecution", "fileChange", "mcpToolCall"]

  /** The item a delta event builds, or None where `_delta` returns without storing. */
  function DeltaItem(lim: Limits, previous: Option<Item>, iid: string, name: string,
                     p: Json): Option<Dict<string, Json>>
    requires StartsWith(name, "item/")
  {
    var kind := Segment(name[5..]);
    if kind !in DELTA_KINDS then None
    else
      var item := if previous.Some? then Fields(previous.value.value) else [("id", Str(iid)), ("type", Str(kind))];
      var delta := Lookup(p, "delta");
      if name == "item/fileChange/patchUpdated" then
        Some(Put(item, "changes", Lookup(p, "changes", Arr([]))))
      else if delta.Str? then
        if kind == "reasoning" then
          var field := if Contains(name, "summary") then "summary" else "content";
          var index := Lookup(p, "summaryIndex", Lookup(p, "contentIndex", Int(0)));
          if !index.Int? || index.n < 0 || index.n >= 128 then None
          else
            var held := Lookup(Obj(item), field, Arr([]));
            var parts := Padded(Items(held), index.n + 1);
            Some(Put(item, field, Arr(parts[index.n := Str(PyText(lim, parts[index.n]) + delta.s)])))
        else
          var isOutput := name == "item/commandExecution/outputDelta" || name == "item/fileChange/outputDelta";
          var field := if isOutput then "aggregatedOutput" else "text";
          Some(Put(item, field, Str(PyText(lim, Or(Lookup(Obj(item), field), Str(""))) + delta.s)))
      else if kind == "mcpToolCall" then
        Some(Put(item, "progress", Lookup(p, "message", Lookup(p, "progress"))))
      else Some(item)
  }

  function Delta(lim: Limits, t: Thread, turnId: string, name: string, p: Json, at: int): Thread
    requires StartsWith(name, "item/")
  {
    var iid := Or(Lookup(p, "itemId"), Lookup(p, "item_id"));
    if !iid.Str? || iid.s == "" then t
    else
      var previous := Get(ItemsOf(t, turnId), iid.s);
      if previous.Some? && previous.value.complete then t
      else
        match DeltaItem(lim, previous, iid.s, name, p)
        case None => t
        case Some(item) => PutItem(lim, t, turnId, item, false, at)
  }

  function PutItems(lim: Limits, t: Thread, turnId: string, items: seq<Json>, complete: bool, at: int): Thread
    decreases |items|
  {
    if items == [] then t
    else
      PutItems(lim, if items[0].Obj? then PutItem(lim, t, turnId, items[0].fields, complete, at) else t,
               turnId, items[1..], complete, at)
  }

  function ThreadData(p: Json): Json {
    var d := Lookup(p, "thread"); if d.Obj? then d else Obj([])
  }

  function TurnData(p: Json): Json {
    var d := Lookup(p, "turn"); if d.Obj? then d else Obj([])
  }

  function ThreadIdOf(p: Json): Json {
    Or(Or(Lookup(p, "threadId"), Lookup(p, "thread_id")), Lookup(ThreadData(p), "id"))
  }

  function TurnIdOf(p: Json): Json {
    Or(Or(Lookup(p, "turnId"), Lookup(p, "turn_id")), Lookup(TurnData(p), "id"))
  }

  function EventFields(name: string, p: Json): Dict<string, Json> {
    var fields := Without(Fields(ThreadData(p)), "turns");
    if name == "thread/status/changed" then Put(fields, "status", Lookup(p, "status"))
    else if name == "thread/tokenUsage/updated" then Put(fields, "tokenUsage", Lookup(p, "tokenUsage"))
    else if name == "thread/name/updated" then Put(fields, "name", Lookup(p, "threadName", Lookup(p, "name")))
    else if name == "thread/archived" || name == "thread/unarchived" || name == "thread/deleted" then
      Put(Put(fields, "archived", Bool(name == "thread/archived")), "deleted", Bool(name == "thread/deleted"))
    else if StartsWith(name, "thread/goal/") then Put(fields, "goal", Lookup(p, "goal"))
    else fields
  }

  /** The metadata a turn receives from the event. */
  function TurnFields(name: string, p: Json): Dict<string, Json> {
    if name == "turn/started" || name == "turn/completed" then Without(Fields(TurnData(p)), "items")
    else if name == "turn/plan/updated" then [("plan", Lookup(p, "plan")), ("explanation", Lookup(p, "explanation"))]
    else if name == "turn/diff/updated" then [("diff", Lookup(p, "diff"))]
    else []
  }

  /** The items the turn receives from the event. */
  function TurnItems(lim: Limits, t: Thread, turnId: string, name: string, p: Json, at: int): Thread {
    if name == "turn/started" || name == "turn/completed" then
      PutItems(lim, t, turnId, Items(Or(Lookup(TurnData(p), "items"), Arr([]))), name == "turn/completed", at)
    else if name == "item/started" || name == "item/completed" then
      var item := Lookup(p, "item");
      if item.Obj? then PutItem(lim, t, turnId, item.fields, name == "item/completed", at) else t
    else if StartsWith(name, "item/") then Delta(lim, t, turnId, name, p, at)
    else t
  }

  /** What an event does to its thread, before the trim. */
  function MergeEvent(lim: Limits, t: Thread, name: string, p: Json, clipped: bool, at: int): Thread {
    var u := AssignThread(Flag(t, clipped), EventFields(name, p), at, None);
    var turnId := TurnIdOf(p);
    if !IsId(turnId) then u
    else
      var w := AssignTurn(OpenTurn(u, turnId.s), turnId.s, TurnFields(name, p), at, None);
      TurnItems(lim, w, turnId.s, name, p, at)
  }

  // ---- the store ----

  function CapThreads(lim: Limits, threads: Dict<string, Thread>): Dict<string, Thread>
    decreases |threads|
  {
    if |threads| <= lim.maxThreads then threads
    else
      var key := threads[MinAt(threads, ThreadAt)].0;
      DelShrinks(threads, MinAt(threads, ThreadAt));
      CapThreads(lim, Del(threads, key))
  }

  lemma DelShrinks<V>(d: Dict<string, V>, i: nat)
    requires i < |d|
    ensures |Del(d, d[i].0)| == |d| - 1
  {
    GetIndex(d, d[i].0);
    var j := DelParts(d, d[i].0);
  }

  /** `_thread(tid)`: the stored thread, or a new one. */
  function ThreadOrNew(threads: Dict<string, Thread>, tid: string): Thread {
    match Get(threads, tid) case None => NewThread(tid) case Some(t) => t
  }

  /** `_thread` moves its thread to the end; later writes land in place. */
  function Install(threads: Dict<string, Thread>, tid: string, t: Thread): Dict<string, Thread> {
    Del(threads, tid) + [(tid, t)]
  }

  /** `deque(maxlen=...).append`. */
  function Push(lim: Limits, events: seq<Event>, e: Event): seq<Event> {
    Last(events + [e], lim.eventCapacity)
  }

  predicate IsTombstone(threads: Dict<string, Thread>, tid: Json) {
    tid.Str? && match Get(threads, tid.s) case None => false case Some(t) => Deleted(t)
  }

  function NotOf(events: seq<Event>, tid: Json): seq<Event> {
    if events == [] then []
    else (if events[0].threadId != tid then [events[0]] else []) + NotOf(events[1..], tid)
  }

  function TombstoneFields(cwd: Json): Dict<string, Json> {
    [("archived", Bool(false)), ("deleted", Bool(true))] + if cwd.Str? && cwd.s != "" then [("cwd", cwd)] else []
  }

  function HeldCwd(threads: Dict<string, Thread>, tid: string): Json {
    match Get(threads, tid)
    case None => Null
    case Some(t) => match Get(t.meta, "cwd") case None => Null case Some(m) => m.value
  }

  function Tombstone(tid: string, cwd: Json, at: int): Thread {
    AssignThread(NewThread(tid), TombstoneFields(cwd), at, None)
  }

  function DeletedEvent(tid: Json, at: nat): Event {
    Event(at, "thread/deleted", Obj([("threadId", tid)]), tid, false)
  }

  /** The thread table after a deletion: a tombstone replaces the thread. */
  function Bury(lim: Limits, threads: Dict<string, Thread>, tid: string, cwd: Json, at: nat): Dict<string, Thread> {
    CapThreads(lim, Install(threads, tid, Tombstone(tid, cwd, at)))
  }

  function DeleteThread(lim: Limits, s: Store, p: Json, tid: Json): Store
    requires tid.Str?
  {
    var cwd := Or(Lookup(ThreadData(p), "cwd"), HeldCwd(s.threads, tid.s));
    var at := s.at + 1;
    s.(at := at,
       events := Push(lim, NotOf(s.events, tid), DeletedEvent(tid, at)),
       threads := Bury(lim, s.threads, tid.s, cwd, at))
  }

  /** The effect of an event on the thread it names. */
  function RecordThread(lim: Limits, threads: Dict<string, Thread>, tid: string, name: string, p: Json, clipped: bool,
                        at: nat): Dict<string, Thread> {
    var t := Trim(lim, MergeEvent(lim, ThreadOrNew(threads, tid), name, p, clipped, at));
    CapThreads(lim, Install(threads, tid, t))
  }

  function RecordParams(lim: Limits, s: Store, name: string, p: Json, clipped: bool): Store {
    var tid := ThreadIdOf(p);
    if name == "thread/deleted" && IsId(tid) then DeleteThread(lim, s, p, tid)
    else if IsTombstone(s.threads, tid) then s
    else
      var at := s.at + 1;
      var u := s.(at := at, events := Push(lim, s.events, Event(at, name, p, tid, clipped)));
      if !IsId(tid) then u
      else if name == "thread/reverted" then u.(threads := Del(s.threads, tid.s))
      else u.(threads := RecordThread(lim, s.threads, tid.s, name, p, clipped, at))
  }

  function Record(lim: Limits, s: Store, name: string, params: Json): Outcome {
    if !params.Obj? then Done(false, s)
    else if !(1 <= |name| <= 256) then Invalid
    else
      var (p, clipped) := Bounded(lim.textLimit, params);
      Done(true, RecordParams(lim, s, name, p, clipped))
  }

  function Hydrate(lim: Limits, s: Store, snapshot: Json, before: int, generation: Option<string>): Outcome {
    var id := Lookup(snapshot, "id");
    var history := Or(Lookup(snapshot, "turns"), Arr([]));
    if !snapshot.Obj? || !IsId(id) || !history.Arr? then Invalid
    else if generation.Some? && generation.value != s.generation then Done(false, s)
    else if IsTombstone(s.threads, id) then Done(false, s)
    else
      var t := HydrateThread(lim, ThreadOrNew(s.threads, id.s), Without(snapshot.fields, "turns"), history.items,
        before);
      Done(true, s.(threads := CapThreads(lim, Install(s.threads, id.s, t))))
  }

  function Connect(s: Store, generation: string): Outcome {
    if !(1 <= |generation| <= 128) then Invalid
    else if s.generation == generation then Done(true, s.(connected := true))
    else Done(true, Store([], [], generation, 0, true))
  }

  function Disconnect(s: Store, generation: string): Store {
    if s.generation == generation then s.(connected := false) else s
  }

  function Invalidate(s: Store, tid: string): Store {
    s.(threads := Del(s.threads, tid))
  }

  // ---- events_since ----

  datatype Poll = Poll(generation: string, cursor: nat, connected: bool, resync: bool, events: seq<Event>)

  function Oldest(s: Store): nat {
    if s.events == [] then s.at + 1 else s.events[0].at
  }

  /** `not thread_id or not event["thread_id"] or event["thread_id"] == thread_id`; "" is no scope. */
  predicate InScope(e: Event, scope: string) {
    scope == "" || !Truthy(e.threadId) || e.threadId == Str(scope)
  }

  predicate DeletedScope(s: Store, scope: string) {
    scope != "" && IsTombstone(s.threads, Str(scope))
  }

  predicate Gap(s: Store, cursor: int, generation: Option<string>, scope: string) {
    || (generation.Some? && generation.value != s.generation)
    || (cursor < Oldest(s) - 1 && !DeletedScope(s, scope))
    || cursor > s.at
  }

  function After(events: seq<Event>, cursor: int, scope: string): seq<Event> {
    if events == [] then []
    else
      (if events[0].at > cursor && InScope(events[0], scope) then [events[0]] else [])
      + After(events[1..], cursor, scope)
  }

  function EventsSince(s: Store, cursor: int, generation: Option<string>, scope: string): Poll {
    var gap := Gap(s, cursor, generation, scope);
    Poll(s.generation, s.at, s.connected, gap, if gap then [] else After(s.events, cursor, scope))
  }
}
