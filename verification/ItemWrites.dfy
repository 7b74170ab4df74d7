/** What item events write, said by their names and without the code that builds the item
    (ccc_server/codex_conversation.py:167-182, 305-351). */
module ItemWrites {
  import opened OrderedDict
  import opened Sequences
  import opened Json
  import opened Clipping
  import opened Conversation
  import opened Eviction
  import opened StoreOps
  import opened StoreInvariant
  import opened EvictionOrder
  import opened HydrateRace
  import opened Provenance
  import opened StoreHistory
  import opened DeltaText
  import opened EventWrites

  // ---- merging, key by key ----

  lemma {:induction false} MergeGet(a: Dict<string, Json>, b: Dict<string, Json>, k: string)
    requires WellFormedFields(b)
    ensures Get(Merge(a, b), k) == if Has(b, k) then Get(b, k) else Get(a, k)
    decreases |b|
  {
    if b != [] {
      GetPut(a, b[0].0, b[0].1, k);
      MergeGet(Put(a, b[0].0, b[0].1), b[1..], k);
    }
  }

  /** Objects without repeated or overlong keys, all the way down. */
  predicate Sound(fields: Dict<string, Json>) {
    WellFormedFields(fields) && KeysShortFields(fields)
  }

  lemma {:induction false} MergeSound(a: Dict<string, Json>, b: Dict<string, Json>)
    requires Sound(a) && Sound(b)
    ensures Sound(Merge(a, b))
    decreases |b|
  {
    if b != [] {
      PutWellFormedJson(a, b[0].0, b[0].1);
      PutCosts(a, b[0].0, b[0].1);
      MergeSound(Put(a, b[0].0, b[0].1), b[1..]);
    }
  }

  // ---- storing one item ----

  /** An object without repeated or overlong keys, and its recorded size is that of its printed form. */
  ghost predicate SoundItem(held: Option<Item>) {
    held.Some? ==>
      && held.value.value.Obj? && Sound(held.value.value.fields)
      && held.value.size == DumpLen(held.value.value) + 64
  }

  /** What an item holds under a key, if it is there. */
  function ItemKey(held: Option<Item>, k: string): Option<Json> {
    if held.Some? then Get(Fields(held.value.value), k) else None
  }

  /** A bounded copy of an object that holds under each key what `keys` says. */
  ghost predicate Copies(limit: nat, value: Json, keys: string -> Option<Json>) {
    exists fields: Dict<string, Json> ::
      Sound(fields) && (forall k :: Get(fields, k) == keys(k)) && value == Bounded(limit, Obj(fields)).0
  }

  /** A copy that cut nothing holds exactly that. */
  lemma {:induction false} UncutCopy(limit: nat, value: Json, keys: string -> Option<Json>)
    requires Copies(limit, value, keys)
    ensures value.Obj? && Sound(value.fields)
    ensures exists fields: Dict<string, Json> ::
      && value == Bounded(limit, Obj(fields)).0
      && (!Bounded(limit, Obj(fields)).1 ==> forall k :: Get(value.fields, k) == keys(k))
  {
    var fields: Dict<string, Json> :|
      Sound(fields) && (forall k :: Get(fields, k) == keys(k)) && value == Bounded(limit, Obj(fields)).0;
    hide Bounded;
    CopySound(limit, fields);
  }

  lemma {:induction false} CopySound(limit: nat, fields: Dict<string, Json>)
    ensures var (r, clipped) := Bounded(limit, Obj(fields));
      r.Obj? && Sound(r.fields) && (Sound(fields) && !clipped ==> r == Obj(fields))
  {
    BoundedWellFormed(limit, Obj(fields));
    WalkPaid(limit, Obj(fields), 0, Budget(CHAR_BUDGET, NODE_BUDGET, false));
    if Sound(fields) { HonestClipping(limit, Obj(fields)); }
  }

  /** The offered fields over those held. */
  function Over(was: Option<Item>, offered: Dict<string, Json>): string -> Option<Json> {
    k => if Has(offered, k) then Get(offered, k) else ItemKey(was, k)
  }

  /** Storing an item: refused only where it would reopen a completed one, and otherwise a copy of what was offered
      over what was held. */
  lemma {:induction false} ItemTakes(lim: Limits, held: Option<Item>, item: Dict<string, Json>, complete: bool, at: int)
    requires SoundItem(held) && Sound(item) && IsId(Lookup(Obj(item), "id"))
    ensures match NextItem(lim, held, item, complete, at)
      case None => held.Some? && held.value.complete && !complete
      case Some((entry, clipped)) =>
        && !(held.Some? && held.value.complete && !complete)
        && entry.complete == complete && entry.at == at && Copies(lim.textLimit, entry.value, Over(held, item))
  {
    hide Bounded, WellFormedFields, KeysShortFields;
    if !(held.Some? && held.value.complete && !complete) {
      var merged := if held.Some? then Merge(Fields(held.value.value), item) else item;
      if held.Some? {
        MergeSound(Fields(held.value.value), item);
        forall k ensures Get(merged, k) == Over(held, item)(k) {
          MergeGet(Fields(held.value.value), item, k);
        }
      }
      assert Sound(merged) && forall k :: Get(merged, k) == Over(held, item)(k);
    }
  }

  // ---- what is stored is sound ----

  ghost predicate SoundThread(t: Thread) {
    forall q, i :: SoundItem(ItemAtKey(t, q, i))
  }

  lemma {:induction false} PutItemSound(lim: Limits, t: Thread, q: string, item: Dict<string, Json>, complete: bool,
                                       at: int)
    requires SoundThread(t)
    ensures SoundThread(PutItem(lim, t, q, item, complete, at))
  {
    hide Bounded, Merge, Sound, DumpLen;
    var u := PutItem(lim, t, q, item, complete, at);
    var iid := Lookup(Obj(item), "id");
    if Has(t.turns, q) && iid.Str? {
      var turn := Get(t.turns, q).value;
      var held := Get(turn.items, iid.s);
      match NextItem(lim, held, item, complete, at)
      case None =>
      case Some((entry, _)) =>
        CopySound(lim.textLimit, if held.Some? then Merge(Fields(held.value.value), item) else item);
        var next := turn.(items := Put(turn.items, iid.s, entry));
        forall r, i ensures SoundItem(ItemAtKey(u, r, i)) {
          GetPut(t.turns, q, next, r);
          GetPut(turn.items, iid.s, entry, i);
          assert SoundItem(ItemAtKey(t, r, i));
        }
    }
  }

  lemma {:induction false} PutItemsSound(lim: Limits, t: Thread, q: string, items: seq<Json>, complete: bool, at: int)
    requires SoundThread(t)
    ensures SoundThread(PutItems(lim, t, q, items, complete, at))
    decreases |items|
  {
    hide PutItem, SoundThread;
    if items != [] {
      if items[0].Obj? { PutItemSound(lim, t, q, items[0].fields, complete, at); }
      PutItemsSound(lim, if items[0].Obj? then PutItem(lim, t, q, items[0].fields, complete, at) else t, q, items[1..],
        complete, at);
    }
  }

  lemma {:induction false} HydrateItemsSound(lim: Limits, t: Thread, q: string, items: seq<Json>, complete: bool,
                                             b: int)
    requires SoundThread(t)
    ensures SoundThread(HydrateItems(lim, t, q, items, complete, b))
    decreases |items|
  {
    hide PutItem, SoundThread;
    if items != [] {
      if items[0].Obj? { PutItemSound(lim, t, q, items[0].fields, complete, b); }
      HydrateItemsSound(lim, HydrateItem(lim, t, q, items[0], complete, b), q, items[1..], complete, b);
    }
  }

  lemma {:induction false} SameItemsSound(t: Thread, u: Thread)
    requires SoundThread(t) && forall r :: ItemsOf(u, r) == ItemsOf(t, r)
    ensures SoundThread(u)
  {
    forall q, i ensures SoundItem(ItemAtKey(u, q, i)) {
      assert ItemAtKey(u, q, i) == ItemAtKey(t, q, i);
    }
  }

  lemma {:induction false} SubSound(u: Thread, t: Thread)
    requires SoundThread(t) && SubThread(u, t)
    ensures SoundThread(u)
  {
    forall q, i ensures SoundItem(ItemAtKey(u, q, i)) {
      assert GoneOrSame(ItemAtKey(u, q, i), ItemAtKey(t, q, i)) && SoundItem(ItemAtKey(t, q, i));
    }
  }

  lemma {:induction false} TurnItemsSound(lim: Limits, t: Thread, q: string, name: string, p: Json, at: int)
    requires SoundThread(t)
    ensures SoundThread(TurnItems(lim, t, q, name, p, at))
  {
    hide PutItem, PutItems, DeltaItem, SoundThread;
    PutItemsSound(lim, t, q, Items(Or(Lookup(TurnData(p), "items"), Arr([]))), name == "turn/completed", at);
    var item := Lookup(p, "item");
    if item.Obj? { PutItemSound(lim, t, q, item.fields, name == "item/completed", at); }
    if StartsWith(name, "item/") {
      var iid := Or(Lookup(p, "itemId"), Lookup(p, "item_id"));
      if iid.Str? {
        match DeltaItem(lim, Get(ItemsOf(t, q), iid.s), iid.s, name, p)
        case None =>
        case Some(delta) => PutItemSound(lim, t, q, delta, false, at);
      }
    }
  }

  /** The thread an event's items are stored in: the items it held, in a turn that exists. */
  function Ready(t: Thread, name: string, p: Json, clipped: bool, at: int, q: string): Thread {
    AssignTurn(OpenTurn(AssignThread(Flag(t, clipped), EventFields(name, p), at, None), q), q, TurnFields(name, p), at,
      None)
  }

  lemma {:induction false} ReadyItems(t: Thread, name: string, p: Json, clipped: bool, at: int, q: string, r: string)
    ensures var w := Ready(t, name, p, clipped, at, q); Has(w.turns, q) && ItemsOf(w, r) == ItemsOf(t, r)
  {
    hide EventFields, TurnFields, AssignAll, OpenTurn, AssignTurn;
    var u := AssignThread(Flag(t, clipped), EventFields(name, p), at, None);
    SameTurns(t, u, r);
    FlagOff(OpenTurn(u, q));
    OpenAssignItems(u, q, TurnFields(name, p), at, None, false, r);
    OpenedHas(u, q, TurnFields(name, p), at);
  }

  lemma {:induction false} EventSound(lim: Limits, t: Thread, name: string, p: Json, clipped: bool, at: int)
    requires SoundThread(t)
    ensures SoundThread(MergeEvent(lim, t, name, p, clipped, at))
  {
    hide TurnItems, SoundThread, ItemsOf, TurnIdOf, EventFields, AssignAll, OpenTurn, AssignTurn, TurnFields;
    var u := AssignThread(Flag(t, clipped), EventFields(name, p), at, None);
    forall r ensures ItemsOf(u, r) == ItemsOf(t, r) { SameTurns(t, u, r); }
    SameItemsSound(t, u);
    var q := TurnIdOf(p);
    if IsId(q) {
      var w := Ready(t, name, p, clipped, at, q.s);
      forall r ensures ItemsOf(w, r) == ItemsOf(t, r) { ReadyItems(t, name, p, clipped, at, q.s, r); }
      SameItemsSound(t, w);
      TurnItemsSound(lim, w, q.s, name, p, at);
    }
  }

  lemma {:induction false} RowSound(lim: Limits, t: Thread, raw: Json, b: int)
    requires SoundThread(t) && NamesTurn(raw)
    ensures SoundThread(MergeTurn(lim, t, raw, b))
  {
    hide Bounded, HydrateItems, OpenTurn, AssignTurn, SoundThread, ItemsOf;
    var q := TurnName(raw);
    var (meta, clipped) := Bounded(lim.textLimit, Obj(Without(raw.fields, "items")));
    var u := AssignTurn(Flag(OpenTurn(t, q), clipped), q, Fields(meta), b, Some(b));
    forall r ensures ItemsOf(u, r) == ItemsOf(t, r) {
      OpenAssignItems(t, q, Fields(meta), b, Some(b), clipped, r);
    }
    SameItemsSound(t, u);
    var items := Or(Lookup(raw, "items"), Arr([]));
    if items.Arr? {
      var w := Flag(u, |items.items| > lim.maxItems);
      forall r ensures ItemsOf(w, r) == ItemsOf(u, r) { SameTurns(u, w, r); }
      SameItemsSound(u, w);
      HydrateItemsSound(lim, w, q, Last(items.items, lim.maxItems), Finished(Lookup(raw, "status")), b);
    }
  }

  lemma {:induction false} RowsSound(lim: Limits, tid: string, t: Thread, rows: seq<Json>, b: int)
    requires ThreadOk(tid, t) && SoundThread(t)
    ensures SoundThread(HydrateTurns(lim, t, rows, b)) && ThreadOk(tid, HydrateTurns(lim, t, rows, b))
    decreases |rows|
  {
    hide MergeTurn, Trim, ThreadOk, SubThread, SoundThread;
    if rows != [] {
      if NamesTurn(rows[0]) {
        var u := MergeTurn(lim, t, rows[0], b);
        MergeTurnOk(lim, tid, t, rows[0], b);
        RowSound(lim, t, rows[0], b);
        TrimEstablishes(lim, tid, u);
        TrimOnlyRemoves(lim, tid, u);
        SubSound(Trim(lim, u), u);
        RowsSound(lim, tid, if SkipsTrim(rows[0]) then u else Trim(lim, u), rows[1..], b);
      } else {
        RowsSound(lim, tid, t, rows[1..], b);
      }
    }
  }

  lemma {:induction false} SnapshotSound(lim: Limits, tid: string, t: Thread, head: Dict<string, Json>,
                                         history: seq<Json>, b: int)
    requires ThreadOk(tid, t) && SoundThread(t)
    ensures SoundThread(HydrateThread(lim, t, head, history, b))
  {
    hide Bounded, Trim, ThreadOk, HydrateTurns, HydrateHead, HistoryOrder, SubThread, SoundThread, ItemsOf, Settle,
      Reorder;
    var h := HydrateHead(lim, t, head, |history| > lim.maxTurns, b);
    HeadView(lim, tid, t, head, |history| > lim.maxTurns, b, "");
    forall r ensures ItemsOf(h, r) == ItemsOf(t, r) { SameTurns(t, h, r); }
    SameItemsSound(t, h);
    var rows := Last(history, lim.maxTurns);
    RowsSound(lim, tid, h, rows, b);
    var w := HydrateTurns(lim, h, rows, b);
    var o := Reorder(w, HistoryOrder(rows));
    ReorderOk(tid, w, HistoryOrder(rows));
    ReorderItems(tid, w, HistoryOrder(rows));
    SameItemsSound(w, o);
    TrimOnlyRemoves(lim, tid, o);
    SubSound(Trim(lim, o), o);
  }

  lemma {:induction false} ReorderItems(tid: string, w: Thread, order: seq<string>)
    requires ThreadOk(tid, w)
    ensures forall r :: ItemsOf(Reorder(w, order), r) == ItemsOf(w, r)
  {
    ReorderOk(tid, w, order);
  }

  ghost predicate SoundStore(s: Store) {
    forall tid :: Has(s.threads, tid) ==> SoundThread(Get(s.threads, tid).value)
  }

  lemma {:induction false} CallSound(lim: Limits, s: Store, op: Op)
    requires StoreOk(lim, s) && SoundStore(s)
    ensures SoundStore(Apply(lim, s, op))
  {
    hide Apply, SoundThread, Bounded, MergeEvent, Trim, ThreadOk, HydrateThread, ThreadOrNew, SubThread, Tombstone,
      IsTombstone, ThreadIdOf;
    StoreOkDistinct(lim, s);
    forall tid | Has(Apply(lim, s, op).threads, tid) ensures SoundThread(Get(Apply(lim, s, op).threads, tid).value) {
      ApplyOutcome(lim, s, op, tid);
      if Get(Apply(lim, s, op).threads, tid) != Get(s.threads, tid) {
        ThreadOrNewFits(lim, s, tid);
        ThreadOrNewSound(s, tid);
        var t := ThreadOrNew(s.threads, tid);
        match op
        case OpRecord(name, params) =>
          var (p, clipped) := Bounded(lim.textLimit, params);
          EventSound(lim, t, name, p, clipped, s.at + 1);
          MergeEventOk(lim, tid, t, name, p, clipped, s.at + 1);
          var u := MergeEvent(lim, t, name, p, clipped, s.at + 1);
          TrimOnlyRemoves(lim, tid, u);
          SubSound(Trim(lim, u), u);
          TombstoneSound(tid, BuriedCwd(s, p, tid), s.at + 1);
        case OpHydrate(snapshot, before, _) =>
          SnapshotSound(lim, tid, t, Without(snapshot.fields, "turns"), Items(Or(Lookup(snapshot, "turns"), Arr([]))),
            before);
      }
    }
  }

  lemma {:induction false} ThreadOrNewSound(s: Store, tid: string)
    requires SoundStore(s)
    ensures SoundThread(ThreadOrNew(s.threads, tid))
  {
    if Has(s.threads, tid) {
      assert SoundThread(Get(s.threads, tid).value);
    }
  }

  lemma {:induction false} TombstoneSound(tid: string, cwd: Json, at: int)
    ensures SoundThread(Tombstone(tid, cwd, at))
  {
  }

  /** In every reachable store, items are objects without repeated or overlong keys. */
  lemma {:induction false} ReachableIsSound(lim: Limits, ops: seq<Op>)
    ensures SoundStore(StoreInvariant.Run(lim, ops))
    decreases |ops|
  {
    hide Apply, SoundThread, StoreOk;
    if ops != [] {
      ReachableIsOk(lim, ops[..|ops| - 1]);
      ReachableIsSound(lim, ops[..|ops| - 1]);
      CallSound(lim, StoreInvariant.Run(lim, ops[..|ops| - 1]), ops[|ops| - 1]);
    }
  }

  // ---- what a delta says about its item ----

  const KINDS := {"agentMessage", "plan", "reasoning", "commandExecution", "fileChange", "mcpToolCall"}

  const PATCH := "item/fileChange/patchUpdated"

  /** Which part of a reasoning text a delta belongs to. */
  function PartIndex(p: Json): Json {
    if Has(Fields(p), "summaryIndex") then Lookup(p, "summaryIndex")
    else if Has(Fields(p), "contentIndex") then Lookup(p, "contentIndex")
    else Int(0)
  }

  /** Deltas of other kinds and reasoning deltas without a part from 0 to 127 write nothing. */
  predicate Ignored(name: string, p: Json)
    requires "item/" <= name
  {
    var kind := Segment(name[5..]);
    || kind !in KINDS
    || (name != PATCH && kind == "reasoning" && Lookup(p, "delta").Str?
        && !(PartIndex(p).Int? && 0 <= PartIndex(p).n < 128))
  }

  /** The parts with `text` appended to one of them; missing parts are empty texts. */
  function Appended(lim: Limits, parts: seq<Json>, index: nat, text: string): seq<Json> {
    seq(if |parts| <= index then index + 1 else |parts|, i requires 0 <= i =>
      var part := if i < |parts| then parts[i] else Str("");
      if i == index then Str(PyText(lim, part) + text) else part)
  }

  /** What key `k` held before: a new item has its name and kind only. */
  function Before(was: Option<Item>, iid: string, kind: string, k: string): Option<Json> {
    if was.Some? then ItemKey(was, k)
    else if k == "id" then Some(Str(iid))
    else if k == "type" then Some(Str(kind))
    else None
  }

  /** What key `k` of the item holds after a delta that is not ignored. */
  function DeltaSays(lim: Limits, was: Option<Item>, iid: string, name: string, p: Json, k: string): Option<Json>
    requires "item/" <= name && !Ignored(name, p)
  {
    var kind, delta := Segment(name[5..]), Lookup(p, "delta");
    var held := Before(was, iid, kind, k);
    if name == PATCH then (if k == "changes" then Some(Lookup(p, "changes", Arr([]))) else held)
    else if delta.Str? && kind == "reasoning" then
      if k == (if Contains(name, "summary") then "summary" else "content") then
        Some(Arr(Appended(lim, if held.Some? then Items(held.value) else [], PartIndex(p).n, delta.s)))
      else held
    else if delta.Str? then
      if k == TextField(name) then
        Some(Str((if held.Some? && Truthy(held.value) then PyText(lim, held.value) else "") + delta.s))
      else held
    else if kind == "mcpToolCall" && k == "progress" then
      Some(if Has(Fields(p), "message") then Lookup(p, "message") else Lookup(p, "progress"))
    else held
  }

  lemma {:induction false} PaddedIs(parts: seq<Json>, n: nat)
    ensures var r := Padded(parts, n);
      && |r| == (if |parts| < n then n else |parts|)
      && forall i :: 0 <= i < |r| ==> r[i] == if i < |parts| then parts[i] else Str("")
    decreases n - |parts|
  {
    if |parts| < n { PaddedIs(parts + [Str("")], n); }
  }

  lemma {:induction false} PartsAppend(lim: Limits, parts: seq<Json>, index: nat, text: string)
    ensures var r := Padded(parts, index + 1);
      r[index := Str(PyText(lim, r[index]) + text)] == Appended(lim, parts, index, text)
  {
    PaddedIs(parts, index + 1);
  }

  lemma {:induction false} SoundItems(items: seq<Json>)
    ensures WellFormedItems(items) && KeysShortItems(items)
      <==> forall i :: 0 <= i < |items| ==> WellFormed(items[i]) && KeysShort(items[i])
  {
    if items != [] { SoundItems(items[1..]); }
  }

  lemma {:induction false} AppendedSound(lim: Limits, parts: seq<Json>, index: nat, text: string)
    requires WellFormedItems(parts) && KeysShortItems(parts)
    ensures WellFormed(Arr(Appended(lim, parts, index, text))) && KeysShort(Arr(Appended(lim, parts, index, text)))
  {
    SoundItems(parts);
    SoundItems(Appended(lim, parts, index, text));
  }

  predicate SoundJson(j: Json) {
    WellFormed(j) && KeysShort(j)
  }

  lemma {:induction false} HeldSound(fields: Dict<string, Json>, k: string)
    requires Sound(fields) && Has(fields, k)
    ensures SoundJson(Get(fields, k).value)
  {
    if fields[0].0 != k { HeldSound(fields[1..], k); }
  }

  lemma {:induction false} LookupSound(j: Json, k: string, other: Json)
    requires SoundJson(j) && SoundJson(other)
    ensures SoundJson(Lookup(j, k, other))
  {
    if Has(Fields(j), k) { HeldSound(Fields(j), k); }
  }

  /** The item a delta starts from. */
  function Start(was: Option<Item>, iid: string, kind: string): Dict<string, Json> {
    if was.Some? then Fields(was.value.value) else [("id", Str(iid)), ("type", Str(kind))]
  }

  lemma {:induction false} StartSays(was: Option<Item>, iid: string, kind: string, k: string)
    requires SoundItem(was)
    ensures Sound(Start(was, iid, kind)) && Get(Start(was, iid, kind), k) == Before(was, iid, kind, k)
  {
    if was.None? {
      PairSays("id", Str(iid), "type", Str(kind), k);
      var f := Start(was, iid, kind);
      assert f[1..] == [("type", Str(kind))] && f[1..][1..] == [];
      assert KeysShortFields(f[1..][1..]) && KeysShortFields(f[1..]) && |"id"| == 2 && |"type"| == 4;
    }
  }

  lemma {:induction false} PutKey(start: Dict<string, Json>, key: string, v: Json, k: string)
    requires Sound(start) && SoundJson(v) && |key| <= MAX_KEY
    ensures Sound(Put(start, key, v)) && Get(Put(start, key, v), k) == if k == key then Some(v) else Get(start, k)
  {
    PutWellFormedJson(start, key, v);
    PutCosts(start, key, v);
    GetPut(start, key, v, k);
  }

  lemma {:induction false} PatchSays(start: Dict<string, Json>, p: Json, k: string)
    requires Sound(start) && SoundJson(p)
    ensures var item := Put(start, "changes", Lookup(p, "changes", Arr([])));
      Sound(item) && Get(item, k) == if k == "changes" then Some(Lookup(p, "changes", Arr([]))) else Get(start, k)
  {
    LookupSound(p, "changes", Arr([]));
    assert |"changes"| == 7;
    PutKey(start, "changes", Lookup(p, "changes", Arr([])), k);
  }

  lemma {:induction false} ProgressSays(start: Dict<string, Json>, p: Json, k: string)
    requires Sound(start) && SoundJson(p)
    ensures var v := if Has(Fields(p), "message") then Lookup(p, "message") else Lookup(p, "progress");
      var item := Put(start, "progress", Lookup(p, "message", Lookup(p, "progress")));
      Sound(item) && Get(item, k) == if k == "progress" then Some(v) else Get(start, k)
  {
    LookupSound(p, "progress", Null);
    LookupSound(p, "message", Lookup(p, "progress"));
    assert |"progress"| == 8;
    PutKey(start, "progress", Lookup(p, "message", Lookup(p, "progress")), k);
  }

  lemma {:induction false} TextSays(lim: Limits, start: Dict<string, Json>, field: string, text: string, k: string)
    requires Sound(start) && |field| <= MAX_KEY
    ensures var held := Get(start, field);
      var v := Str((if held.Some? && Truthy(held.value) then PyText(lim, held.value) else "") + text);
      var item := Put(start, field, Str(PyText(lim, Or(Lookup(Obj(start), field), Str(""))) + text));
      Sound(item) && Get(item, k) == if k == field then Some(v) else Get(start, k)
  {
    PutKey(start, field, Str(PyText(lim, Or(Lookup(Obj(start), field), Str(""))) + text), k);
  }

  lemma {:induction false} PartsSay(lim: Limits, start: Dict<string, Json>, field: string, index: nat, text: string,
                                    k: string)
    requires Sound(start) && |field| <= MAX_KEY
    ensures var held := Get(start, field);
      var v := Arr(Appended(lim, if held.Some? then Items(held.value) else [], index, text));
      var parts := Padded(Items(Lookup(Obj(start), field, Arr([]))), index + 1);
      var item := Put(start, field, Arr(parts[index := Str(PyText(lim, parts[index]) + text)]));
      Sound(item) && Get(item, k) == if k == field then Some(v) else Get(start, k)
  {
    hide Padded, Appended;
    var parts := Items(Lookup(Obj(start), field, Arr([])));
    LookupSound(Obj(start), field, Arr([]));
    PartsAppend(lim, parts, index, text);
    AppendedSound(lim, parts, index, text);
    PutKey(start, field, Arr(Appended(lim, parts, index, text)), k);
  }

  ghost predicate BuildsSaid(lim: Limits, was: Option<Item>, iid: string, name: string, p: Json, k: string)
    requires "item/" <= name && StartsWith(name, "item/")
  {
    match DeltaItem(lim, was, iid, name, p)
    case None => Ignored(name, p)
    case Some(item) => !Ignored(name, p) && Sound(item) && Get(item, k) == DeltaSays(lim, was, iid, name, p, k)
  }

  lemma {:induction false} IndexIs(p: Json)
    ensures Lookup(p, "summaryIndex", Lookup(p, "contentIndex", Int(0))) == PartIndex(p)
  {
  }

  lemma {:induction false} ReasoningBuildsSaid(lim: Limits, was: Option<Item>, iid: string, name: string, p: Json,
                                              k: string)
    requires "item/" <= name && StartsWith(name, "item/") && SoundItem(was) && SoundJson(p)
    requires name != PATCH && Segment(name[5..]) == "reasoning" && Lookup(p, "delta").Str?
    ensures BuildsSaid(lim, was, iid, name, p, k)
  {
    IndexIs(p);
    hide Sound, SoundJson, SoundItem, Get, Put, Padded, Appended, Contains, Segment, Lookup, PartIndex, Before, Fields,
      Items, PyText;
    var field := if Contains(name, "summary") then "summary" else "content";
    StartSays(was, iid, "reasoning", k);
    if PartIndex(p).Int? && 0 <= PartIndex(p).n < 128 {
      StartSays(was, iid, "reasoning", field);
      PartsSay(lim, Start(was, iid, "reasoning"), field, PartIndex(p).n, Lookup(p, "delta").s, k);
    }
  }

  lemma {:induction false} TextBuilt(lim: Limits, was: Option<Item>, iid: string, name: string, p: Json)
    requires StartsWith(name, "item/") && name != PATCH && Segment(name[5..]) != "reasoning"
    requires Lookup(p, "delta").Str?
    ensures var (kind, field) := (Segment(name[5..]), TextField(name));
      var start := Start(was, iid, kind);
      && |field| <= MAX_KEY
      && DeltaItem(lim, was, iid, name, p)
         == if kind !in DELTA_KINDS then None
            else Some(Put(start, field,
                          Str(PyText(lim, Or(Lookup(Obj(start), field), Str(""))) + Lookup(p, "delta").s)))
  {
    hide Put, Padded, Contains, Segment, Lookup, Fields, Items, PyText, Or;
  }

  lemma {:induction false} TextBuildsSaid(lim: Limits, was: Option<Item>, iid: string, name: string, p: Json,
                                         k: string)
    requires "item/" <= name && StartsWith(name, "item/") && SoundItem(was) && SoundJson(p)
    requires name != PATCH && Segment(name[5..]) != "reasoning" && Lookup(p, "delta").Str?
    ensures BuildsSaid(lim, was, iid, name, p, k)
  {
    hide Sound, SoundJson, SoundItem, Get, Put, Padded, Appended, Contains, Segment, Lookup, PartIndex, Before, Fields,
      Items, PyText, DeltaItem, TextField, Start, Or;
    var kind := Segment(name[5..]);
    TextBuilt(lim, was, iid, name, p);
    StartSays(was, iid, kind, k);
    StartSays(was, iid, kind, TextField(name));
    TextSays(lim, Start(was, iid, kind), TextField(name), Lookup(p, "delta").s, k);
    assert kind in KINDS <==> kind in DELTA_KINDS;
  }

  lemma {:induction false} OtherBuildsSaid(lim: Limits, was: Option<Item>, iid: string, name: string, p: Json,
                                          k: string)
    requires "item/" <= name && StartsWith(name, "item/") && SoundItem(was) && SoundJson(p)
    requires name == PATCH || !Lookup(p, "delta").Str?
    ensures BuildsSaid(lim, was, iid, name, p, k)
  {
    hide Sound, SoundJson, SoundItem, Get, Put, Padded, Appended, Contains, Segment, Lookup, PartIndex, Before, Fields,
      Items, PyText;
    var kind := Segment(name[5..]);
    var start := Start(was, iid, kind);
    StartSays(was, iid, kind, k);
    if kind in DELTA_KINDS {
      if name == PATCH {
        PatchSays(start, p, k);
      } else if kind == "mcpToolCall" {
        ProgressSays(start, p, k);
      }
    }
  }

  /** What a delta builds, branch by branch. */
  lemma {:induction false} DeltaBuildsSaid(lim: Limits, was: Option<Item>, iid: string, name: string, p: Json,
                                           k: string)
    requires "item/" <= name && StartsWith(name, "item/") && SoundItem(was) && SoundJson(p)
    ensures BuildsSaid(lim, was, iid, name, p, k)
  {
    hide *;
    if name == PATCH || !Lookup(p, "delta").Str? {
      OtherBuildsSaid(lim, was, iid, name, p, k);
    } else if Segment(name[5..]) == "reasoning" {
      ReasoningBuildsSaid(lim, was, iid, name, p, k);
    } else {
      TextBuildsSaid(lim, was, iid, name, p, k);
    }
  }

  // ---- one call of the store ----

  function HeldItem(threads: Dict<string, Thread>, tid: string, q: string, i: string): Option<Item> {
    match Get(threads, tid) case None => None case Some(t) => ItemAtKey(t, q, i)
  }

  /** The event names turn `q`. */
  predicate OfTurn(p: Json, q: string) {
    TurnNamed(p) == Str(q) && 1 <= |q| <= 256
  }

  lemma {:induction false} ParamsSound(lim: Limits, params: Json)
    ensures SoundJson(Bounded(lim.textLimit, params).0)
  {
    BoundedWellFormed(lim.textLimit, params);
    WalkPaid(lim.textLimit, params, 0, Budget(CHAR_BUDGET, NODE_BUDGET, false));
  }

  /** The event's thread, as its items are concerned: stored from `Ready`, then trimmed. */
  lemma {:induction false} ItemsStored(lim: Limits, s: Store, name: string, params: Json, tid: string, q: string,
                                       i: string)
    requires StoreOk(lim, s) && SoundStore(s) && Speaks(lim, s, name, params, tid)
    requires OfTurn(Bounded(lim.textLimit, params).0, q)
    ensures var (p, clipped) := Bounded(lim.textLimit, params);
      var w := Ready(ThreadOrNew(s.threads, tid), name, p, clipped, s.at + 1, q);
      && Has(w.turns, q) && ItemAtKey(w, q, i) == HeldItem(s.threads, tid, q, i) && SoundItem(ItemAtKey(w, q, i))
      && GoneOrSame(HeldItem(Apply(lim, s, OpRecord(name, params)).threads, tid, q, i),
                    ItemAtKey(TurnItems(lim, w, q, name, p, s.at + 1), q, i))
  {
    SpokenThread(lim, s, name, params, tid);
    ThreadOrNewSound(s, tid);
    var (p, clipped) := Bounded(lim.textLimit, params);
    var t := ThreadOrNew(s.threads, tid);
    NewItems(s, tid, q, i);
    hide Apply, Bounded, Trim, StoreOk, ThreadOk, Speaks, SubThread, NewThread, TurnItems, ThreadOrNew, ItemsOf;
    ReadyItems(t, name, p, clipped, s.at + 1, q, q);
    var u := MergeEvent(lim, t, name, p, clipped, s.at + 1);
    assert u == TurnItems(lim, Ready(t, name, p, clipped, s.at + 1, q), q, name, p, s.at + 1);
    MergeEventOk(lim, tid, t, name, p, clipped, s.at + 1);
    hide MergeEvent, Ready;
    TrimKeepsOrDrops(lim, tid, u, q, i);
    assert SoundItem(ItemAtKey(t, q, i));
  }

  lemma {:induction false} NewItems(s: Store, tid: string, q: string, i: string)
    ensures ItemAtKey(ThreadOrNew(s.threads, tid), q, i) == HeldItem(s.threads, tid, q, i)
  {
    hide AssignAll;
  }

  /** One stored item among the others of its turn. */
  lemma {:induction false} PutOne(lim: Limits, t: Thread, q: string, item: Dict<string, Json>, complete: bool, at: int,
                                 iid: string, i: string)
    requires Has(t.turns, q) && Lookup(Obj(item), "id") == Str(iid)
    ensures ItemAtKey(PutItem(lim, t, q, item, complete, at), q, i)
      == if i != iid then ItemAtKey(t, q, i)
         else match NextItem(lim, ItemAtKey(t, q, i), item, complete, at)
              case None => ItemAtKey(t, q, i) case Some((entry, _)) => Some(entry)
  {
    hide NextItem;
    var turn := Get(t.turns, q).value;
    match NextItem(lim, Get(turn.items, iid), item, complete, at)
    case None =>
    case Some((entry, _)) =>
      GetPut(turn.items, iid, entry, i);
      GetPut(t.turns, q, turn.(items := Put(turn.items, iid, entry)), q);
  }

  lemma {:induction false} WholeItem(lim: Limits, w: Thread, q: string, name: string, p: Json, at: int)
    requires name in {"item/started", "item/completed"} && Lookup(p, "item").Obj?
    ensures TurnItems(lim, w, q, name, p, at)
      == PutItem(lim, w, q, Lookup(p, "item").fields, name == "item/completed", at)
  {
    hide Lookup, PutItem, PutItems, Delta;
    assert |"item/started"| == 12 && |"item/completed"| == 14 && |"turn/started"| == 12 && |"turn/completed"| == 14;
    assert name[0] == 'i' && "turn/started"[0] == 't' && "turn/completed"[0] == 't';
  }

  lemma {:induction false} WholeItemTakes(lim: Limits, w: Thread, q: string, name: string, p: Json, at: int,
                                          iid: string, i: string)
    requires Has(w.turns, q) && SoundItem(ItemAtKey(w, q, i)) && SoundJson(p) && 1 <= |iid| <= 256
    requires name in {"item/started", "item/completed"}
    requires Lookup(p, "item").Obj? && Lookup(Lookup(p, "item"), "id") == Str(iid)
    ensures var was, after := ItemAtKey(w, q, i), ItemAtKey(TurnItems(lim, w, q, name, p, at), q, i);
      if i != iid || (was.Some? && was.value.complete && name == "item/started") then after == was
      else
        && after.Some? && after.value.at == at && (after.value.complete <==> name == "item/completed")
        && Copies(lim.textLimit, after.value.value, Over(was, Lookup(p, "item").fields))
  {
    var item := Lookup(p, "item");
    LookupSound(p, "item", Null);
    hide Bounded, NextItem, Copies, SoundItem, ItemAtKey, Has, Lookup;
    WholeItem(lim, w, q, name, p, at);
    hide TurnItems, PutItem;
    PutOne(lim, w, q, item.fields, name == "item/completed", at, iid, i);
    ItemTakes(lim, ItemAtKey(w, q, i), item.fields, name == "item/completed", at);
  }

  /** An item that starts or completes: its turn's other items stay, and it becomes a copy of what was sent over what
      was held, complete if it completed; a completed item is not started again. */
  lemma {:induction false} ItemEventWrites(lim: Limits, s: Store, name: string, params: Json, tid: string, q: string,
                                           iid: string, i: string)
    requires StoreOk(lim, s) && SoundStore(s) && Speaks(lim, s, name, params, tid)
    requires OfTurn(Bounded(lim.textLimit, params).0, q) && name in {"item/started", "item/completed"}
    requires var item := Lookup(Bounded(lim.textLimit, params).0, "item"); item.Obj? && Lookup(item, "id") == Str(iid)
    requires 1 <= |iid| <= 256
    ensures var item := Lookup(Bounded(lim.textLimit, params).0, "item");
      var was := HeldItem(s.threads, tid, q, i);
      var after := HeldItem(Apply(lim, s, OpRecord(name, params)).threads, tid, q, i);
      after.Some? ==>
        if i != iid || (was.Some? && was.value.complete && name == "item/started") then after == was
        else
          && after.value.at == s.at + 1 && (after.value.complete <==> name == "item/completed")
          && Copies(lim.textLimit, after.value.value, Over(was, item.fields))
  {
    ParamsSound(lim, params);
    ItemsStored(lim, s, name, params, tid, q, i);
    var (p, clipped) := Bounded(lim.textLimit, params);
    var w := Ready(ThreadOrNew(s.threads, tid), name, p, clipped, s.at + 1, q);
    WholeItemTakes(lim, w, q, name, p, s.at + 1, iid, i);
    hide *;
  }

  /** A delta of an item that is named by its id and not complete: its turn's other items stay, and under every key it
      becomes a copy of what the delta says. */
  lemma {:induction false} DeltaEventWrites(lim: Limits, s: Store, name: string, params: Json, tid: string, q: string,
                                           iid: string, i: string)
    requires StoreOk(lim, s) && SoundStore(s) && Speaks(lim, s, name, params, tid)
    requires OfTurn(Bounded(lim.textLimit, params).0, q)
    requires "item/" <= name && name != "item/started" && name != "item/completed"
    requires var p := Bounded(lim.textLimit, params).0; Or(Lookup(p, "itemId"), Lookup(p, "item_id")) == Str(iid)
    requires 1 <= |iid| <= 256
    requires var was := HeldItem(s.threads, tid, q, iid); was.Some? ==> ItemKey(was, "id") == Some(Str(iid))
    ensures var p := Bounded(lim.textLimit, params).0;
      var was := HeldItem(s.threads, tid, q, i);
      var after := HeldItem(Apply(lim, s, OpRecord(name, params)).threads, tid, q, i);
      after.Some? ==>
        if i != iid || Ignored(name, p) || (was.Some? && was.value.complete) then after == was
        else
          && after.value.at == s.at + 1 && !after.value.complete
          && Copies(lim.textLimit, after.value.value, k => DeltaSays(lim, was, iid, name, p, k))
  {
    ParamsSound(lim, params);
    ItemsStored(lim, s, name, params, tid, q, i);
    ItemsStored(lim, s, name, params, tid, q, iid);
    var (p, clipped) := Bounded(lim.textLimit, params);
    var w := Ready(ThreadOrNew(s.threads, tid), name, p, clipped, s.at + 1, q);
    DeltaStored(lim, w, q, name, p, s.at + 1);
    DeltaTakes(lim, w, q, name, p, s.at + 1, iid, i);
    hide *;
  }

  lemma {:induction false} DeltaStored(lim: Limits, w: Thread, q: string, name: string, p: Json, at: int)
    requires "item/" <= name && name != "item/started" && name != "item/completed"
    ensures StartsWith(name, "item/") && TurnItems(lim, w, q, name, p, at) == Delta(lim, w, q, name, p, at)
  {
    hide Delta, Or, Lookup, PutItems, PutItem;
    assert "turn/started"[0] == 't' && "turn/completed"[0] == 't' && "item/"[0] == 'i' && name[0] == 'i';
    assert |"item/"| == 5 && StartsWith(name, "item/");
  }

  lemma {:induction false} DeltaTakes(lim: Limits, w: Thread, q: string, name: string, p: Json, at: int, iid: string,
                                     i: string)
    requires Has(w.turns, q) && SoundItem(ItemAtKey(w, q, iid)) && SoundJson(p) && 1 <= |iid| <= 256
    requires "item/" <= name && StartsWith(name, "item/")
    requires Or(Lookup(p, "itemId"), Lookup(p, "item_id")) == Str(iid)
    requires var was := ItemAtKey(w, q, iid); was.Some? ==> ItemKey(was, "id") == Some(Str(iid))
    ensures var was, after := ItemAtKey(w, q, i), ItemAtKey(Delta(lim, w, q, name, p, at), q, i);
      if i != iid || Ignored(name, p) || (was.Some? && was.value.complete) then after == was
      else
        && after.Some? && after.value.at == at && !after.value.complete
        && Copies(lim.textLimit, after.value.value, k => DeltaSays(lim, was, iid, name, p, k))
  {
    hide SoundJson, Has, DeltaItem, Ignored, DeltaSays, NextItem, Copies, Segment, Lookup, Or, SoundItem, ItemsOf;
    var was := ItemAtKey(w, q, iid);
    if !(was.Some? && was.value.complete) {
      DeltaBuildsSaid(lim, was, iid, name, p, "id");
      match DeltaItem(lim, was, iid, name, p)
      case None =>
      case Some(item) =>
        IdStays(lim, was, iid, name, p, item);
        PutOne(lim, w, q, item, false, at, iid, i);
        ItemTakes(lim, was, item, false, at);
        if i == iid {
          OverIsSaid(lim, was, iid, name, p, item, ItemAtKey(PutItem(lim, w, q, item, false, at), q, i).value.value);
        }
    }
  }

  lemma {:induction false} IdStays(lim: Limits, was: Option<Item>, iid: string, name: string, p: Json,
                                  item: Dict<string, Json>)
    requires "item/" <= name && StartsWith(name, "item/") && !Ignored(name, p)
    requires was.Some? ==> ItemKey(was, "id") == Some(Str(iid))
    requires Get(item, "id") == DeltaSays(lim, was, iid, name, p, "id")
    ensures Lookup(Obj(item), "id") == Str(iid)
  {
    assert |"id"| == 2 && |"changes"| == 7 && |"summary"| == 7 && |"content"| == 7 && |"progress"| == 8;
    assert |"aggregatedOutput"| == 16 && |"text"| == 4;
    hide Appended, Ignored, Contains, Segment;
  }

  lemma {:induction false} OverIsSaid(lim: Limits, was: Option<Item>, iid: string, name: string, p: Json,
                                     item: Dict<string, Json>, value: Json)
    requires "item/" <= name && StartsWith(name, "item/") && SoundItem(was) && SoundJson(p)
    requires DeltaItem(lim, was, iid, name, p) == Some(item) && !Ignored(name, p)
    requires Copies(lim.textLimit, value, Over(was, item))
    ensures Copies(lim.textLimit, value, k => DeltaSays(lim, was, iid, name, p, k))
  {
    forall k ensures Over(was, item)(k) == DeltaSays(lim, was, iid, name, p, k) {
      DeltaBuildsSaid(lim, was, iid, name, p, k);
      hide DeltaItem, SoundJson, SoundItem, Appended, Contains, Segment, Ignored;
    }
    hide DeltaItem, SoundJson, SoundItem, DeltaSays, Ignored, Bounded, Sound, Over;
  }

  // ---- lists of items ----

  /** The list names the item. */
  predicate Lists(items: seq<Json>, i: string) {
    exists j :: 0 <= j < |items| && items[j].Obj? && Lookup(items[j], "id") == Str(i)
  }

  /** What a list of items writes: only items it lists, marked as complete or not and numbered as the list is. */
  ghost predicate Marks(was: Option<Item>, after: Option<Item>, listed: bool, complete: bool, at: int) {
    after != was ==> listed && after.Some? && after.value.complete == complete && after.value.at == at
  }

  lemma {:induction false} PutMarks(lim: Limits, t: Thread, q: string, item: Dict<string, Json>, complete: bool,
                                    at: int, i: string)
    ensures Marks(ItemAtKey(t, q, i), ItemAtKey(PutItem(lim, t, q, item, complete, at), q, i),
                  Lookup(Obj(item), "id") == Str(i), complete, at)
  {
    hide Bounded, Merge;
    var iid := Lookup(Obj(item), "id");
    if Has(t.turns, q) && iid.Str? { PutOne(lim, t, q, item, complete, at, iid.s, i); }
  }

  lemma {:induction false} ListsTail(items: seq<Json>, i: string)
    requires items != []
    ensures Lists(items, i) <==> (items[0].Obj? && Lookup(items[0], "id") == Str(i)) || Lists(items[1..], i)
  {
    if Lists(items[1..], i) {
      var j :| 0 <= j < |items[1..]| && items[1..][j].Obj? && Lookup(items[1..][j], "id") == Str(i);
      assert items[j + 1] == items[1..][j];
    }
    if Lists(items, i) {
      var j :| 0 <= j < |items| && items[j].Obj? && Lookup(items[j], "id") == Str(i);
      assert j > 0 ==> items[1..][j - 1] == items[j];
    }
  }

  lemma {:induction false} PutItemsMark(lim: Limits, t: Thread, q: string, items: seq<Json>, complete: bool, at: int,
                                       i: string)
    ensures Marks(ItemAtKey(t, q, i), ItemAtKey(PutItems(lim, t, q, items, complete, at), q, i), Lists(items, i),
                  complete, at)
    decreases |items|
  {
    hide PutItem, ItemAtKey, Lists, Lookup;
    if items != [] {
      var u := if items[0].Obj? then PutItem(lim, t, q, items[0].fields, complete, at) else t;
      if items[0].Obj? { PutMarks(lim, t, q, items[0].fields, complete, at, i); }
      ListsTail(items, i);
      PutItemsMark(lim, u, q, items[1..], complete, at, i);
    }
  }

  lemma {:induction false} HydrateItemsMark(lim: Limits, t: Thread, q: string, items: seq<Json>, complete: bool, b: int,
                                           i: string)
    ensures Marks(ItemAtKey(t, q, i), ItemAtKey(HydrateItems(lim, t, q, items, complete, b), q, i), Lists(items, i),
                  complete, b)
    decreases |items|
  {
    hide PutItem, ItemAtKey, Lists, Lookup, ItemsOf;
    if items != [] {
      if items[0].Obj? { PutMarks(lim, t, q, items[0].fields, complete, b, i); }
      ListsTail(items, i);
      HydrateItemsMark(lim, HydrateItem(lim, t, q, items[0], complete, b), q, items[1..], complete, b, i);
    }
  }

  /** A history row writes only items among the last it lists, at the snapshot's cursor, and as complete exactly when
      the row's status is one of the three final ones. */
  lemma {:induction false} RowMarks(lim: Limits, t: Thread, raw: Json, b: int, i: string)
    requires NamesTurn(raw)
    ensures var q := TurnName(raw);
      var items := Or(Lookup(raw, "items"), Arr([]));
      Marks(ItemAtKey(t, q, i), ItemAtKey(MergeTurn(lim, t, raw, b), q, i),
        items.Arr? && Lists(Last(items.items, lim.maxItems), i),
        Lookup(raw, "status") in {Str("completed"), Str("failed"), Str("interrupted")}, b)
  {
    hide Bounded, HydrateItems, OpenTurn, AssignTurn, Lists, ItemsOf;
    var q := TurnName(raw);
    var (meta, clipped) := Bounded(lim.textLimit, Obj(Without(raw.fields, "items")));
    var u := AssignTurn(Flag(OpenTurn(t, q), clipped), q, Fields(meta), b, Some(b));
    OpenAssignItems(t, q, Fields(meta), b, Some(b), clipped, q);
    var items := Or(Lookup(raw, "items"), Arr([]));
    if items.Arr? {
      var w := Flag(u, |items.items| > lim.maxItems);
      SameTurns(u, w, q);
      HydrateItemsMark(lim, w, q, Last(items.items, lim.maxItems), Finished(Lookup(raw, "status")), b, i);
    }
  }

  /** The items a turn brings when it starts or completes: complete exactly when the turn completes. */
  lemma {:induction false} TurnEventMarks(lim: Limits, s: Store, name: string, params: Json, tid: string, q: string,
                                          i: string)
    requires StoreOk(lim, s) && SoundStore(s) && Speaks(lim, s, name, params, tid)
    requires OfTurn(Bounded(lim.textLimit, params).0, q) && name in {"turn/started", "turn/completed"}
    ensures var turn := Lookup(Bounded(lim.textLimit, params).0, "turn");
      var after := HeldItem(Apply(lim, s, OpRecord(name, params)).threads, tid, q, i);
      after.Some? ==>
        Marks(HeldItem(s.threads, tid, q, i), after, turn.Obj? && Lists(Items(Lookup(turn, "items")), i),
              name == "turn/completed", s.at + 1)
  {
    ItemsStored(lim, s, name, params, tid, q, i);
    var (p, clipped) := Bounded(lim.textLimit, params);
    ListedMarks(lim, Ready(ThreadOrNew(s.threads, tid), name, p, clipped, s.at + 1, q), q, name, p, s.at + 1, i);
    hide *;
  }

  lemma {:induction false} ListedMarks(lim: Limits, w: Thread, q: string, name: string, p: Json, at: int, i: string)
    requires name in {"turn/started", "turn/completed"}
    ensures var turn := Lookup(p, "turn");
      Marks(ItemAtKey(w, q, i), ItemAtKey(TurnItems(lim, w, q, name, p, at), q, i),
            turn.Obj? && Lists(Items(Lookup(turn, "items")), i), name == "turn/completed", at)
  {
    hide PutItems, ItemAtKey, Lists, Delta, PutItem, Marks;
    var items := Items(Or(Lookup(TurnData(p), "items"), Arr([])));
    PutItemsMark(lim, w, q, items, name == "turn/completed", at, i);
    assert items == if Lookup(p, "turn").Obj? then Items(Lookup(Lookup(p, "turn"), "items")) else [];
    NoneListed(i);
  }

  lemma {:induction false} NoneListed(i: string)
    ensures !Lists([], i)
  {
  }
}
