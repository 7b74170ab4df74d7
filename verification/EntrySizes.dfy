/** What the byte count of a stored thread counts: 64, and for every metadata field and item it holds 64 more than
    the bytes of its printed JSON (ccc_server/codex_conversation.py:88-123, 167-182). */
module EntrySizes {
  import opened OrderedDict
  import opened Sequences
  import opened Json
  import opened JsonText
  import opened Clipping
  import opened Conversation
  import opened Eviction
  import opened StoreOps
  import opened StoreInvariant
  import opened EvictionOrder
  import opened HydrateRace
  import opened Provenance
  import opened StoreHistory
  import opened EventWrites
  import opened ItemWrites

  /** A metadata field's recorded size is that of the object `{key: value}`. */
  predicate SizedMeta(k: string, m: Option<Meta>) {
    m.Some? ==> m.value.size == DumpLen(Obj([(k, m.value.value)])) + 64
  }

  ghost predicate SizedThread(t: Thread) {
    && (forall k :: SizedMeta(k, Get(t.meta, k)))
    && (forall q, k :: SizedMeta(k, TurnMeta(t, q, k)))
  }

  lemma {:induction false} SettleSized(held: Option<Meta>, k: string, fields: Dict<string, Json>, at: int,
                                       before: Option<int>)
    requires SizedMeta(k, held)
    ensures SizedMeta(k, Settle(held, k, fields, at, before))
    decreases |fields|
  {
    hide DumpLen;
    if fields != [] {
      SettleSized(held, k, fields[1..], at, before);
      SettleSized(Some(Meta(fields[0].1, at, MetaSize(k, fields[0].1))), k, fields[1..], at, before);
    }
  }

  lemma {:induction false} OpenedSized(held: Option<Meta>, q: string, k: string)
    requires SizedMeta(k, held)
    ensures SizedMeta(k, Opened(held, q, k))
  {
    hide DumpLen;
  }

  lemma {:induction false} EventSized(lim: Limits, tid: string, t: Thread, name: string, p: Json, clipped: bool,
                                      at: int)
    requires ThreadOk(tid, t) && SizedThread(t)
    ensures SizedThread(MergeEvent(lim, t, name, p, clipped, at))
  {
    hide MergeEvent, ThreadOk, Settle, SizedMeta, EventFields, TurnFields, TurnMeta, EventTurns;
    var u := MergeEvent(lim, t, name, p, clipped, at);
    forall k ensures SizedMeta(k, Get(u.meta, k)) {
      EventView(lim, tid, t, name, p, clipped, at, "", k);
      SettleSized(Get(t.meta, k), k, EventFields(name, p), at, None);
    }
    forall q, k ensures SizedMeta(k, TurnMeta(u, q, k)) {
      EventView(lim, tid, t, name, p, clipped, at, q, k);
      OpenedSized(TurnMeta(t, q, k), q, k);
      SettleSized(Opened(TurnMeta(t, q, k), q, k), k, TurnFields(name, p), at, None);
    }
  }

  lemma {:induction false} RowSized(lim: Limits, tid: string, t: Thread, raw: Json, b: int)
    requires ThreadOk(tid, t) && SizedThread(t) && NamesTurn(raw)
    ensures SizedThread(MergeTurn(lim, t, raw, b))
  {
    hide MergeTurn, ThreadOk, Settle, SizedMeta, RowFields, TurnMeta;
    var u := MergeTurn(lim, t, raw, b);
    forall k ensures SizedMeta(k, Get(u.meta, k)) {
      MergeTurnView(lim, tid, t, raw, b, "", k);
    }
    forall q, k ensures SizedMeta(k, TurnMeta(u, q, k)) {
      MergeTurnView(lim, tid, t, raw, b, q, k);
      OpenedSized(TurnMeta(t, q, k), q, k);
      SettleSized(Opened(TurnMeta(t, q, k), q, k), k, RowFields(lim, raw), b, Some(b));
    }
  }

  lemma {:induction false} SubSized(u: Thread, t: Thread)
    requires SizedThread(t) && SubThread(u, t)
    ensures SizedThread(u)
  {
    hide SizedMeta;
    forall k ensures SizedMeta(k, Get(u.meta, k)) {
      assert GoneOrSame(Get(u.meta, k), Get(t.meta, k)) && SizedMeta(k, Get(t.meta, k));
      NothingSized(k);
    }
    forall q, k ensures SizedMeta(k, TurnMeta(u, q, k)) {
      assert GoneOrSame(TurnMeta(u, q, k), TurnMeta(t, q, k)) && SizedMeta(k, TurnMeta(t, q, k));
      NothingSized(k);
    }
  }

  lemma {:induction false} NothingSized(k: string)
    ensures SizedMeta(k, None)
  {
  }

  lemma {:induction false} RowsSized(lim: Limits, tid: string, t: Thread, rows: seq<Json>, b: int)
    requires ThreadOk(tid, t) && SizedThread(t)
    ensures SizedThread(HydrateTurns(lim, t, rows, b)) && ThreadOk(tid, HydrateTurns(lim, t, rows, b))
    decreases |rows|
  {
    hide MergeTurn, Trim, ThreadOk, SubThread, SizedThread;
    if rows != [] {
      if NamesTurn(rows[0]) {
        var u := MergeTurn(lim, t, rows[0], b);
        MergeTurnOk(lim, tid, t, rows[0], b);
        RowSized(lim, tid, t, rows[0], b);
        TrimEstablishes(lim, tid, u);
        TrimOnlyRemoves(lim, tid, u);
        SubSized(Trim(lim, u), u);
        RowsSized(lim, tid, if SkipsTrim(rows[0]) then u else Trim(lim, u), rows[1..], b);
      } else {
        RowsSized(lim, tid, t, rows[1..], b);
      }
    }
  }

  lemma {:induction false} SnapshotSized(lim: Limits, tid: string, t: Thread, head: Dict<string, Json>,
                                         history: seq<Json>, b: int)
    requires ThreadOk(tid, t) && SizedThread(t)
    ensures SizedThread(HydrateThread(lim, t, head, history, b))
  {
    hide Bounded, Trim, ThreadOk, HydrateTurns, HydrateHead, HistoryOrder, SubThread, Settle, Reorder, SizedMeta,
      TurnMeta, HeadFields;
    var h := HydrateHead(lim, t, head, |history| > lim.maxTurns, b);
    forall k ensures SizedMeta(k, Get(h.meta, k)) {
      HeadView(lim, tid, t, head, |history| > lim.maxTurns, b, k);
      SettleSized(Get(t.meta, k), k, HeadFields(lim, head), b, Some(b));
    }
    HeadView(lim, tid, t, head, |history| > lim.maxTurns, b, "");
    SameTurnsSized(t, h);
    var rows := Last(history, lim.maxTurns);
    RowsSized(lim, tid, h, rows, b);
    var w := HydrateTurns(lim, h, rows, b);
    var o := Reorder(w, HistoryOrder(rows));
    ReorderOk(tid, w, HistoryOrder(rows));
    ReorderSized(tid, w, HistoryOrder(rows));
    TrimOnlyRemoves(lim, tid, o);
    SubSized(Trim(lim, o), o);
  }

  lemma {:induction false} SameTurnsSized(t: Thread, h: Thread)
    requires SizedThread(t) && h.turns == t.turns && forall k :: SizedMeta(k, Get(h.meta, k))
    ensures SizedThread(h)
  {
    hide SizedMeta;
    forall q, k ensures SizedMeta(k, TurnMeta(h, q, k)) {
      assert TurnMeta(h, q, k) == TurnMeta(t, q, k);
    }
  }

  lemma {:induction false} ReorderSized(tid: string, w: Thread, order: seq<string>)
    requires ThreadOk(tid, w) && SizedThread(w)
    ensures SizedThread(Reorder(w, order))
  {
    hide SizedMeta;
    ReorderOk(tid, w, order);
    forall q, k ensures SizedMeta(k, TurnMeta(Reorder(w, order), q, k)) {
      assert TurnMeta(Reorder(w, order), q, k) == TurnMeta(w, q, k);
    }
  }

  lemma {:induction false} FieldsSized(tid: string, t: Thread, fields: Dict<string, Json>, at: int)
    requires SizedThread(t) && t.turns == []
    ensures SizedThread(AssignThread(t, fields, at, None))
  {
    hide SizedMeta, Settle;
    var u := AssignThread(t, fields, at, None);
    forall k ensures SizedMeta(k, Get(u.meta, k)) {
      AssignSettles(t.bytes, t.meta, fields, at, None, k);
      SettleSized(Get(t.meta, k), k, fields, at, None);
    }
    SameTurnsSized(t, u);
  }

  lemma {:induction false} NewSized(tid: string)
    ensures SizedThread(NewThread(tid))
  {
    assert SizedThread(Thread([], [], false, 64)) by { BlankSized(); }
    hide SizedThread, AssignThread;
    FieldsSized(tid, Thread([], [], false, 64), [("id", Str(tid))], 0);
  }

  lemma {:induction false} BlankSized()
    ensures SizedThread(Thread([], [], false, 64))
  {
  }

  lemma {:induction false} TombstoneSized(tid: string, cwd: Json, at: int)
    ensures SizedThread(Tombstone(tid, cwd, at))
  {
    hide SizedThread;
    NewSized(tid);
    FieldsSized(tid, NewThread(tid), TombstoneFields(cwd), at);
  }

  ghost predicate SizedStore(s: Store) {
    forall tid :: Has(s.threads, tid) ==> SizedThread(Get(s.threads, tid).value)
  }

  lemma {:induction false} CallSized(lim: Limits, s: Store, op: Op)
    requires StoreOk(lim, s) && SizedStore(s)
    ensures SizedStore(Apply(lim, s, op))
  {
    hide Apply, SizedThread, Bounded, MergeEvent, Trim, ThreadOk, HydrateThread, ThreadOrNew, SubThread, Tombstone,
      IsTombstone, ThreadIdOf;
    StoreOkDistinct(lim, s);
    forall tid | Has(Apply(lim, s, op).threads, tid) ensures SizedThread(Get(Apply(lim, s, op).threads, tid).value) {
      ApplyOutcome(lim, s, op, tid);
      if Get(Apply(lim, s, op).threads, tid) != Get(s.threads, tid) {
        ThreadOrNewFits(lim, s, tid);
        ThreadOrNewSized(s, tid);
        var t := ThreadOrNew(s.threads, tid);
        match op
        case OpRecord(name, params) =>
          var (p, clipped) := Bounded(lim.textLimit, params);
          EventSized(lim, tid, t, name, p, clipped, s.at + 1);
          MergeEventOk(lim, tid, t, name, p, clipped, s.at + 1);
          var u := MergeEvent(lim, t, name, p, clipped, s.at + 1);
          TrimOnlyRemoves(lim, tid, u);
          SubSized(Trim(lim, u), u);
          TombstoneSized(tid, BuriedCwd(s, p, tid), s.at + 1);
        case OpHydrate(snapshot, before, _) =>
          SnapshotSized(lim, tid, t, Without(snapshot.fields, "turns"), Items(Or(Lookup(snapshot, "turns"), Arr([]))),
            before);
      }
    }
  }

  lemma {:induction false} ThreadOrNewSized(s: Store, tid: string)
    requires SizedStore(s)
    ensures SizedThread(ThreadOrNew(s.threads, tid))
  {
    hide SizedThread, NewThread;
    NewSized(tid);
    if Has(s.threads, tid) {
      assert SizedThread(Get(s.threads, tid).value);
    }
  }

  lemma {:induction false} ReachableIsSized(lim: Limits, ops: seq<Op>)
    ensures SizedStore(StoreInvariant.Run(lim, ops))
    decreases |ops|
  {
    hide Apply, SizedThread, StoreOk;
    if ops != [] {
      ReachableIsOk(lim, ops[..|ops| - 1]);
      ReachableIsSized(lim, ops[..|ops| - 1]);
      CallSized(lim, StoreInvariant.Run(lim, ops[..|ops| - 1]), ops[|ops| - 1]);
    }
  }

  // ---- adding up ----

  /** The bytes a value takes when printed. */
  function PrintedBytes(j: Json): nat {
    Utf8Len(Printed(j))
  }

  function MetaBytes(meta: Dict<string, Meta>): nat {
    if meta == [] then 0 else 64 + PrintedBytes(Obj([(meta[0].0, meta[0].1.value)])) + MetaBytes(meta[1..])
  }

  function ItemBytes(items: Dict<string, Item>): nat {
    if items == [] then 0 else 64 + PrintedBytes(items[0].1.value) + ItemBytes(items[1..])
  }

  function TurnBytes(turns: Dict<string, Turn>): nat {
    if turns == [] then 0
    else MetaBytes(turns[0].1.meta) + ItemBytes(turns[0].1.items) + TurnBytes(turns[1..])
  }

  /** Numbers that are not integers are spelled in ASCII, as they are in JSON. */
  ghost predicate PlainThread(t: Thread) {
    && (forall k, m :: Get(t.meta, k) == Some(m) ==> PlainNumbers(m.value))
    && (forall q, k, m :: TurnMeta(t, q, k) == Some(m) ==> PlainNumbers(m.value))
    && (forall q, i, m :: ItemAtKey(t, q, i) == Some(m) ==> PlainNumbers(m.value))
  }

  lemma {:induction false} MetaAddsUp(meta: Dict<string, Meta>)
    requires Distinct(meta)
    requires forall i :: 0 <= i < |meta| ==> SizedMeta(meta[i].0, Some(meta[i].1)) && PlainNumbers(meta[i].1.value)
    ensures Sum(meta, MetaCost) == MetaBytes(meta)
  {
    hide DumpLen, Printed, Utf8Len;
    if meta != [] {
      var (k, m) := meta[0];
      assert SizedMeta(k, Some(m));
      assert PlainNumbers(Obj([(k, m.value)])) by { PlainPair(k, m.value); }
      DumpLenIsLength(Obj([(k, m.value)]));
      assert forall i :: 0 <= i < |meta[1..]| ==> meta[1..][i] == meta[i + 1];
      MetaAddsUp(meta[1..]);
    }
  }

  lemma {:induction false} PlainPair(k: string, v: Json)
    requires PlainNumbers(v)
    ensures PlainNumbers(Obj([(k, v)]))
  {
    assert [(k, v)][1..] == [];
  }

  lemma {:induction false} ItemsAddUp(items: Dict<string, Item>)
    requires forall i :: 0 <= i < |items| ==> SoundItem(Some(items[i].1)) && PlainNumbers(items[i].1.value)
    ensures Sum(items, ItemCost) == ItemBytes(items)
  {
    hide DumpLen, Printed, Utf8Len, Sound, PlainNumbers;
    if items != [] {
      assert SoundItem(Some(items[0].1));
      DumpLenIsLength(items[0].1.value);
      assert forall i :: 0 <= i < |items[1..]| ==> items[1..][i] == items[i + 1];
      ItemsAddUp(items[1..]);
    }
  }

  lemma {:induction false} TurnsAddUp(t: Thread, i: nat)
    requires TurnsOk(t.turns) && SizedThread(t) && SoundThread(t) && PlainThread(t) && i <= |t.turns|
    ensures Sum(t.turns[i..], TurnCost) == TurnBytes(t.turns[i..])
    decreases |t.turns| - i
  {
    hide SizedThread, SoundThread, PlainThread, TurnOk, Sum, MetaBytes, ItemBytes;
    if i < |t.turns| {
      var rest := t.turns[i..];
      assert rest[1..] == t.turns[i + 1..] && rest[0] == t.turns[i];
      TurnsAddUp(t, i + 1);
      TurnAddsUp(t, i);
      SumFirst(rest, TurnCost);
    } else {
      NoSum(TurnCost);
      assert t.turns[i..] == [];
    }
  }

  lemma {:induction false} SumFirst<V>(d: Dict<string, V>, f: V -> int)
    requires d != []
    ensures Sum(d, f) == f(d[0].1) + Sum(d[1..], f)
  {
  }

  lemma {:induction false} NoSum<V>(f: V -> int)
    ensures Sum<string, V>([], f) == 0
  {
  }

  lemma {:induction false} TurnAddsUp(t: Thread, i: nat)
    requires TurnsOk(t.turns) && SizedThread(t) && SoundThread(t) && PlainThread(t) && i < |t.turns|
    ensures TurnCost(t.turns[i].1) == MetaBytes(t.turns[i].1.meta) + ItemBytes(t.turns[i].1.items)
  {
    hide Sum, MetaBytes, ItemBytes, SizedMeta, SoundItem, PlainNumbers;
    var (q, turn) := t.turns[i];
    GetAt(t.turns, i);
    assert Has(t.turns, q) && TurnOk(q, turn);
    forall j | 0 <= j < |turn.meta| ensures SizedMeta(turn.meta[j].0, Some(turn.meta[j].1))
      && PlainNumbers(turn.meta[j].1.value) {
      GetAt(turn.meta, j);
      assert TurnMeta(t, q, turn.meta[j].0) == Some(turn.meta[j].1);
      assert SizedMeta(turn.meta[j].0, TurnMeta(t, q, turn.meta[j].0));
    }
    forall j | 0 <= j < |turn.items| ensures SoundItem(Some(turn.items[j].1)) && PlainNumbers(turn.items[j].1.value) {
      GetAt(turn.items, j);
      assert ItemAtKey(t, q, turn.items[j].0) == Some(turn.items[j].1);
      assert SoundItem(ItemAtKey(t, q, turn.items[j].0));
    }
    MetaAddsUp(turn.meta);
    ItemsAddUp(turn.items);
  }

  lemma {:induction false} ThreadAddsUp(tid: string, t: Thread)
    requires ThreadOk(tid, t) && SizedThread(t) && SoundThread(t) && PlainThread(t)
    ensures t.bytes == 64 + MetaBytes(t.meta) + TurnBytes(t.turns)
  {
    hide Sum, MetaBytes, TurnBytes, SizedMeta, PlainNumbers, SoundThread;
    forall j | 0 <= j < |t.meta| ensures SizedMeta(t.meta[j].0, Some(t.meta[j].1)) && PlainNumbers(t.meta[j].1.value) {
      GetAt(t.meta, j);
      assert SizedMeta(t.meta[j].0, Get(t.meta, t.meta[j].0));
    }
    MetaAddsUp(t.meta);
    assert t.turns[0..] == t.turns;
    TurnsAddUp(t, 0);
  }

  /** In every reachable state the byte count of a thread is 64 plus, for every field and item it holds, 64 and the
      UTF-8 length of its printed JSON. */
  lemma {:induction false} ReachableBytes(lim: Limits, ops: seq<Op>, tid: string)
    requires Has(StoreInvariant.Run(lim, ops).threads, tid)
    requires PlainThread(Get(StoreInvariant.Run(lim, ops).threads, tid).value)
    ensures var t := Get(StoreInvariant.Run(lim, ops).threads, tid).value;
      t.bytes == 64 + MetaBytes(t.meta) + TurnBytes(t.turns)
  {
    hide StoreInvariant.Run, SizedThread, SoundThread, PlainThread, MetaBytes, TurnBytes, ThreadOk;
    ReachableIsOk(lim, ops);
    ReachableIsSized(lim, ops);
    ReachableIsSound(lim, ops);
    var s := StoreInvariant.Run(lim, ops);
    assert SizedThread(Get(s.threads, tid).value) && SoundThread(Get(s.threads, tid).value);
    HeldOk(lim, s, tid);
    ThreadAddsUp(tid, Get(s.threads, tid).value);
  }

  lemma {:induction false} HeldOk(lim: Limits, s: Store, tid: string)
    requires StoreOk(lim, s) && Has(s.threads, tid)
    ensures ThreadOk(tid, Get(s.threads, tid).value)
  {
    hide ThreadOk;
  }
}
