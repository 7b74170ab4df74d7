/** The invariant of the conversation store over every run: exact byte accounting, caps,
    budgets and distinct keys, whatever operations are applied in whatever order. */
module StoreInvariant {
  import opened OrderedDict
  import opened Sequences
  import opened Json
  import opened Clipping
  import opened Conversation
  import opened Eviction
  import opened EvictionOrder
  import opened StoreOps

  /** What deletion leaves of a thread; no trim is applied to it. */
  ghost predicate IsRemnant(t: Thread) {
    t.turns == [] && forall k :: Has(t.meta, k) ==> k in ["id", "archived", "deleted", "cwd"]
  }

  ghost predicate StoredOk(lim: Limits, tid: string, t: Thread) {
    ThreadOk(tid, t) && (Trimmed(lim, t) || IsRemnant(t))
  }

  ghost predicate ThreadsOk(lim: Limits, threads: Dict<string, Thread>) {
    Distinct(threads) && forall k :: Has(threads, k) ==> StoredOk(lim, k, Get(threads, k).value)
  }

  ghost predicate TableOk(lim: Limits, threads: Dict<string, Thread>) {
    ThreadsOk(lim, threads) && |threads| <= lim.maxThreads
  }

  ghost predicate StoreOk(lim: Limits, s: Store) {
    TableOk(lim, s.threads)
  }

  // ---- hydrate keeps a thread exact ----

  lemma HydrateItemsOk(lim: Limits, tid: string, t: Thread, turnId: string, items: seq<Json>, complete: bool,
                       before: int)
    requires ThreadOk(tid, t)
    ensures ThreadOk(tid, HydrateItems(lim, t, turnId, items, complete, before))
    decreases |items|
  {
    if items != [] {
      if items[0].Obj? {
        PutItemOk(lim, tid, t, turnId, items[0].fields, complete, before);
      }
      HydrateItemsOk(lim, tid, HydrateItem(lim, t, turnId, items[0], complete, before), turnId, items[1..], complete,
        before);
    }
  }

  lemma MergeTurnOk(lim: Limits, tid: string, t: Thread, raw: Json, before: int)
    requires ThreadOk(tid, t) && NamesTurn(raw)
    ensures ThreadOk(tid, MergeTurn(lim, t, raw, before))
  {
    var turnId := TurnName(raw);
    var (meta, clipped) := Bounded(lim.textLimit, Obj(Without(raw.fields, "items")));
    OpenTurnOk(tid, t, turnId);
    AssignTurnOk(tid, Flag(OpenTurn(t, turnId), clipped), turnId, Fields(meta), before, Some(before));
    var u := AssignTurn(Flag(OpenTurn(t, turnId), clipped), turnId, Fields(meta), before, Some(before));
    var items := Or(Lookup(raw, "items"), Arr([]));
    if items.Arr? {
      HydrateItemsOk(lim, tid, Flag(u, |items.items| > lim.maxItems), turnId, Last(items.items, lim.maxItems),
                     Finished(Lookup(raw, "status")), before);
    }
  }

  lemma HydrateTurnsOk(lim: Limits, tid: string, t: Thread, rows: seq<Json>, before: int)
    requires ThreadOk(tid, t)
    ensures ThreadOk(tid, HydrateTurns(lim, t, rows, before))
    decreases |rows|
  {
    if rows != [] {
      if NamesTurn(rows[0]) {
        MergeTurnOk(lim, tid, t, rows[0], before);
        var u := MergeTurn(lim, t, rows[0], before);
        TrimEstablishes(lim, tid, u);
        HydrateTurnsOk(lim, tid, if SkipsTrim(rows[0]) then u else Trim(lim, u), rows[1..], before);
      } else {
        HydrateTurnsOk(lim, tid, t, rows[1..], before);
      }
    }
  }

  lemma {:induction false} GatherGet(acc: Dict<string, Turn>, keys: seq<string>, turns: Dict<string, Turn>, q: string)
    requires Distinct(acc)
    ensures Distinct(Gather(acc, keys, turns))
    ensures Get(Gather(acc, keys, turns), q) == if q in keys && Has(turns, q) then Get(turns, q) else Get(acc, q)
    decreases |keys|
  {
    if keys != [] {
      match Get(turns, keys[0])
      case None => GatherGet(acc, keys[1..], turns, q);
      case Some(turn) =>
        PutDistinct(acc, keys[0], turn);
        GetPut(acc, keys[0], turn, q);
        GatherGet(Put(acc, keys[0], turn), keys[1..], turns, q);
    }
  }

  /** Two dictionaries with the same lookups hold the same total, in whatever order. */
  lemma {:induction false} SumByLookup<V>(d: Dict<string, V>, e: Dict<string, V>, f: V -> int)
    requires Distinct(d) && Distinct(e) && forall k :: Get(d, k) == Get(e, k)
    ensures Sum(d, f) == Sum(e, f)
    decreases |d|
  {
    if d == [] {
      assert e == [] || Get(d, e[0].0) == Get(e, e[0].0);
    } else {
      var k := d[0].0;
      DelDistinct(e, k);
      SumDel(e, k, f);
      forall q ensures Get(d[1..], q) == Get(Del(e, k), q) {
        GetDel(e, k, q);
        GetIndex(d[1..], k);
        assert Get(d, q) == Get(e, q);
      }
      SumByLookup(d[1..], Del(e, k), f);
    }
  }

  lemma ReorderOk(tid: string, t: Thread, order: seq<string>)
    requires ThreadOk(tid, t)
    ensures ThreadOk(tid, Reorder(t, order))
    ensures forall q :: Get(Reorder(t, order).turns, q) == Get(t.turns, q)
  {
    var r := Reorder(t, order).turns;
    forall q ensures Get(r, q) == Get(t.turns, q) {
      GatherGet([], order + Keys(t.turns), t.turns, q);
      HasKey(t.turns, q);
    }
    GatherGet([], order + Keys(t.turns), t.turns, "");
    forall q | Has(r, q) ensures TurnOk(q, Get(r, q).value) {
      assert Get(r, q) == Get(t.turns, q);
      assert Has(t.turns, q);
    }
    SumByLookup(r, t.turns, TurnCost);
  }

  lemma HydrateThreadOk(lim: Limits, tid: string, t: Thread, head: Dict<string, Json>, history: seq<Json>, before: int)
    requires ThreadOk(tid, t)
    ensures ThreadOk(tid, HydrateThread(lim, t, head, history, before))
      && Trimmed(lim, HydrateThread(lim, t, head, history, before))
  {
    var (bounded, clipped) := Bounded(lim.textLimit, Obj(head));
    AssignThreadOk(tid, Flag(t, clipped || |history| > lim.maxTurns), Without(Fields(bounded), "turns"), before,
      Some(before));
    var u := HydrateHead(lim, t, head, |history| > lim.maxTurns, before);
    var rows := Last(history, lim.maxTurns);
    HydrateTurnsOk(lim, tid, u, rows, before);
    ReorderOk(tid, HydrateTurns(lim, u, rows, before), HistoryOrder(rows));
    TrimEstablishes(lim, tid, Reorder(HydrateTurns(lim, u, rows, before), HistoryOrder(rows)));
  }

  // ---- record keeps a thread exact ----

  lemma PutItemsOk(lim: Limits, tid: string, t: Thread, turnId: string, items: seq<Json>, complete: bool, at: int)
    requires ThreadOk(tid, t)
    ensures ThreadOk(tid, PutItems(lim, t, turnId, items, complete, at))
    decreases |items|
  {
    if items != [] {
      if items[0].Obj? {
        PutItemOk(lim, tid, t, turnId, items[0].fields, complete, at);
        PutItemsOk(lim, tid, PutItem(lim, t, turnId, items[0].fields, complete, at), turnId, items[1..], complete, at);
      } else {
        PutItemsOk(lim, tid, t, turnId, items[1..], complete, at);
      }
    }
  }

  lemma TurnItemsOk(lim: Limits, tid: string, t: Thread, turnId: string, name: string, p: Json, at: int)
    requires ThreadOk(tid, t)
    ensures ThreadOk(tid, TurnItems(lim, t, turnId, name, p, at))
  {
    if name == "turn/started" || name == "turn/completed" {
      PutItemsOk(lim, tid, t, turnId, Items(Or(Lookup(TurnData(p), "items"), Arr([]))), name == "turn/completed", at);
    } else if name == "item/started" || name == "item/completed" {
      var item := Lookup(p, "item");
      if item.Obj? {
        PutItemOk(lim, tid, t, turnId, item.fields, name == "item/completed", at);
      }
    } else if StartsWith(name, "item/") {
      var iid := Or(Lookup(p, "itemId"), Lookup(p, "item_id"));
      if iid.Str? {
        match DeltaItem(lim, Get(ItemsOf(t, turnId), iid.s), iid.s, name, p)
        case None =>
        case Some(item) => PutItemOk(lim, tid, t, turnId, item, false, at);
      }
    }
  }

  lemma MergeEventOk(lim: Limits, tid: string, t: Thread, name: string, p: Json, clipped: bool, at: int)
    requires ThreadOk(tid, t)
    ensures ThreadOk(tid, MergeEvent(lim, t, name, p, clipped, at))
  {
    AssignThreadOk(tid, Flag(t, clipped), EventFields(name, p), at, None);
    var u := AssignThread(Flag(t, clipped), EventFields(name, p), at, None);
    var turnId := TurnIdOf(p);
    if IsId(turnId) {
      OpenTurnOk(tid, u, turnId.s);
      AssignTurnOk(tid, OpenTurn(u, turnId.s), turnId.s, TurnFields(name, p), at, None);
      TurnItemsOk(lim, tid, AssignTurn(OpenTurn(u, turnId.s), turnId.s, TurnFields(name, p), at, None), turnId.s,
        name, p, at);
    }
  }

  lemma {:induction false} AssignAllKeys(bytes: int, meta: Dict<string, Meta>, fields: Dict<string, Json>, at: int,
                                         before: Option<int>, k: string)
    requires Has(AssignAll(bytes, meta, fields, at, before).1, k)
    ensures Has(meta, k) || exists i :: 0 <= i < |fields| && fields[i].0 == k
    decreases |fields|
  {
    if fields != [] {
      var (key, value) := fields[0];
      var next := Assign(meta, key, value, at, before);
      AssignAllKeys(bytes + AssignCost(meta, key, value, before), next, fields[1..], at, before, k);
      if Has(next, k) {
        GetPut(meta, key, Meta(value, at, MetaSize(key, value)), k);
        assert Has(meta, k) || fields[0].0 == k;
      } else {
        var i :| 0 <= i < |fields[1..]| && fields[1..][i].0 == k;
        assert fields[i + 1].0 == k;
      }
    }
  }

  lemma TombstoneKeys(cwd: Json)
    ensures forall i :: 0 <= i < |TombstoneFields(cwd)| ==> TombstoneFields(cwd)[i].0 in ["archived", "deleted", "cwd"]
  {
    var f := TombstoneFields(cwd);
    assert |f| == 2 || (|f| == 3 && f[2].0 == "cwd");
    assert f[0].0 == "archived" && f[1].0 == "deleted";
  }

  lemma NewThreadKeys(tid: string, k: string)
    requires |tid| <= 256 && Has(NewThread(tid).meta, k)
    ensures k == "id"
  {
    FreshIdentity(64, tid);
    var m := NewThread(tid).meta;
    assert |m| == 1 && m[0].0 == "id";
    GetIndex(m, k);
  }

  lemma TombstoneOk(tid: string, cwd: Json, at: int)
    requires |tid| <= 256
    ensures ThreadOk(tid, Tombstone(tid, cwd, at)) && IsRemnant(Tombstone(tid, cwd, at))
  {
    NewThreadOk(tid);
    var t, f := NewThread(tid), TombstoneFields(cwd);
    AssignThreadOk(tid, t, f, at, None);
    TombstoneKeys(cwd);
    var r := AssignThread(t, f, at, None);
    forall k | Has(r.meta, k) ensures k in ["id", "archived", "deleted", "cwd"] {
      AssignAllKeys(t.bytes, t.meta, f, at, None, k);
      if Has(t.meta, k) {
        NewThreadKeys(tid, k);
      }
    }
  }

  lemma {:induction false} AssignAllOther(bytes: int, meta: Dict<string, Meta>, fields: Dict<string, Json>, at: int,
                                          before: Option<int>, k: string)
    requires forall i :: 0 <= i < |fields| ==> fields[i].0 != k
    ensures Get(AssignAll(bytes, meta, fields, at, before).1, k) == Get(meta, k)
    decreases |fields|
  {
    if fields != [] {
      var (key, value) := fields[0];
      GetPut(meta, key, Meta(value, at, MetaSize(key, value)), k);
      AssignAllOther(bytes + AssignCost(meta, key, value, before), Assign(meta, key, value, at, before), fields[1..],
        at, before, k);
    }
  }

  /** A deletion leaves a thread that reads as deleted. */
  lemma TombstoneIsDeleted(tid: string, cwd: Json, at: int)
    ensures Deleted(Tombstone(tid, cwd, at))
  {
    hide MetaSize;
    var t, f := NewThread(tid), TombstoneFields(cwd);
    var archived, yes := Bool(false), Bool(true);
    var m1 := Assign(t.meta, "archived", archived, at, None);
    var m2 := Assign(m1, "deleted", yes, at, None);
    var b1 := t.bytes + AssignCost(t.meta, "archived", archived, None);
    var b2 := b1 + AssignCost(m1, "deleted", yes, None);
    assert f[0] == ("archived", archived) && f[1..][0] == ("deleted", yes);
    assert AssignAll(t.bytes, t.meta, f, at, None) == AssignAll(b1, m1, f[1..], at, None);
    assert AssignAll(b1, m1, f[1..], at, None) == AssignAll(b2, m2, f[1..][1..], at, None);
    GetPut(m1, "deleted", Meta(yes, at, MetaSize("deleted", yes)), "deleted");
    forall i | 0 <= i < |f[1..][1..]| ensures f[1..][1..][i].0 != "deleted" {
      assert f[1..][1..][i] == f[i + 2];
      assert "cwd"[0] != "deleted"[0];
    }
    AssignAllOther(b2, m2, f[1..][1..], at, None, "deleted");
  }

  // ---- the store ----

  lemma DelThreadsOk(lim: Limits, threads: Dict<string, Thread>, tid: string)
    requires ThreadsOk(lim, threads)
    ensures ThreadsOk(lim, Del(threads, tid)) && !Has(Del(threads, tid), tid)
  {
    DelDistinct(threads, tid);
    forall k ensures Get(Del(threads, tid), k) == if k == tid then None else Get(threads, k) {
      GetDel(threads, tid, k);
    }
  }

  lemma InstallGet(threads: Dict<string, Thread>, tid: string, t: Thread, q: string)
    requires Distinct(threads)
    ensures Distinct(Install(threads, tid, t))
    ensures Get(Install(threads, tid, t), q) == if q == tid then Some(t) else Get(threads, q)
  {
    GetDel(threads, tid, tid);
    GetDel(threads, tid, q);
    DelDistinct(threads, tid);
    GetAppend(Del(threads, tid), tid, t, q);
    var d := Del(threads, tid);
    GetIndex(d, tid);
  }

  lemma InstallOk(lim: Limits, threads: Dict<string, Thread>, tid: string, t: Thread)
    requires ThreadsOk(lim, threads) && StoredOk(lim, tid, t)
    ensures ThreadsOk(lim, Install(threads, tid, t))
  {
    InstallGet(threads, tid, t, tid);
    forall k | Has(Install(threads, tid, t), k) ensures StoredOk(lim, k, Get(Install(threads, tid, t), k).value) {
      InstallGet(threads, tid, t, k);
    }
  }

  lemma {:induction false} CapThreadsOk(lim: Limits, threads: Dict<string, Thread>)
    requires ThreadsOk(lim, threads)
    ensures ThreadsOk(lim, CapThreads(lim, threads)) && |CapThreads(lim, threads)| <= lim.maxThreads
    decreases |threads|
  {
    if |threads| > lim.maxThreads {
      var i := MinAt(threads, ThreadAt);
      DelShrinks(threads, i);
      DelThreadsOk(lim, threads, threads[i].0);
      CapThreadsOk(lim, Del(threads, threads[i].0));
    }
  }

  /** A thread dropped for the store's thread cap is no newer than any thread kept. */
  lemma {:induction false} OldestThreadGoes(lim: Limits, threads: Dict<string, Thread>, gone: string, kept: string)
    requires Distinct(threads)
    ensures Has(CapThreads(lim, threads), kept) ==> Get(CapThreads(lim, threads), kept) == Get(threads, kept)
    ensures Has(threads, gone) && !Has(CapThreads(lim, threads), gone) && Has(CapThreads(lim, threads), kept)
            ==> ThreadAt(Get(threads, gone).value) <= ThreadAt(Get(threads, kept).value)
    decreases |threads|
  {
    if |threads| > lim.maxThreads {
      var i := MinAt(threads, ThreadAt);
      var key := threads[i].0;
      DelShrinks(threads, i);
      DelDistinct(threads, key);
      GetDel(threads, key, gone);
      GetDel(threads, key, kept);
      GetAt(threads, i);
      if gone != key {
        OldestThreadGoes(lim, Del(threads, key), gone, kept);
      } else if Has(CapThreads(lim, threads), kept) {
        CapThreadsGet(lim, Del(threads, key), kept);
        GetIndex(threads, kept);
        var j :| 0 <= j < |threads| && threads[j] == (kept, Get(threads, kept).value);
        assert ThreadAt(threads[i].1) <= ThreadAt(threads[j].1);
      }
    }
  }

  lemma {:induction false} CapThreadsGet(lim: Limits, threads: Dict<string, Thread>, kept: string)
    requires Distinct(threads) && Has(CapThreads(lim, threads), kept)
    ensures Get(CapThreads(lim, threads), kept) == Get(threads, kept)
    decreases |threads|
  {
    if |threads| > lim.maxThreads {
      var i := MinAt(threads, ThreadAt);
      DelShrinks(threads, i);
      DelDistinct(threads, threads[i].0);
      GetDel(threads, threads[i].0, kept);
      CapThreadsGet(lim, Del(threads, threads[i].0), kept);
    }
  }

  // ---- operations and runs ----

  datatype Op =
    | OpConnect(generation: string)
    | OpDisconnect(generation: string)
    | OpInvalidate(threadId: string)
    | OpRecord(name: string, params: Json)
    | OpHydrate(snapshot: Json, before: int, expected: Option<string>)

  function Committed(o: Outcome, s: Store): Store {
    if o.Invalid? then s else o.store
  }

  /** The store after one call; a call that raises leaves it as it was. */
  function Apply(lim: Limits, s: Store, op: Op): Store {
    match op
    case OpConnect(g) => Committed(Connect(s, g), s)
    case OpDisconnect(g) => Disconnect(s, g)
    case OpInvalidate(tid) => Invalidate(s, tid)
    case OpRecord(name, params) => Committed(Record(lim, s, name, params), s)
    case OpHydrate(snapshot, before, expected) => Committed(Hydrate(lim, s, snapshot, before, expected), s)
  }

  const EMPTY := Store([], [], "", 0, false)

  function Run(lim: Limits, ops: seq<Op>): Store {
    if ops == [] then EMPTY else Apply(lim, Run(lim, ops[..|ops| - 1]), ops[|ops| - 1])
  }

  lemma PlaceOk(lim: Limits, threads: Dict<string, Thread>, tid: string, t: Thread)
    requires TableOk(lim, threads) && StoredOk(lim, tid, t)
    ensures TableOk(lim, CapThreads(lim, Install(threads, tid, t)))
  {
    InstallOk(lim, threads, tid, t);
    CapThreadsOk(lim, Install(threads, tid, t));
  }

  lemma BuryOk(lim: Limits, threads: Dict<string, Thread>, tid: string, cwd: Json, at: nat)
    requires TableOk(lim, threads) && |tid| <= 256
    ensures TableOk(lim, Bury(lim, threads, tid, cwd, at))
  {
    TombstoneOk(tid, cwd, at);
    PlaceOk(lim, threads, tid, Tombstone(tid, cwd, at));
  }

  lemma RecordThreadOk(lim: Limits, threads: Dict<string, Thread>, tid: string, name: string, p: Json, clipped: bool,
                       at: nat)
    requires TableOk(lim, threads) && |tid| <= 256
    ensures TableOk(lim, RecordThread(lim, threads, tid, name, p, clipped, at))
  {
    var t := ThreadOrNew(threads, tid);
    ThreadOrNewOk(lim, threads, tid);
    MergeEventOk(lim, tid, t, name, p, clipped, at);
    var u := MergeEvent(lim, t, name, p, clipped, at);
    TrimEstablishes(lim, tid, u);
    PlaceOk(lim, threads, tid, Trim(lim, u));
  }

  lemma DropThreadOk(lim: Limits, threads: Dict<string, Thread>, tid: string)
    requires TableOk(lim, threads)
    ensures TableOk(lim, Del(threads, tid))
  {
    DelThreadsOk(lim, threads, tid);
    DelDistinct(threads, tid);
  }

  lemma RecordParamsOk(lim: Limits, s: Store, name: string, p: Json, clipped: bool)
    requires TableOk(lim, s.threads)
    ensures TableOk(lim, RecordParams(lim, s, name, p, clipped).threads)
  {
    hide TableOk, RecordThread, Bury, Del, Push, NotOf, ThreadIdOf, ThreadData, HeldCwd;
    var tid := ThreadIdOf(p);
    if IsId(tid) {
      if name == "thread/deleted" {
        BuryOk(lim, s.threads, tid.s, Or(Lookup(ThreadData(p), "cwd"), HeldCwd(s.threads, tid.s)), s.at + 1);
      } else if name == "thread/reverted" {
        DropThreadOk(lim, s.threads, tid.s);
      } else {
        RecordThreadOk(lim, s.threads, tid.s, name, p, clipped, s.at + 1);
      }
    }
  }

  lemma RecordOk(lim: Limits, s: Store, name: string, params: Json)
    requires StoreOk(lim, s)
    ensures StoreOk(lim, Committed(Record(lim, s, name, params), s))
  {
    var (p, clipped) := Bounded(lim.textLimit, params);
    RecordParamsOk(lim, s, name, p, clipped);
  }

  lemma ThreadOrNewOk(lim: Limits, threads: Dict<string, Thread>, tid: string)
    requires ThreadsOk(lim, threads) && |tid| <= 256
    ensures ThreadOk(tid, ThreadOrNew(threads, tid))
  {
    NewThreadOk(tid);
    assert Has(threads, tid) ==> StoredOk(lim, tid, Get(threads, tid).value);
  }

  lemma HydrateOk(lim: Limits, s: Store, snapshot: Json, before: int, generation: Option<string>)
    requires StoreOk(lim, s)
    ensures StoreOk(lim, Committed(Hydrate(lim, s, snapshot, before, generation), s))
  {
    var o := Hydrate(lim, s, snapshot, before, generation);
    if o.Done? && o.accepted {
      var tid := Lookup(snapshot, "id").s;
      var t := ThreadOrNew(s.threads, tid);
      ThreadOrNewOk(lim, s.threads, tid);
      var head := Without(snapshot.fields, "turns");
      var history := Or(Lookup(snapshot, "turns"), Arr([])).items;
      HydrateThreadOk(lim, tid, t, head, history, before);
      PlaceOk(lim, s.threads, tid, HydrateThread(lim, t, head, history, before));
    }
  }

  lemma ApplyOk(lim: Limits, s: Store, op: Op)
    requires StoreOk(lim, s)
    ensures StoreOk(lim, Apply(lim, s, op))
  {
    match op
    case OpConnect(g) =>
    case OpDisconnect(g) =>
    case OpInvalidate(tid) => DropThreadOk(lim, s.threads, tid);
    case OpRecord(name, params) => RecordOk(lim, s, name, params);
    case OpHydrate(snapshot, before, expected) => HydrateOk(lim, s, snapshot, before, expected);
  }

  /** In every reachable state each thread's byte count is exact, and each thread is trimmed
      (caps and budget hold, or only its id is left) or is the remnant of a deletion. */
  lemma {:induction false} ReachableIsOk(lim: Limits, ops: seq<Op>)
    ensures StoreOk(lim, Run(lim, ops))
    decreases |ops|
  {
    if ops != [] {
      ReachableIsOk(lim, ops[..|ops| - 1]);
      ApplyOk(lim, Run(lim, ops[..|ops| - 1]), ops[|ops| - 1]);
    }
  }
}
