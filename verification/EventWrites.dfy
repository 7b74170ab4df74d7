/** What a recorded event writes, said by its name and without the code that builds the fields: which keys of its
    thread and turn it sets and to what, for one call of the store and over runs of calls
    (ccc_server/codex_conversation.py:232-314). */
module EventWrites {
  import opened OrderedDict
  import opened Sequences
  import opened Json
  import opened Clipping
  import opened Conversation
  import opened Eviction
  import opened EvictionOrder
  import opened StoreOps
  import opened StoreInvariant
  import opened HydrateRace
  import opened Provenance
  import opened StoreHistory

  // ---- a bounded copy repeats no key ----

  lemma {:induction false} PutWellFormedJson(acc: Dict<string, Json>, k: string, v: Json)
    requires WellFormedFields(acc) && WellFormed(v)
    ensures WellFormedFields(Put(acc, k, v))
  {
    if acc == [] {
      assert Put(acc, k, v)[1..] == [];
    } else if acc[0].0 == k {
      assert Put(acc, k, v)[1..] == acc[1..];
    } else {
      PutWellFormedJson(acc[1..], k, v);
      GetPut(acc[1..], k, v, acc[0].0);
      assert Put(acc, k, v)[1..] == Put(acc[1..], k, v);
    }
  }

  lemma {:induction false} WalkWellFormed(limit: nat, j: Json, depth: nat, b: Budget)
    ensures WellFormed(Walk(limit, j, depth, b).0)
    decreases j, 1
  {
    match j
    case Obj(fields) =>
      var c := b.(nodes := b.nodes - 1, clipped := b.clipped || |fields| > MAX_WIDTH);
      WalkFieldsWellFormed(limit, Prefix(fields), depth, c, []);
    case Arr(items) =>
      var c := b.(nodes := b.nodes - 1, clipped := b.clipped || |items| > MAX_WIDTH);
      WalkItemsWellFormed(limit, Prefix(items), depth, c);
    case _ =>
  }

  lemma {:induction false} WalkFieldsWellFormed(limit: nat, fields: Dict<string, Json>, depth: nat, b: Budget,
                                                acc: Dict<string, Json>)
    requires WellFormedFields(acc)
    ensures WellFormedFields(WalkFields(limit, fields, depth, b, acc).0)
    decreases fields, 0
  {
    if fields != [] {
      assert fields[0].1 < fields[0];
      WalkWellFormed(limit, fields[0].1, depth + 1, b);
      var (v, e) := Walk(limit, fields[0].1, depth + 1, b);
      PutWellFormedJson(acc, Shorten(fields[0].0, MAX_KEY), v);
      WalkFieldsWellFormed(limit, fields[1..], depth, e, Put(acc, Shorten(fields[0].0, MAX_KEY), v));
    }
  }

  lemma {:induction false} WalkItemsWellFormed(limit: nat, items: seq<Json>, depth: nat, b: Budget)
    ensures WellFormedItems(WalkItems(limit, items, depth, b).0)
    decreases items, 0
  {
    if items != [] {
      WalkWellFormed(limit, items[0], depth + 1, b);
      var (v, e) := Walk(limit, items[0], depth + 1, b);
      WalkItemsWellFormed(limit, items[1..], depth, e);
      assert WalkItems(limit, items, depth, b).0[1..] == WalkItems(limit, items[1..], depth, e).0;
    }
  }

  /** Whatever goes in, no object of the copy repeats a key. */
  lemma {:induction false} BoundedWellFormed(limit: nat, j: Json)
    ensures WellFormed(Bounded(limit, j).0)
  {
    WalkWellFormed(limit, j, 0, Budget(CHAR_BUDGET, NODE_BUDGET, false));
  }

  lemma {:induction false} HeldWellFormed(fields: Dict<string, Json>, k: string)
    requires WellFormedFields(fields) && Has(fields, k)
    ensures WellFormed(Get(fields, k).value)
  {
    if fields[0].0 != k {
      HeldWellFormed(fields[1..], k);
    }
  }

  lemma {:induction false} LookupWellFormed(j: Json, k: string)
    requires WellFormed(j)
    ensures WellFormed(Lookup(j, k))
  {
    if Has(Fields(j), k) { HeldWellFormed(Fields(j), k); }
  }

  lemma {:induction false} WithoutOne(fields: Dict<string, Json>, name: string, k: string)
    ensures Get(Without(fields, name), k) == if k == name then None else Get(fields, k)
    ensures WellFormedFields(fields) ==> WellFormedFields(Without(fields, name))
  {
    if fields != [] {
      WithoutOne(fields[1..], name, k);
      WithoutOne(fields[1..], name, fields[0].0);
      if fields[0].0 != name {
        assert Without(fields, name)[1..] == Without(fields[1..], name);
      }
    }
  }

  /** Assigning fields that repeat no key: each key gets its own value and every other stays. */
  lemma {:induction false} SettleOnce(held: Option<Meta>, k: string, fields: Dict<string, Json>, at: int)
    requires WellFormedFields(fields) && k != "id"
    ensures Settle(held, k, fields, at, None)
      == match Get(fields, k) case None => held case Some(v) => Some(Meta(v, at, MetaSize(k, v)))
    decreases |fields|
  {
    if fields != [] {
      SettleOnce(held, k, fields[1..], at);
      SettleOnce(Some(Meta(fields[0].1, at, MetaSize(k, fields[0].1))), k, fields[1..], at);
    }
  }

  // ---- what an event says ----

  /** `params.threadId`, else `params.thread_id`, else the id of `params.thread`, each if it is not empty. */
  function ThreadNamed(p: Json): (id: Json)
    ensures id == ThreadIdOf(p)
  {
    if Truthy(Lookup(p, "threadId")) then Lookup(p, "threadId")
    else if Truthy(Lookup(p, "thread_id")) then Lookup(p, "thread_id")
    else if Lookup(p, "thread").Obj? then Lookup(Lookup(p, "thread"), "id")
    else Null
  }

  /** Likewise for the turn. */
  function TurnNamed(p: Json): (id: Json)
    ensures id == TurnIdOf(p)
  {
    if Truthy(Lookup(p, "turnId")) then Lookup(p, "turnId")
    else if Truthy(Lookup(p, "turn_id")) then Lookup(p, "turn_id")
    else if Lookup(p, "turn").Obj? then Lookup(Lookup(p, "turn"), "id")
    else Null
  }

  const ARCHIVING := {"thread/archived", "thread/unarchived"}

  /** The value an event gives a key of its thread, if it says anything about it. */
  function Said(name: string, p: Json, k: string): Option<Json> {
    if k == "turns" then None
    else if k == "status" && name == "thread/status/changed" then Some(Lookup(p, "status"))
    else if k == "tokenUsage" && name == "thread/tokenUsage/updated" then Some(Lookup(p, "tokenUsage"))
    else if k == "name" && name == "thread/name/updated" then
      Some(if Has(Fields(p), "threadName") then Lookup(p, "threadName") else Lookup(p, "name"))
    else if k == "archived" && name in ARCHIVING then Some(Bool(name == "thread/archived"))
    else if k == "deleted" && name in ARCHIVING then Some(Bool(false))
    else if k == "goal" && "thread/goal/" <= name then Some(Lookup(p, "goal"))
    else if Lookup(p, "thread").Obj? then Get(Lookup(p, "thread").fields, k)
    else None
  }

  /** The value an event gives a key of its turn, if it says anything about it. */
  function SaidOfTurn(name: string, p: Json, k: string): Option<Json> {
    if name == "turn/plan/updated" && k in {"plan", "explanation"} then Some(Lookup(p, k))
    else if name == "turn/diff/updated" && k == "diff" then Some(Lookup(p, "diff"))
    else if name in {"turn/started", "turn/completed"} && k != "items" && Lookup(p, "turn").Obj? then
      Get(Lookup(p, "turn").fields, k)
    else None
  }

  lemma {:induction false} PutSays(fields: Dict<string, Json>, key: string, v: Json, k: string)
    requires WellFormedFields(fields) && WellFormed(v)
    ensures WellFormedFields(Put(fields, key, v))
    ensures Get(Put(fields, key, v), k) == if k == key then Some(v) else Get(fields, k)
  {
    PutWellFormedJson(fields, key, v);
    GetPut(fields, key, v, k);
  }

  /** The fields an event carries for its thread or turn, without the one that is a list. */
  lemma {:induction false} OwnSays(p: Json, data: Json, whole: string, list: string, k: string)
    requires WellFormed(p) && data == (if Lookup(p, whole).Obj? then Lookup(p, whole) else Obj([]))
    ensures var own := Without(Fields(data), list);
      && WellFormedFields(own)
      && Get(own, k) == if k != list && Lookup(p, whole).Obj? then Get(Lookup(p, whole).fields, k) else None
  {
    LookupWellFormed(p, whole);
    WithoutOne(Fields(data), list, k);
  }

  lemma {:induction false} FieldsSay(name: string, p: Json, k: string)
    requires WellFormed(p) && name != "thread/deleted"
    ensures WellFormedFields(EventFields(name, p)) && Get(EventFields(name, p), k) == Said(name, p, k)
  {
    hide Put, Get, Without, WellFormedFields, WellFormed, Lookup, Has, StartsWith, Fields;
    var own := Without(Fields(ThreadData(p)), "turns");
    OwnSays(p, ThreadData(p), "thread", "turns", k);
    NamesDiffer(name);
    assert |"turns"| == 5 && |"status"| == 6 && |"tokenUsage"| == 10 && |"name"| == 4 && |"goal"| == 4;
    assert |"archived"| == 8 && |"deleted"| == 7;
    if name == "thread/status/changed" {
      LookupWellFormed(p, "status");
      PutSays(own, "status", Lookup(p, "status"), k);
    } else if name == "thread/tokenUsage/updated" {
      LookupWellFormed(p, "tokenUsage");
      PutSays(own, "tokenUsage", Lookup(p, "tokenUsage"), k);
    } else if name == "thread/name/updated" {
      LookupWellFormed(p, "threadName");
      LookupWellFormed(p, "name");
      LookupElse(p, "threadName", Lookup(p, "name"));
      PutSays(own, "name", Lookup(p, "threadName", Lookup(p, "name")), k);
    } else if name in ARCHIVING {
      FlagsSay(own, name, k);
    } else if StartsWith(name, "thread/goal/") {
      LookupWellFormed(p, "goal");
      PutSays(own, "goal", Lookup(p, "goal"), k);
    }
  }

  /** At most one of the names that set a key of their own fits. */
  lemma {:induction false} NamesDiffer(name: string)
    ensures StartsWith(name, "thread/goal/") <==> "thread/goal/" <= name
    ensures name == "thread/status/changed" ==> |name| == 21 && name[7] == 's'
    ensures name == "thread/tokenUsage/updated" ==> |name| == 25 && name[7] == 't'
    ensures name == "thread/name/updated" ==> |name| == 19 && name[7] == 'n'
    ensures name == "thread/archived" ==> |name| == 15 && name[7] == 'a'
    ensures name == "thread/unarchived" ==> |name| == 17 && name[7] == 'u'
    ensures "thread/goal/" <= name ==> |name| >= 12 && name[7] == 'g'
  {
    assert |"thread/goal/"| == 12 && "thread/goal/"[7] == 'g';
  }

  lemma {:induction false} FlagsSay(own: Dict<string, Json>, name: string, k: string)
    requires WellFormedFields(own)
    ensures var archived := Put(own, "archived", Bool(name == "thread/archived"));
      var f := Put(archived, "deleted", Bool(name == "thread/deleted"));
      && WellFormedFields(f)
      && Get(f, k) == if k == "archived" then Some(Bool(name == "thread/archived"))
                      else if k == "deleted" then Some(Bool(name == "thread/deleted")) else Get(own, k)
  {
    PutSays(own, "archived", Bool(name == "thread/archived"), k);
    PutSays(Put(own, "archived", Bool(name == "thread/archived")), "deleted", Bool(name == "thread/deleted"), k);
  }

  lemma {:induction false} LookupElse(j: Json, k: string, other: Json)
    ensures Lookup(j, k, other) == if Has(Fields(j), k) then Lookup(j, k) else other
  {
  }

  lemma {:induction false} TurnFieldsSay(name: string, p: Json, k: string)
    requires WellFormed(p)
    ensures WellFormedFields(TurnFields(name, p)) && Get(TurnFields(name, p), k) == SaidOfTurn(name, p, k)
  {
    hide Without, Lookup;
    OwnSays(p, TurnData(p), "turn", "items", k);
    LookupWellFormed(p, "plan");
    LookupWellFormed(p, "explanation");
    LookupWellFormed(p, "diff");
    PairSays("plan", Lookup(p, "plan"), "explanation", Lookup(p, "explanation"), k);
    OneSays("diff", Lookup(p, "diff"), k);
  }

  lemma {:induction false} OneSays(a: string, v: Json, k: string)
    requires WellFormed(v)
    ensures WellFormedFields([(a, v)]) && Get([(a, v)], k) == if k == a then Some(v) else None
  {
    assert [(a, v)][1..] == [];
  }

  lemma {:induction false} PairSays(a: string, v: Json, b: string, w: Json, k: string)
    requires a != b && WellFormed(v) && WellFormed(w)
    ensures WellFormedFields([(a, v), (b, w)])
    ensures Get([(a, v), (b, w)], k) == if k == a then Some(v) else if k == b then Some(w) else None
  {
    OneSays(b, w, k);
    OneSays(b, w, a);
    assert [(a, v), (b, w)][1..] == [(b, w)];
  }

  /** The value an event gives a key of turn `q`: nothing unless it names that turn. */
  function SaidTo(name: string, p: Json, q: string, k: string): Option<Json> {
    if IsId(TurnNamed(p)) && TurnNamed(p) == Str(q) then SaidOfTurn(name, p, k) else None
  }

  // ---- one event on one thread, before its trim ----

  /** What a key holds once `value` was said about it by the event numbered `at`. */
  function Told(held: Option<Meta>, k: string, value: Option<Json>, at: int): Option<Meta> {
    match value case None => held case Some(v) => Some(Meta(v, at, MetaSize(k, v)))
  }

  lemma {:induction false} EventSays(lim: Limits, tid: string, t: Thread, name: string, p: Json, clipped: bool, at: int,
                                     q: string, k: string)
    requires ThreadOk(tid, t) && WellFormed(p) && name != "thread/deleted" && k != "id"
    ensures var u := MergeEvent(lim, t, name, p, clipped, at);
      && ThreadOk(tid, u)
      && Get(u.meta, k) == Told(Get(t.meta, k), k, Said(name, p, k), at)
      && TurnMeta(u, q, k) == Told(TurnMeta(t, q, k), k, SaidTo(name, p, q, k), at)
  {
    EventView(lim, tid, t, name, p, clipped, at, q, k);
    FieldsSay(name, p, k);
    TurnFieldsSay(name, p, k);
    hide MergeEvent, EventFields, TurnFields, Said, SaidOfTurn, TurnIdOf, TurnNamed, ThreadOk, WellFormed, Settle;
    SettleOnce(Get(t.meta, k), k, EventFields(name, p), at);
    SettleOnce(TurnMeta(t, q, k), k, TurnFields(name, p), at);
  }

  // ---- one call of the store ----

  /** The store looks at the event, it names thread `tid`, and it neither deletes nor forgets it. */
  predicate Speaks(lim: Limits, s: Store, name: string, params: Json, tid: string) {
    && params.Obj? && 1 <= |name| <= 256 && 1 <= |tid| <= 256 && !IsTombstone(s.threads, Str(tid))
    && ThreadNamed(Bounded(lim.textLimit, params).0) == Str(tid)
    && name != "thread/deleted" && name != "thread/reverted"
  }

  function HeldMeta(threads: Dict<string, Thread>, tid: string, k: string): Option<Meta> {
    match Get(threads, tid) case None => None case Some(t) => Get(t.meta, k)
  }

  function HeldTurnMeta(threads: Dict<string, Thread>, tid: string, q: string, k: string): Option<Meta> {
    match Get(threads, tid) case None => None case Some(t) => TurnMeta(t, q, k)
  }

  /** One recorded event, its trims included: every key of its thread and of its turn that is still held afterwards
      is what the event said about it, or what it was if the event said nothing. */
  lemma {:induction false} RecordWrites(lim: Limits, s: Store, name: string, params: Json, tid: string, q: string,
                                        k: string)
    requires StoreOk(lim, s) && Speaks(lim, s, name, params, tid) && k != "id"
    ensures var (p, next) := (Bounded(lim.textLimit, params).0, Apply(lim, s, OpRecord(name, params)));
      var meta, turnMeta := HeldMeta(next.threads, tid, k), HeldTurnMeta(next.threads, tid, q, k);
      && next.at == s.at + 1
      && (meta.Some? ==> meta == Told(HeldMeta(s.threads, tid, k), k, Said(name, p, k), s.at + 1))
      && (turnMeta.Some? ==>
            turnMeta == Told(HeldTurnMeta(s.threads, tid, q, k), k, SaidTo(name, p, q, k), s.at + 1))
  {
    SpokenThread(lim, s, name, params, tid);
    var (p, clipped) := Bounded(lim.textLimit, params);
    BoundedWellFormed(lim.textLimit, params);
    var t := ThreadOrNew(s.threads, tid);
    NewThreadHolds(s, tid, q, k);
    hide Apply, Bounded, MergeEvent, Trim, StoreOk, ThreadOk, Said, SaidTo, TurnIdOf, TurnNamed, ThreadNamed,
      WellFormed, Speaks, SubThread, NewThread, TurnMeta;
    EventSays(lim, tid, t, name, p, clipped, s.at + 1, q, k);
    var u := MergeEvent(lim, t, name, p, clipped, s.at + 1);
    TrimOnlyRemoves(lim, tid, u);
    SubAt(Trim(lim, u), u, q, k);
  }

  lemma {:induction false} SubAt(u: Thread, t: Thread, q: string, k: string)
    requires SubThread(u, t)
    ensures GoneOrSame(Get(u.meta, k), Get(t.meta, k)) && GoneOrSame(TurnMeta(u, q, k), TurnMeta(t, q, k))
  {
  }

  lemma {:induction false} NewThreadHolds(s: Store, tid: string, q: string, k: string)
    requires k != "id"
    ensures Get(ThreadOrNew(s.threads, tid).meta, k) == HeldMeta(s.threads, tid, k)
    ensures TurnMeta(ThreadOrNew(s.threads, tid), q, k) == HeldTurnMeta(s.threads, tid, q, k)
  {
    if !Has(s.threads, tid) {
      var f := [("id", Str(tid))];
      AssignSettles(64, [], f, 0, None, k);
      assert f[1..] == [];
    }
  }

  lemma {:induction false} SpokenThread(lim: Limits, s: Store, name: string, params: Json, tid: string)
    requires StoreOk(lim, s) && Speaks(lim, s, name, params, tid)
    ensures var (p, clipped) := Bounded(lim.textLimit, params);
      var next, t := Apply(lim, s, OpRecord(name, params)), ThreadOrNew(s.threads, tid);
      && next.at == s.at + 1 && ThreadOk(tid, t)
      && (Get(next.threads, tid) == None
          || Get(next.threads, tid) == Some(Trim(lim, MergeEvent(lim, t, name, p, clipped, s.at + 1))))
  {
    hide Bounded, ThreadIdOf, ThreadNamed, CapThreads, Install, MergeEvent, Trim, Push, ThreadOrNew, ThreadOk;
    StoreOkDistinct(lim, s);
    ThreadOrNewOk(lim, s.threads, tid);
    var (p, clipped) := Bounded(lim.textLimit, params);
    var merged := MergeEvent(lim, ThreadOrNew(s.threads, tid), name, p, clipped, s.at + 1);
    CapInstallGet(lim, s.threads, tid, Trim(lim, merged), tid);
  }

  // ---- the order of threads ----

  lemma {:induction false} DelKeepsLast<V>(d: Dict<string, V>, k: string)
    requires d != [] && d[|d| - 1].0 != k
    ensures var r := Del(d, k); r != [] && r[|r| - 1] == d[|d| - 1]
  {
    if d[0].0 != k && |d| > 1 {
      DelKeepsLast(d[1..], k);
    }
  }

  lemma {:induction false} CapKeepsLast(lim: Limits, threads: Dict<string, Thread>)
    requires Distinct(threads) && threads != [] && Has(CapThreads(lim, threads), threads[|threads| - 1].0)
    ensures var r := CapThreads(lim, threads); r != [] && r[|r| - 1] == threads[|threads| - 1]
    decreases |threads|
  {
    hide ThreadAt, Del, Get, Distinct;
    if |threads| > lim.maxThreads {
      var i := MinAt(threads, ThreadAt);
      DelShrinks(threads, i);
      DelDistinct(threads, threads[i].0);
      var rest := Del(threads, threads[i].0);
      if threads[i].0 == threads[|threads| - 1].0 {
        GetDel(threads, threads[i].0, threads[i].0);
        Dropped(lim, rest, threads[i].0);
      } else {
        DelKeepsLast(threads, threads[i].0);
        CapKeepsLast(lim, rest);
      }
    }
  }

  lemma {:induction false} Dropped(lim: Limits, threads: Dict<string, Thread>, k: string)
    requires Distinct(threads) && !Has(threads, k)
    ensures !Has(CapThreads(lim, threads), k)
  {
    hide CapThreads;
    if Has(CapThreads(lim, threads), k) { CapThreadsGet(lim, threads, k); }
  }

  /** The thread an event names stands last in the store, unless the thread cap drops it at once. */
  lemma {:induction false} TouchedIsLast(lim: Limits, s: Store, name: string, params: Json, tid: string)
    requires StoreOk(lim, s) && Speaks(lim, s, name, params, tid)
    requires Has(Apply(lim, s, OpRecord(name, params)).threads, tid)
    ensures var threads := Apply(lim, s, OpRecord(name, params)).threads;
      threads != [] && threads[|threads| - 1].0 == tid
  {
    hide Bounded, ThreadIdOf, CapThreads, MergeEvent, Trim, Push, ThreadOrNew;
    StoreOkDistinct(lim, s);
    var (p, clipped) := Bounded(lim.textLimit, params);
    var t := Trim(lim, MergeEvent(lim, ThreadOrNew(s.threads, tid), name, p, clipped, s.at + 1));
    InstallGet(s.threads, tid, t, tid);
    CapKeepsLast(lim, Install(s.threads, tid, t));
  }

  // ---- a deletion ----

  /** What a recorded deletion leaves of the thread, unless the thread cap drops it: its identity, the two flags and
      the working directory, given or held. */
  lemma {:induction false} DeletionWrites(lim: Limits, s: Store, params: Json, tid: string, k: string)
    requires Distinct(s.threads) && params.Obj? && 1 <= |tid| <= 256
    requires ThreadNamed(Bounded(lim.textLimit, params).0) == Str(tid)
    ensures var next := Apply(lim, s, OpRecord("thread/deleted", params));
      var cwd := BuriedCwd(s, Bounded(lim.textLimit, params).0, tid);
      Has(next.threads, tid) ==>
        match HeldMeta(next.threads, tid, k)
        case None => k != "id" && k != "archived" && k != "deleted" && (k == "cwd" ==> !cwd.Str? || cwd.s == "")
        case Some(m) =>
          || (k == "id" && m.value == Str(tid)) || (k == "archived" && m.value == Bool(false))
          || (k == "deleted" && m.value == Bool(true)) || (k == "cwd" && cwd.Str? && cwd.s != "" && m.value == cwd)
  {
    hide Bounded, ThreadIdOf, ThreadNamed, Tombstone, ThreadData, HeldCwd, CapThreads, Install, Push, NotOf;
    var p := Bounded(lim.textLimit, params).0;
    CapInstallGet(lim, s.threads, tid, Tombstone(tid, BuriedCwd(s, p, tid), s.at + 1), tid);
    assert |"thread/deleted"| == 14;
    TombstoneSays(tid, BuriedCwd(s, p, tid), s.at + 1, k);
  }

  lemma {:induction false} TombstoneSays(tid: string, cwd: Json, at: int, k: string)
    requires |tid| <= 256
    ensures match Get(Tombstone(tid, cwd, at).meta, k)
      case None => k != "id" && k != "archived" && k != "deleted" && (k == "cwd" ==> !cwd.Str? || cwd.s == "")
      case Some(m) =>
        || (k == "id" && m.value == Str(tid)) || (k == "archived" && m.value == Bool(false))
        || (k == "deleted" && m.value == Bool(true)) || (k == "cwd" && cwd.Str? && cwd.s != "" && m.value == cwd)
  {
    hide Settle, WellFormedFields;
    var t, f := NewThread(tid), TombstoneFields(cwd);
    NewThreadOk(tid);
    AssignThreadOk(tid, t, f, at, None);
    if k != "id" {
      NewThreadHolds(Store([], [], "", 0, true), tid, "", k);
      AssignSettles(t.bytes, t.meta, f, at, None, k);
      TombstoneFieldsSay(cwd, k);
      SettleOnce(Get(t.meta, k), k, f, at);
    } else {
      assert |k| == 2 && |"archived"| == 8 && |"deleted"| == 7 && |"cwd"| == 3;
    }
  }

  lemma {:induction false} TombstoneFieldsSay(cwd: Json, k: string)
    ensures var f := TombstoneFields(cwd);
      && WellFormedFields(f)
      && Get(f, k) == if k == "archived" then Some(Bool(false)) else if k == "deleted" then Some(Bool(true))
                      else if k == "cwd" && cwd.Str? && cwd.s != "" then Some(cwd) else None
  {
    var f := TombstoneFields(cwd);
    assert |"archived"| == 8 && |"deleted"| == 7 && |"cwd"| == 3;
    if cwd.Str? && cwd.s != "" {
      PairSays("deleted", Bool(true), "cwd", cwd, k);
      PairSays("deleted", Bool(true), "cwd", cwd, "archived");
      assert f[1..] == [("deleted", Bool(true)), ("cwd", cwd)];
    } else {
      PairSays("archived", Bool(false), "deleted", Bool(true), k);
      assert f == [("archived", Bool(false)), ("deleted", Bool(true))];
    }
  }

  // ---- over runs of calls ----

  /** The call says nothing about key `k` of thread `tid`. */
  predicate Silent(lim: Limits, op: Op, tid: string, k: string) {
    match op
    case OpRecord(name, params) =>
      var p := Bounded(lim.textLimit, params).0;
      ThreadNamed(p) == Str(tid) ==> name != "thread/deleted" && Said(name, p, k).None?
    case OpHydrate(snapshot, _, _) =>
      Lookup(snapshot, "id") == Str(tid) ==>
        Get(Fields(Bounded(lim.textLimit, Obj(Without(Fields(snapshot), "turns"))).0), k).None?
    case _ => true
  }

  lemma {:induction false} RowsKeepMeta(lim: Limits, tid: string, t: Thread, rows: seq<Json>, b: int, k: string)
    requires ThreadOk(tid, t)
    ensures var u := HydrateTurns(lim, t, rows, b); ThreadOk(tid, u) && GoneOrSame(Get(u.meta, k), Get(t.meta, k))
    decreases |rows|
  {
    hide MergeTurn, Trim, ThreadOk, SubThread;
    if rows != [] {
      if NamesTurn(rows[0]) {
        var u := MergeTurn(lim, t, rows[0], b);
        MergeTurnOk(lim, tid, t, rows[0], b);
        MergeTurnView(lim, tid, t, rows[0], b, "", k);
        TrimEstablishes(lim, tid, u);
        TrimOnlyRemoves(lim, tid, u);
        SubAt(Trim(lim, u), u, "", k);
        RowsKeepMeta(lim, tid, if SkipsTrim(rows[0]) then u else Trim(lim, u), rows[1..], b, k);
      } else {
        RowsKeepMeta(lim, tid, t, rows[1..], b, k);
      }
    }
  }

  lemma {:induction false} SilentSnapshot(lim: Limits, tid: string, t: Thread, head: Dict<string, Json>,
                                          history: seq<Json>, b: int, k: string)
    requires ThreadOk(tid, t) && Get(Fields(Bounded(lim.textLimit, Obj(head)).0), k).None?
    ensures GoneOrSame(Get(HydrateThread(lim, t, head, history, b).meta, k), Get(t.meta, k))
  {
    hide Bounded, Trim, ThreadOk, HydrateTurns, HydrateHead, HistoryOrder, Settle, SubThread;
    var h := HydrateHead(lim, t, head, |history| > lim.maxTurns, b);
    HeadView(lim, tid, t, head, |history| > lim.maxTurns, b, k);
    WithoutOne(Fields(Bounded(lim.textLimit, Obj(head)).0), "turns", k);
    SettleNothing(Get(t.meta, k), k, HeadFields(lim, head), b, Some(b));
    var rows := Last(history, lim.maxTurns);
    RowsKeepMeta(lim, tid, h, rows, b, k);
    var w := HydrateTurns(lim, h, rows, b);
    ReorderOk(tid, w, HistoryOrder(rows));
    var o := Reorder(w, HistoryOrder(rows));
    TrimOnlyRemoves(lim, tid, o);
    SubAt(Trim(lim, o), o, "", k);
  }

  lemma {:induction false} SettleNothing(held: Option<Meta>, k: string, fields: Dict<string, Json>, at: int,
                                         before: Option<int>)
    requires Get(fields, k).None?
    ensures Settle(held, k, fields, at, before) == held
    decreases |fields|
  {
    if fields != [] { SettleNothing(held, k, fields[1..], at, before); }
  }

  /** A call that says nothing about a key leaves it, or it is dropped. */
  lemma {:induction false} SilentKeeps(lim: Limits, s: Store, op: Op, tid: string, k: string)
    requires StoreOk(lim, s) && Silent(lim, op, tid, k) && k != "id"
    ensures GoneOrSame(HeldMeta(Apply(lim, s, op).threads, tid, k), HeldMeta(s.threads, tid, k))
  {
    hide Apply, Bounded, MergeEvent, Trim, ThreadOk, Said, HydrateThread, ThreadOrNew, SubThread, NewThread, TableOk,
      IsTombstone, ThreadIdOf, ThreadNamed, WellFormed;
    StoreOkDistinct(lim, s);
    ApplyOutcome(lim, s, op, tid);
    var after := Get(Apply(lim, s, op).threads, tid);
    if after.Some? && after != Get(s.threads, tid) {
      ThreadOrNewFits(lim, s, tid);
      NewThreadHolds(s, tid, "", k);
      var t := ThreadOrNew(s.threads, tid);
      match op
      case OpRecord(name, params) =>
        var (p, clipped) := Bounded(lim.textLimit, params);
        BoundedWellFormed(lim.textLimit, params);
        EventSays(lim, tid, t, name, p, clipped, s.at + 1, "", k);
        var u := MergeEvent(lim, t, name, p, clipped, s.at + 1);
        TrimOnlyRemoves(lim, tid, u);
        SubAt(Trim(lim, u), u, "", k);
      case OpHydrate(snapshot, before, _) =>
        SilentSnapshot(lim, tid, t, Without(snapshot.fields, "turns"), Items(Or(Lookup(snapshot, "turns"), Arr([]))),
          before, k);
    }
  }

  lemma {:induction false} ThreadOrNewFits(lim: Limits, s: Store, tid: string)
    requires StoreOk(lim, s) && |tid| <= 256
    ensures ThreadOk(tid, ThreadOrNew(s.threads, tid))
  {
    hide ThreadOk, ThreadOrNew;
    ThreadOrNewOk(lim, s.threads, tid);
  }

  /** Over every run: a key still held is what the last call that said something about it said. */
  lemma {:induction false} LastSaidStays(lim: Limits, ops: seq<Op>, n: nat, tid: string, k: string)
    requires LimitsOk(lim) && n < |ops| && ops[n].OpRecord? && k != "id"
    requires Speaks(lim, StoreInvariant.Run(lim, ops[..n]), ops[n].name, ops[n].params, tid)
    requires Said(ops[n].name, Bounded(lim.textLimit, ops[n].params).0, k).Some?
    requires forall i :: n < i < |ops| ==> Silent(lim, ops[i], tid, k)
    ensures var held := HeldMeta(StoreInvariant.Run(lim, ops).threads, tid, k);
      held.Some? ==>
        && Some(held.value.value) == Said(ops[n].name, Bounded(lim.textLimit, ops[n].params).0, k)
        && held.value.at == StoreInvariant.Run(lim, ops[..n]).at + 1
    decreases |ops|
  {
    hide Apply, Bounded, Said, Speaks, Silent, StoreOk;
    var m := |ops| - 1;
    var front := ops[..m];
    var s := StoreInvariant.Run(lim, front);
    ReachableIsOk(lim, front);
    if m == n {
      RecordWrites(lim, s, ops[n].name, ops[n].params, tid, "", k);
    } else {
      assert front[..n] == ops[..n] && front[n] == ops[n];
      assert forall i :: n < i < |front| ==> front[i] == ops[i];
      LastSaidStays(lim, front, n, tid, k);
      assert Silent(lim, ops[m], tid, k);
      SilentKeeps(lim, s, ops[m], tid, k);
    }
  }

  /** A thread reads as archived exactly when the last event that archived or unarchived it did archive it. */
  lemma {:induction false} ArchivedIffLastArchived(lim: Limits, ops: seq<Op>, n: nat, tid: string)
    requires LimitsOk(lim) && n < |ops| && ops[n].OpRecord? && ops[n].name in ARCHIVING
    requires Speaks(lim, StoreInvariant.Run(lim, ops[..n]), ops[n].name, ops[n].params, tid)
    requires forall i :: n < i < |ops| ==> Silent(lim, ops[i], tid, "archived")
    ensures var held := HeldMeta(StoreInvariant.Run(lim, ops).threads, tid, "archived");
      held.Some? ==> held.value.value.Bool? && (held.value.value.b <==> ops[n].name == "thread/archived")
  {
    hide Speaks, Silent, Bounded, StoreInvariant.Run;
    assert |"archived"| == 8 && |"id"| == 2 && |"turns"| == 5;
    assert |"status"| == 6 && |"tokenUsage"| == 10 && |"name"| == 4;
    LastSaidStays(lim, ops, n, tid, "archived");
  }
}
