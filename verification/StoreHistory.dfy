/** From single threads to the store: what each call does to each stored thread, over every run
    (ccc_server/codex_conversation.py:125-165, 184-314). */
module StoreHistory {
  import opened OrderedDict
  import opened Json
  import opened Clipping
  import opened Conversation
  import opened Eviction
  import opened EvictionOrder
  import opened StoreOps
  import opened StoreInvariant
  import opened HydrateRace
  import opened Provenance

  // ---- trimming only removes ----

  predicate GoneOrSame<T(==)>(after: Option<T>, was: Option<T>) {
    after.None? || after == was
  }

  /** Every entry of `u` is an unchanged entry of `t`. */
  ghost predicate SubThread(u: Thread, t: Thread) {
    && (forall k :: GoneOrSame(Get(u.meta, k), Get(t.meta, k)))
    && (forall q, k :: GoneOrSame(TurnMeta(u, q, k), TurnMeta(t, q, k)))
    && (forall q, i :: GoneOrSame(ItemAtKey(u, q, i), ItemAtKey(t, q, i)))
  }

  lemma SubRefl(t: Thread)
    ensures SubThread(t, t)
  {
  }

  lemma SubTrans(w: Thread, u: Thread, t: Thread)
    requires SubThread(w, u) && SubThread(u, t)
    ensures SubThread(w, t)
  {
    forall k ensures GoneOrSame(Get(w.meta, k), Get(t.meta, k)) {
      assert GoneOrSame(Get(w.meta, k), Get(u.meta, k)) && GoneOrSame(Get(u.meta, k), Get(t.meta, k));
    }
    forall q, k ensures GoneOrSame(TurnMeta(w, q, k), TurnMeta(t, q, k))
      && GoneOrSame(ItemAtKey(w, q, k), ItemAtKey(t, q, k)) {
      assert GoneOrSame(TurnMeta(w, q, k), TurnMeta(u, q, k)) && GoneOrSame(TurnMeta(u, q, k), TurnMeta(t, q, k));
      assert GoneOrSame(ItemAtKey(w, q, k), ItemAtKey(u, q, k)) && GoneOrSame(ItemAtKey(u, q, k), ItemAtKey(t, q, k));
    }
  }

  lemma DropTurnSub(tid: string, t: Thread, key: string)
    requires ThreadOk(tid, t)
    ensures SubThread(DropTurn(t, key), t)
  {
    forall q ensures Get(Del(t.turns, key), q) == if q == key then None else Get(t.turns, q) {
      GetDel(t.turns, key, q);
    }
  }

  lemma EvictSub(tid: string, t: Thread, c: Candidate)
    requires ThreadOk(tid, t)
    ensures SubThread(Evict(t, c), t)
  {
    var u := Evict(t, c);
    forall k ensures GoneOrSame(Get(u.meta, k), Get(t.meta, k)) {
      GetDel(t.meta, c.key, k);
    }
    if c.turn.Some? && Has(t.turns, c.turn.value) {
      var turn := Get(t.turns, c.turn.value).value;
      var next := if c.isItem then turn.(items := Del(turn.items, c.key)) else turn.(meta := Del(turn.meta, c.key));
      forall q, k ensures GoneOrSame(TurnMeta(u, q, k), TurnMeta(t, q, k))
        && GoneOrSame(ItemAtKey(u, q, k), ItemAtKey(t, q, k)) {
        GetPut(t.turns, c.turn.value, next, q);
        GetDel(turn.items, c.key, k);
        GetDel(turn.meta, c.key, k);
      }
    }
  }

  lemma {:induction false} CapTurnsSub(tid: string, t: Thread, cap: nat)
    requires ThreadOk(tid, t)
    ensures SubThread(CapTurns(t, cap), t)
    decreases |t.turns|
  {
    hide SubThread, ThreadOk;
    SubRefl(t);
    if |t.turns| > cap {
      var u := DropTurn(t, OldestTurn(t));
      DropTurnSub(tid, t, OldestTurn(t));
      DropTurnOk(tid, t, OldestTurn(t));
      DropShrinks(t);
      CapTurnsSub(tid, u, cap);
      SubTrans(CapTurns(u, cap), u, t);
    }
  }

  lemma {:induction false} CapItemsSub(tid: string, t: Thread, q: string, cap: nat)
    requires ThreadOk(tid, t)
    ensures SubThread(CapItems(t, q, cap), t)
    decreases |ItemsOf(t, q)|
  {
    hide SubThread, ThreadOk;
    SubRefl(t);
    var items := ItemsOf(t, q);
    if |items| > cap {
      var key := OldestItem(items);
      var u := DropItem(t, q, key);
      EvictSub(tid, t, Candidate(0, true, Some(q), key));
      DropItemOk(tid, t, q, key);
      DropItemShrinks(t, q);
      CapItemsSub(tid, u, q, cap);
      SubTrans(CapItems(u, q, cap), u, t);
    }
  }

  lemma {:induction false} CapAllItemsSub(tid: string, t: Thread, keys: seq<string>, cap: nat)
    requires ThreadOk(tid, t)
    ensures SubThread(CapAllItems(t, keys, cap), t)
    decreases |keys|
  {
    hide SubThread, ThreadOk;
    SubRefl(t);
    if keys != [] {
      var u := CapItems(t, keys[0], cap);
      CapItemsSub(tid, t, keys[0], cap);
      CapItemsOk(tid, t, keys[0], cap);
      CapAllItemsSub(tid, u, keys[1..], cap);
      SubTrans(CapAllItems(u, keys[1..], cap), u, t);
    }
  }

  lemma {:induction false} EvictWhileOverSub(tid: string, t: Thread, cs: seq<Candidate>, budget: nat)
    requires ThreadOk(tid, t) && forall d :: d in cs ==> d.isItem || d.key != "id"
    ensures ThreadOk(tid, EvictWhileOver(t, cs, budget)) && SubThread(EvictWhileOver(t, cs, budget), t)
    decreases |cs|
  {
    hide SubThread, ThreadOk, Evict;
    SubRefl(t);
    if cs != [] && t.bytes > budget {
      EvictSub(tid, t, cs[0]);
      EvictOk(tid, t, cs[0]);
      EvictWhileOverSub(tid, Evict(t, cs[0]), cs[1..], budget);
      SubTrans(EvictWhileOver(Evict(t, cs[0]), cs[1..], budget), Evict(t, cs[0]), t);
    }
  }

  lemma {:induction false} DropTurnsSub(tid: string, t: Thread, budget: nat)
    requires ThreadOk(tid, t)
    ensures SubThread(DropTurnsWhileOver(t, budget), t)
    decreases |t.turns|
  {
    hide SubThread, ThreadOk;
    SubRefl(t);
    if t.bytes > budget && t.turns != [] {
      var u := DropTurn(t, OldestTurn(t));
      DropTurnSub(tid, t, OldestTurn(t));
      DropTurnOk(tid, t, OldestTurn(t));
      DropShrinks(t);
      DropTurnsSub(tid, u, budget);
      SubTrans(DropTurnsWhileOver(u, budget), u, t);
    }
  }

  /** `_trim` removes entries and changes none. */
  lemma TrimOnlyRemoves(lim: Limits, tid: string, t: Thread)
    requires ThreadOk(tid, t)
    ensures SubThread(Trim(lim, t), t)
  {
    hide SubThread, ThreadOk, Candidates, Sorted, Evictable;
    var a := CapTurns(t, lim.maxTurns);
    CapTurnsSub(tid, t, lim.maxTurns);
    CapTurnsOk(tid, t, lim.maxTurns);
    var u := CapAllItems(a, Keys(a.turns), lim.maxItems);
    CapAllItemsSub(tid, a, Keys(a.turns), lim.maxItems);
    CapAllItemsOk(tid, a, Keys(a.turns), lim.maxItems);
    SubTrans(u, a, t);
    if u.bytes > lim.threadBytes {
      SortedNotId(tid, u);
      var w := EvictWhileOver(u, Sorted(Candidates(u)), lim.threadBytes);
      EvictWhileOverSub(tid, u, Sorted(Candidates(u)), lim.threadBytes);
      DropTurnsSub(tid, w, lim.threadBytes);
      SubTrans(w, u, t);
      SubTrans(DropTurnsWhileOver(w, lim.threadBytes), w, t);
    }
  }

  lemma SortedNotId(tid: string, t: Thread)
    requires ThreadOk(tid, t)
    ensures forall d :: d in Sorted(Candidates(t)) ==> d.isItem || d.key != "id"
  {
    SortedCandidates(tid, t);
  }

  lemma SubUpTo(u: Thread, t: Thread, n: int)
    requires SubThread(u, t) && UpTo(t, n)
    ensures UpTo(u, n)
  {
    forall k | Get(u.meta, k).Some? ensures Get(u.meta, k).value.at <= n {
      assert GoneOrSame(Get(u.meta, k), Get(t.meta, k));
    }
    forall q, k | TurnMeta(u, q, k).Some? ensures TurnMeta(u, q, k).value.at <= n {
      assert GoneOrSame(TurnMeta(u, q, k), TurnMeta(t, q, k));
    }
    forall q, i | ItemAtKey(u, q, i).Some? ensures ItemAtKey(u, q, i).value.at <= n {
      assert GoneOrSame(ItemAtKey(u, q, i), ItemAtKey(t, q, i));
    }
  }

  // ---- a snapshot brings nothing above its own cursor ----

  lemma {:induction false} SettleWithin(held: Option<Meta>, k: string, fields: Dict<string, Json>, b: int, n: int)
    requires b <= n && (held.Some? ==> held.value.at <= n)
    ensures var after := Settle(held, k, fields, b, Some(b)); after.Some? ==> after.value.at <= n
    decreases |fields|
  {
    if fields != [] {
      var (key, value) := fields[0];
      SettleWithin(held, k, fields[1..], b, n);
      SettleWithin(Some(Meta(value, b, MetaSize(k, value))), k, fields[1..], b, n);
    }
  }

  lemma {:induction false} HydrateItemsUpTo(lim: Limits, t: Thread, q: string, items: seq<Json>, complete: bool,
                                            b: int, n: int)
    requires ItemsUpTo(t, n) && b <= n
    ensures ItemsUpTo(HydrateItems(lim, t, q, items, complete, b), n)
    decreases |items|
  {
    hide PutItem, ItemsUpTo;
    if items != [] {
      if items[0].Obj? {
        PutItemWithin(lim, t, q, items[0].fields, complete, b, n);
      }
      HydrateItemsUpTo(lim, HydrateItem(lim, t, q, items[0], complete, b), q, items[1..], complete, b, n);
    }
  }

  lemma PutItemWithin(lim: Limits, t: Thread, q: string, item: Dict<string, Json>, complete: bool, b: int, n: int)
    requires ItemsUpTo(t, n) && b <= n
    ensures ItemsUpTo(PutItem(lim, t, q, item, complete, b), n)
  {
    hide Bounded, Merge, ItemSize;
    var u := PutItem(lim, t, q, item, complete, b);
    var iid := Lookup(Obj(item), "id");
    if Has(t.turns, q) && iid.Str? {
      var turn := Get(t.turns, q).value;
      match NextItem(lim, Get(turn.items, iid.s), item, complete, b)
      case None =>
      case Some((entry, _)) =>
        var next := turn.(items := Put(turn.items, iid.s, entry));
        forall r, i | ItemAtKey(u, r, i).Some? ensures ItemAtKey(u, r, i).value.at <= n {
          GetPut(t.turns, q, next, r);
          GetPut(turn.items, iid.s, entry, i);
          assert ItemAtKey(t, r, i).Some? ==> ItemAtKey(t, r, i).value.at <= n;
        }
    }
  }

  lemma MergeTurnUpTo(lim: Limits, tid: string, t: Thread, raw: Json, b: int, n: int)
    requires ThreadOk(tid, t) && UpTo(t, n) && NamesTurn(raw) && b <= n && 0 <= n
    ensures UpTo(MergeTurn(lim, t, raw, b), n)
  {
    hide Bounded, HydrateItems, OpenTurn, AssignTurn, Settle, MergeTurn, RowFields;
    var u := MergeTurn(lim, t, raw, b);
    forall k ensures Get(u.meta, k) == Get(t.meta, k) {
      MergeTurnView(lim, tid, t, raw, b, "", k);
    }
    forall q, k | TurnMeta(u, q, k).Some? ensures TurnMeta(u, q, k).value.at <= n {
      MergeTurnView(lim, tid, t, raw, b, q, k);
      SettleWithin(Opened(TurnMeta(t, q, k), q, k), k, RowFields(lim, raw), b, n);
    }
    MergeTurnItemsUpTo(lim, t, raw, b, n);
  }

  lemma MergeTurnItemsUpTo(lim: Limits, t: Thread, raw: Json, b: int, n: int)
    requires ItemsUpTo(t, n) && NamesTurn(raw) && b <= n
    ensures ItemsUpTo(MergeTurn(lim, t, raw, b), n)
  {
    hide Bounded, HydrateItems, OpenTurn, AssignTurn;
    var q := TurnName(raw);
    var (meta, clipped) := Bounded(lim.textLimit, Obj(Without(raw.fields, "items")));
    var u := AssignTurn(Flag(OpenTurn(t, q), clipped), q, Fields(meta), b, Some(b));
    forall r ensures ItemsOf(u, r) == ItemsOf(t, r) {
      OpenAssignItems(t, q, Fields(meta), b, Some(b), clipped, r);
    }
    SameItemsUpTo(t, u, n);
    var items := Or(Lookup(raw, "items"), Arr([]));
    if items.Arr? {
      var w := Flag(u, |items.items| > lim.maxItems);
      SameItemsUpTo(u, w, n);
      HydrateItemsUpTo(lim, w, q, Last(items.items, lim.maxItems), Finished(Lookup(raw, "status")), b, n);
    }
  }

  lemma SameItemsUpTo(t: Thread, u: Thread, n: int)
    requires ItemsUpTo(t, n) && forall r :: ItemsOf(u, r) == ItemsOf(t, r)
    ensures ItemsUpTo(u, n)
  {
    assert forall r, i :: ItemAtKey(u, r, i) == ItemAtKey(t, r, i);
  }

  lemma {:induction false} HydrateTurnsUpTo(lim: Limits, tid: string, t: Thread, rows: seq<Json>, b: int, n: int)
    requires ThreadOk(tid, t) && UpTo(t, n) && b <= n && 0 <= n
    ensures UpTo(HydrateTurns(lim, t, rows, b), n)
    decreases |rows|
  {
    hide MergeTurn, Trim, UpTo, ThreadOk, SubThread;
    if rows != [] {
      if NamesTurn(rows[0]) {
        var u := MergeTurn(lim, t, rows[0], b);
        MergeTurnOk(lim, tid, t, rows[0], b);
        MergeTurnUpTo(lim, tid, t, rows[0], b, n);
        TrimEstablishes(lim, tid, u);
        TrimOnlyRemoves(lim, tid, u);
        SubUpTo(Trim(lim, u), u, n);
        HydrateTurnsUpTo(lim, tid, if SkipsTrim(rows[0]) then u else Trim(lim, u), rows[1..], b, n);
      } else {
        HydrateTurnsUpTo(lim, tid, t, rows[1..], b, n);
      }
    }
  }

  lemma HydrateThreadUpTo(lim: Limits, tid: string, t: Thread, head: Dict<string, Json>, history: seq<Json>, b: int,
                          n: int)
    requires ThreadOk(tid, t) && UpTo(t, n) && b <= n && 0 <= n
    ensures UpTo(HydrateThread(lim, t, head, history, b), n)
  {
    hide HydrateHead, HydrateTurns, Trim, Settle, SubThread, HeadFields;
    var h := HydrateHead(lim, t, head, |history| > lim.maxTurns, b);
    HeadView(lim, tid, t, head, |history| > lim.maxTurns, b, "");
    forall k ensures Get(h.meta, k).Some? ==> Get(h.meta, k).value.at <= n {
      HeadView(lim, tid, t, head, |history| > lim.maxTurns, b, k);
      SettleWithin(Get(t.meta, k), k, HeadFields(lim, head), b, n);
    }
    SameTurnsUpTo(t, h, n);
    var rows := Last(history, lim.maxTurns);
    HydrateTurnsUpTo(lim, tid, h, rows, b, n);
    HydrateTurnsOk(lim, tid, h, rows, b);
    var w := HydrateTurns(lim, h, rows, b);
    var o := Reorder(w, HistoryOrder(rows));
    ReorderOk(tid, w, HistoryOrder(rows));
    ReorderUpTo(w, o, n);
    TrimOnlyRemoves(lim, tid, o);
    SubUpTo(Trim(lim, o), o, n);
  }

  lemma SameTurnsUpTo(t: Thread, h: Thread, n: int)
    requires UpTo(t, n) && h.turns == t.turns && forall k :: Get(h.meta, k).Some? ==> Get(h.meta, k).value.at <= n
    ensures UpTo(h, n)
  {
    assert forall q, k :: TurnMeta(h, q, k) == TurnMeta(t, q, k) && ItemAtKey(h, q, k) == ItemAtKey(t, q, k);
  }

  lemma ReorderUpTo(w: Thread, o: Thread, n: int)
    requires UpTo(w, n) && o.meta == w.meta && forall q :: Get(o.turns, q) == Get(w.turns, q)
    ensures UpTo(o, n)
  {
    assert forall q, k :: TurnMeta(o, q, k) == TurnMeta(w, q, k) && ItemAtKey(o, q, k) == ItemAtKey(w, q, k);
  }

  // ---- the store ----

  /** Provenance never runs ahead of the store's own counter. */
  ghost predicate StoreUpTo(s: Store) {
    forall tid :: Has(s.threads, tid) ==> UpTo(Get(s.threads, tid).value, s.at)
  }

  lemma NewThreadUpTo(tid: string, n: int)
    requires |tid| <= 256 && 0 <= n
    ensures UpTo(NewThread(tid), n)
  {
    FreshIdentity(64, tid);
    NewThreadOk(tid);
    forall k | Get(NewThread(tid).meta, k).Some? ensures Get(NewThread(tid).meta, k).value.at <= n {
      NewThreadKeys(tid, k);
    }
    assert forall q, k :: TurnMeta(NewThread(tid), q, k).None? && ItemAtKey(NewThread(tid), q, k).None?;
  }

  lemma CapInstallGet(lim: Limits, threads: Dict<string, Thread>, tid: string, t: Thread, q: string)
    requires Distinct(threads)
    ensures var r := CapThreads(lim, Install(threads, tid, t));
      Has(r, q) ==> Get(r, q) == if q == tid then Some(t) else Get(threads, q)
  {
    InstallGet(threads, tid, t, q);
    if Has(CapThreads(lim, Install(threads, tid, t)), q) {
      CapThreadsGet(lim, Install(threads, tid, t), q);
    }
  }

  /** The working directory a deletion carries over. */
  function BuriedCwd(s: Store, p: Json, q: string): Json {
    Or(Lookup(ThreadData(p), "cwd"), HeldCwd(s.threads, q))
  }

  /** What one call leaves of thread `q`, if it leaves anything: the untouched thread, or the result of
      the thread-level operation. */
  ghost predicate Outcomes(lim: Limits, s: Store, op: Op, q: string, after: Option<Thread>) {
    after.None? || after == Get(s.threads, q) ||
    match op
    case OpRecord(name, params) =>
      var (p, clipped) := Bounded(lim.textLimit, params);
      && ThreadIdOf(p) == Str(q) && 1 <= |q| <= 256
      && (if name == "thread/deleted" then after == Some(Tombstone(q, BuriedCwd(s, p, q), s.at + 1))
          else
            && !IsTombstone(s.threads, Str(q))
            && after == Some(Trim(lim, MergeEvent(lim, ThreadOrNew(s.threads, q), name, p, clipped, s.at + 1))))
    case OpHydrate(snapshot, before, _) =>
      && Lookup(snapshot, "id") == Str(q) && 1 <= |q| <= 256 && snapshot.Obj? && !IsTombstone(s.threads, Str(q))
      && after == Some(HydrateThread(lim, ThreadOrNew(s.threads, q), Without(snapshot.fields, "turns"),
         Items(Or(Lookup(snapshot, "turns"), Arr([]))), before))
    case _ => false
  }

  lemma RecordOutcome(lim: Limits, s: Store, name: string, params: Json, q: string)
    requires Distinct(s.threads)
    ensures var next := Apply(lim, s, OpRecord(name, params));
      Get(next.threads, q).None? || Get(next.threads, q) == Get(s.threads, q) || next.at == s.at + 1
    ensures Outcomes(lim, s, OpRecord(name, params), q, Get(Apply(lim, s, OpRecord(name, params)).threads, q))
  {
    hide Bounded, ThreadIdOf, ThreadData, HeldCwd, CapThreads, Install, Tombstone, MergeEvent, Trim, Push, NotOf,
      ThreadOrNew, Del;
    var (p, clipped) := Bounded(lim.textLimit, params);
    var tid := ThreadIdOf(p);
    if params.Obj? && 1 <= |name| <= 256 && IsId(tid) {
      var cwd := Or(Lookup(ThreadData(p), "cwd"), HeldCwd(s.threads, tid.s));
      CapInstallGet(lim, s.threads, tid.s, Tombstone(tid.s, cwd, s.at + 1), q);
      CapInstallGet(lim, s.threads, tid.s,
        Trim(lim, MergeEvent(lim, ThreadOrNew(s.threads, tid.s), name, p, clipped, s.at + 1)), q);
      GetDel(s.threads, tid.s, q);
    }
  }

  lemma HydrateOutcome(lim: Limits, s: Store, snapshot: Json, before: int, expected: Option<string>, q: string)
    requires Distinct(s.threads)
    ensures Outcomes(lim, s, OpHydrate(snapshot, before, expected), q,
      Get(Apply(lim, s, OpHydrate(snapshot, before, expected)).threads, q))
  {
    hide CapThreads, Install, HydrateThread, ThreadOrNew;
    var id := Lookup(snapshot, "id");
    var history := Or(Lookup(snapshot, "turns"), Arr([]));
    if snapshot.Obj? && IsId(id) && history.Arr? {
      var t := HydrateThread(lim, ThreadOrNew(s.threads, id.s), Without(snapshot.fields, "turns"), history.items,
        before);
      CapInstallGet(lim, s.threads, id.s, t, q);
    }
  }

  /** Within one generation every call acts on each thread as the thread-level operation says. */
  lemma ApplyOutcome(lim: Limits, s: Store, op: Op, q: string)
    requires Distinct(s.threads)
    ensures Outcomes(lim, s, op, q, Get(Apply(lim, s, op).threads, q))
  {
    hide Record, Hydrate, Bounded;
    match op
    case OpConnect(g) =>
    case OpDisconnect(g) =>
    case OpInvalidate(tid) => GetDel(s.threads, tid, q);
    case OpRecord(name, params) => RecordOutcome(lim, s, name, params, q);
    case OpHydrate(snapshot, before, expected) => HydrateOutcome(lim, s, snapshot, before, expected, q);
  }

  /** Callers hydrate at a cursor the store has already reached. */
  predicate Timely(s: Store, op: Op) {
    op.OpHydrate? ==> op.before <= s.at
  }

  lemma MoreUpTo(t: Thread, n: int, m: int)
    requires UpTo(t, n) && n <= m
    ensures UpTo(t, m)
  {
  }

  lemma TombstoneUpTo(tid: string, cwd: Json, at: int)
    requires |tid| <= 256 && 0 <= at
    ensures UpTo(Tombstone(tid, cwd, at), at)
  {
    hide Settle;
    NewThreadUpTo(tid, at);
    NewThreadOk(tid);
    var t, f := NewThread(tid), TombstoneFields(cwd);
    var r := Tombstone(tid, cwd, at);
    forall k | Get(r.meta, k).Some? ensures Get(r.meta, k).value.at <= at {
      AssignSettles(t.bytes, t.meta, f, at, None, k);
      SettleUpTo(Get(t.meta, k), k, f, at);
    }
    SameTurnsUpTo(t, r, at);
  }

  lemma ApplyCounter(lim: Limits, s: Store, op: Op)
    ensures Apply(lim, s, op).at >= s.at || Apply(lim, s, op).threads == []
  {
    hide Bounded, ThreadIdOf, ThreadData, HeldCwd, CapThreads, Install, Tombstone, MergeEvent, Trim, Push, NotOf,
      ThreadOrNew, Del, RecordThread, Bury, HydrateThread;
  }

  lemma ThreadOrNewUpTo(lim: Limits, s: Store, q: string)
    requires StoreOk(lim, s) && StoreUpTo(s) && |q| <= 256
    ensures ThreadOk(q, ThreadOrNew(s.threads, q)) && UpTo(ThreadOrNew(s.threads, q), s.at)
  {
    ThreadOrNewOk(lim, s.threads, q);
    if !Has(s.threads, q) {
      NewThreadUpTo(q, s.at);
    }
  }

  lemma EventThreadUpTo(lim: Limits, s: Store, q: string, name: string, p: Json, clipped: bool)
    requires StoreOk(lim, s) && StoreUpTo(s) && |q| <= 256
    ensures UpTo(Trim(lim, MergeEvent(lim, ThreadOrNew(s.threads, q), name, p, clipped, s.at + 1)), s.at + 1)
  {
    hide MergeEvent, ThreadOk, UpTo, ThreadOrNew, Trim, SubThread;
    var t := ThreadOrNew(s.threads, q);
    ThreadOrNewUpTo(lim, s, q);
    MoreUpTo(t, s.at, s.at + 1);
    EventOnlyAdvances(lim, q, t, name, p, clipped, s.at + 1, "", "");
    MergeEventOk(lim, q, t, name, p, clipped, s.at + 1);
    var u := MergeEvent(lim, t, name, p, clipped, s.at + 1);
    TrimOnlyRemoves(lim, q, u);
    SubUpTo(Trim(lim, u), u, s.at + 1);
  }

  lemma OutcomeUpTo(lim: Limits, s: Store, op: Op, q: string, after: Option<Thread>)
    requires StoreOk(lim, s) && StoreUpTo(s) && Timely(s, op) && Outcomes(lim, s, op, q, after) && after.Some?
    ensures UpTo(after.value, s.at + 1) && (!op.OpRecord? || after == Get(s.threads, q) ==> UpTo(after.value, s.at))
  {
    hide MergeEvent, ThreadOk, UpTo, ThreadOrNew, Trim, Bounded, Tombstone, ThreadIdOf, HydrateThread, TableOk,
      BuriedCwd;
    if after == Get(s.threads, q) {
      assert Has(s.threads, q);
      MoreUpTo(after.value, s.at, s.at + 1);
    } else {
      match op
      case OpRecord(name, params) =>
        var (p, clipped) := Bounded(lim.textLimit, params);
        if name == "thread/deleted" {
          TombstoneUpTo(q, BuriedCwd(s, p, q), s.at + 1);
        } else {
          EventThreadUpTo(lim, s, q, name, p, clipped);
        }
      case OpHydrate(snapshot, before, _) =>
        ThreadOrNewUpTo(lim, s, q);
        var t := ThreadOrNew(s.threads, q);
        HydrateThreadUpTo(lim, q, t, Without(snapshot.fields, "turns"), Items(Or(Lookup(snapshot, "turns"), Arr([]))),
          before, s.at);
        MoreUpTo(after.value, s.at, s.at + 1);
    }
  }

  lemma ApplyUpTo(lim: Limits, s: Store, op: Op)
    requires StoreOk(lim, s) && StoreUpTo(s) && Timely(s, op)
    ensures StoreUpTo(Apply(lim, s, op))
  {
    hide Apply, UpTo, Outcomes, TableOk, Timely;
    var next := Apply(lim, s, op);
    StoreOkDistinct(lim, s);
    ApplyCounter(lim, s, op);
    forall q | Has(next.threads, q) ensures UpTo(Get(next.threads, q).value, next.at) {
      ApplyOutcome(lim, s, op, q);
      OutcomeUpTo(lim, s, op, q, Get(next.threads, q));
      if op.OpRecord? {
        RecordOutcome(lim, s, op.name, op.params, q);
      }
      MoreUpTo(Get(next.threads, q).value, if op.OpRecord? && next.at == s.at + 1 then s.at + 1 else s.at, next.at);
    }
  }

  lemma StoreOkDistinct(lim: Limits, s: Store)
    requires StoreOk(lim, s)
    ensures Distinct(s.threads)
  {
  }

  /** Every hydrate of the run was read at a cursor its store had reached. */
  predicate TimelyRun(lim: Limits, ops: seq<Op>)
    decreases |ops|
  {
    ops == [] || (TimelyRun(lim, ops[..|ops| - 1]) && Timely(Run(lim, ops[..|ops| - 1]), ops[|ops| - 1]))
  }

  /** In every reachable state no stored provenance runs ahead of the counter that numbers the next event. */
  lemma {:induction false} ReachableUpTo(lim: Limits, ops: seq<Op>)
    requires TimelyRun(lim, ops)
    ensures StoreOk(lim, Run(lim, ops)) && StoreUpTo(Run(lim, ops))
    decreases |ops|
  {
    hide Apply, UpTo, TableOk;
    ReachableIsOk(lim, ops);
    if ops != [] {
      ReachableUpTo(lim, ops[..|ops| - 1]);
      ApplyUpTo(lim, Run(lim, ops[..|ops| - 1]), ops[|ops| - 1]);
    }
  }

  /** The entries both states hold: provenance has not decreased and nothing completed became incomplete. */
  ghost predicate NeverRegresses(t: Thread, u: Thread, q: string, k: string) {
    && (Get(t.meta, k).Some? && Get(u.meta, k).Some? ==> Get(t.meta, k).value.at <= Get(u.meta, k).value.at)
    && (TurnMeta(t, q, k).Some? && TurnMeta(u, q, k).Some? ==> TurnMeta(t, q, k).value.at <= TurnMeta(u, q, k).value.at)
    && (var i, j := ItemAtKey(t, q, k), ItemAtKey(u, q, k);
        i.Some? && j.Some? ==> i.value.at <= j.value.at && (i.value.complete ==> j.value.complete))
  }

  /** One recorded event, trimming included: unless it deletes the thread, no entry of any thread regresses. */
  lemma RecordNeverRegresses(lim: Limits, s: Store, name: string, params: Json, tid: string, q: string, k: string)
    requires StoreOk(lim, s) && StoreUpTo(s) && name != "thread/deleted" && Has(s.threads, tid)
    ensures var after := Get(Apply(lim, s, OpRecord(name, params)).threads, tid);
      after.None? || NeverRegresses(Get(s.threads, tid).value, after.value, q, k)
  {
    hide Apply, UpTo, TableOk, Bounded, ThreadIdOf, MergeEvent, Trim, ThreadOk, IsTombstone;
    var after := Get(Apply(lim, s, OpRecord(name, params)).threads, tid);
    StoreOkDistinct(lim, s);
    RecordOutcome(lim, s, name, params, tid);
    var t := Get(s.threads, tid).value;
    if after.Some? && after != Some(t) {
      var (p, clipped) := Bounded(lim.textLimit, params);
      ThreadOrNewUpTo(lim, s, tid);
      MoreUpTo(t, s.at, s.at + 1);
      EventOnlyAdvances(lim, tid, t, name, p, clipped, s.at + 1, q, k);
      MergeEventOk(lim, tid, t, name, p, clipped, s.at + 1);
      var u := MergeEvent(lim, t, name, p, clipped, s.at + 1);
      TrimOnlyRemoves(lim, tid, u);
      assert GoneOrSame(Get(after.value.meta, k), Get(u.meta, k));
      assert GoneOrSame(TurnMeta(after.value, q, k), TurnMeta(u, q, k));
      assert GoneOrSame(ItemAtKey(after.value, q, k), ItemAtKey(u, q, k));
    }
  }

  // ---- tombstones ----

  /** A recorded deletion leaves a tombstone, unless the thread cap dropped it at once. */
  lemma DeletionLeavesTombstone(lim: Limits, s: Store, params: Json, tid: string)
    requires Distinct(s.threads) && 1 <= |tid| <= 256
    requires params.Obj? && ThreadIdOf(Bounded(lim.textLimit, params).0) == Str(tid)
    ensures var next := Apply(lim, s, OpRecord("thread/deleted", params));
      Has(next.threads, tid) ==> IsTombstone(next.threads, Str(tid)) && next.at == s.at + 1
  {
    hide Bounded, ThreadIdOf, Deleted, Tombstone, ThreadData, HeldCwd, CapThreads, Install, Push, NotOf;
    var p := Bounded(lim.textLimit, params).0;
    TombstoneIsDeleted(tid, BuriedCwd(s, p, tid), s.at + 1);
    CapInstallGet(lim, s.threads, tid, Tombstone(tid, BuriedCwd(s, p, tid), s.at + 1), tid);
    assert |"thread/deleted"| == 14;
  }

  /** A held tombstone is never altered: every later call keeps it as it is, drops it, or deletes the thread again. */
  lemma TombstoneIsFrozen(lim: Limits, s: Store, op: Op, tid: string)
    requires Distinct(s.threads) && IsTombstone(s.threads, Str(tid))
    requires op.OpRecord? ==> op.name != "thread/deleted"
    ensures var after := Get(Apply(lim, s, op).threads, tid); after.None? || after == Get(s.threads, tid)
  {
    hide Apply, IsTombstone, Bounded, ThreadIdOf;
    ApplyOutcome(lim, s, op, tid);
  }
}
