/** `CodexConversationStore` as the object it is: fields updated in place by methods with loops.
    Each method is proved equal to the function of the same name; what those functions promise is
    proved in the modules beside this one. The lock makes every public method one atomic step. */
module ConversationStore {
  import opened OrderedDict
  import opened Json
  import opened Clipping
  import opened Conversation
  import opened Eviction
  import opened StoreOps
  import opened StoreInvariant

  class CodexConversationStore {
    const lim: Limits
    var events: seq<Event>
    var threads: Dict<string, Thread>
    var generation: string
    var at: nat
    var connected: bool

    constructor (lim: Limits)
      requires LimitsOk(lim)
      ensures this.lim == lim && Contents() == EMPTY && Valid()
    {
      this.lim := lim;
      events, threads, generation, at, connected := [], [], "", 0, false;
    }

    function Contents(): Store
      reads this
    {
      Store(events, threads, generation, at, connected)
    }

    ghost predicate Valid()
      reads this
    {
      LimitsOk(lim) && StoreOk(lim, Contents())
    }

    // ---- private helpers: dictionaries updated entry by entry ----

    /** `_metadata`. */
    static method Metadata(bytes: int, target: Dict<string, Meta>, fields: Dict<string, Json>, at: int,
                           before: Option<int>) returns (total: int, meta: Dict<string, Meta>)
      ensures (total, meta) == AssignAll(bytes, target, fields, at, before)
    {
      total, meta := bytes, target;
      for i := 0 to |fields|
        invariant AssignAll(total, meta, fields[i..], at, before) == AssignAll(bytes, target, fields, at, before)
      {
        assert fields[i..][1..] == fields[i + 1..];
        var (key, value) := fields[i];
        if RejectsId(meta, key, value) {
          continue;
        }
        if before.Some? && Provenance(meta, key) > before.value {
          continue;
        }
        var size := MetaSize(key, value);
        total := total + size - (match Get(meta, key) case None => 0 case Some(m) => m.size);
        meta := Put(meta, key, Meta(value, at, size));
      }
    }

    /** The first part of `_trim`: the turn cap and the item caps. */
    static method CapThread(lim: Limits, thread: Thread) returns (t: Thread)
      ensures t == Capped(lim, thread)
    {
      hide OldestTurn, OldestItem, DropTurn, DropItem, ItemsOf;
      t := thread;
      while |t.turns| > lim.maxTurns
        invariant CapTurns(t, lim.maxTurns) == CapTurns(thread, lim.maxTurns)
        decreases |t.turns|
      {
        DropShrinks(t);
        t := DropTurn(t, OldestTurn(t));
      }
      var keys := Keys(t.turns);
      ghost var capped := t;
      for i := 0 to |keys|
        invariant CapAllItems(t, keys[i..], lim.maxItems) == CapAllItems(capped, keys, lim.maxItems)
      {
        assert keys[i..][1..] == keys[i + 1..];
        ghost var entry := t;
        while |ItemsOf(t, keys[i])| > lim.maxItems
          invariant CapItems(t, keys[i], lim.maxItems) == CapItems(entry, keys[i], lim.maxItems)
          decreases |ItemsOf(t, keys[i])|
        {
          hide CapAllItems, CapTurns;
          DropItemShrinks(t, keys[i]);
          t := DropItem(t, keys[i], OldestItem(ItemsOf(t, keys[i])));
        }
      }
    }

    /** `_trim`. */
    static method TrimThread(lim: Limits, thread: Thread) returns (t: Thread)
      ensures t == Trim(lim, thread)
    {
      hide Capped, Candidates, Sorted, OldestTurn, DropTurn, Evict;
      t := CapThread(lim, thread);
      if t.bytes <= lim.threadBytes {
        return;
      }
      var cs := Sorted(Candidates(t));
      ghost var u := t;
      var i := 0;
      while i < |cs| && t.bytes > lim.threadBytes
        invariant i <= |cs|
        invariant EvictWhileOver(t, cs[i..], lim.threadBytes) == EvictWhileOver(u, cs, lim.threadBytes)
      {
        assert cs[i..][1..] == cs[i + 1..];
        t := Evict(t, cs[i]);
        i := i + 1;
      }
      ghost var w := t;
      while t.bytes > lim.threadBytes && t.turns != []
        invariant DropTurnsWhileOver(t, lim.threadBytes) == DropTurnsWhileOver(w, lim.threadBytes)
        decreases |t.turns|
      {
        DropShrinks(t);
        t := DropTurn(t, OldestTurn(t));
      }
    }

    /** `_trim_global`. */
    method TrimGlobal()
      modifies this`threads
      ensures threads == CapThreads(lim, old(threads))
    {
      while |threads| > lim.maxThreads
        invariant CapThreads(lim, threads) == CapThreads(lim, old(threads))
        decreases |threads|
      {
        var i := MinAt(threads, ThreadAt);
        DelShrinks(threads, i);
        threads := Del(threads, threads[i].0);
      }
    }

    /** The loop over a history row's items. */
    static method MergeItems(lim: Limits, thread: Thread, turnId: string, items: seq<Json>, complete: bool,
                             before: int) returns (t: Thread)
      ensures t == HydrateItems(lim, thread, turnId, items, complete, before)
    {
      hide PutItem;
      t := thread;
      for i := 0 to |items|
        invariant HydrateItems(lim, t, turnId, items[i..], complete, before)
          == HydrateItems(lim, thread, turnId, items, complete, before)
      {
        assert items[i..][1..] == items[i + 1..];
        if !items[i].Obj? {
          continue;
        }
        var iid := Lookup(items[i], "id");
        var held := if iid.Str? then Get(ItemsOf(t, turnId), iid.s) else None;
        if held.None? || held.value.at <= before {
          t := PutItem(lim, t, turnId, items[i].fields, complete, before);
        }
      }
    }

    /** The loop over the history rows of a snapshot. */
    static method MergeHistory(lim: Limits, thread: Thread, rows: seq<Json>, before: int)
      returns (t: Thread, order: seq<string>)
      ensures t == HydrateTurns(lim, thread, rows, before) && order == HistoryOrder(rows)
    {
      hide Bounded, Trim, OpenTurn, AssignTurn;
      t, order := thread, [];
      for i := 0 to |rows|
        invariant HydrateTurns(lim, t, rows[i..], before) == HydrateTurns(lim, thread, rows, before)
        invariant order + HistoryOrder(rows[i..]) == HistoryOrder(rows)
      {
        assert rows[i..][1..] == rows[i + 1..];
        var raw := rows[i];
        if !NamesTurn(raw) {
          continue;
        }
        var turnId := TurnName(raw);
        order := order + [turnId];
        var (meta, clipped) := Bounded(lim.textLimit, Obj(Without(raw.fields, "items")));
        t := AssignTurn(Flag(OpenTurn(t, turnId), clipped), turnId, Fields(meta), before, Some(before));
        var items := Or(Lookup(raw, "items"), Arr([]));
        if !items.Arr? {
          continue;
        }
        t := Flag(t, |items.items| > lim.maxItems);
        t := MergeItems(lim, t, turnId, Last(items.items, lim.maxItems), Finished(Lookup(raw, "status")), before);
        t := TrimThread(lim, t);
      }
      assert order + HistoryOrder([]) == order;
    }

    // ---- public operations ----

    method ConnectTo(gen: string) returns (ok: bool)
      requires Valid()
      modifies this
      ensures Valid()
      ensures Contents() == Committed(Connect(old(Contents()), gen), old(Contents()))
      ensures ok <==> Connect(old(Contents()), gen).Done?
    {
      if !(1 <= |gen| <= 128) {
        return false;
      }
      if generation != gen {
        generation, events, threads, at := gen, [], [], 0;
      }
      connected := true;
      return true;
    }

    method DisconnectFrom(gen: string)
      requires Valid()
      modifies this
      ensures Valid() && Contents() == Disconnect(old(Contents()), gen)
    {
      if generation == gen {
        connected := false;
      }
    }

    method InvalidateHistory(tid: string)
      requires Valid()
      modifies this
      ensures Valid() && Contents() == Invalidate(old(Contents()), tid)
    {
      DropThreadOk(lim, threads, tid);
      threads := Del(threads, tid);
    }

    method HydrateFrom(snapshot: Json, before: int, expected: Option<string>) returns (o: Outcome)
      requires Valid()
      modifies this
      ensures Valid()
      ensures o == Hydrate(lim, old(Contents()), snapshot, before, expected)
      ensures Contents() == Committed(o, old(Contents()))
    {
      hide StoreOk, HydrateTurns, Trim, HydrateHead, CapThreads, Install, Bounded, ThreadOrNew, Reorder;
      HydrateOk(lim, Contents(), snapshot, before, expected);
      var id := Lookup(snapshot, "id");
      var history := Or(Lookup(snapshot, "turns"), Arr([]));
      if !snapshot.Obj? || !IsId(id) || !history.Arr? {
        return Invalid;
      }
      if expected.Some? && expected.value != generation {
        return Done(false, Contents());
      }
      if IsTombstone(threads, id) {
        return Done(false, Contents());
      }
      var head := HydrateHead(lim, ThreadOrNew(threads, id.s), Without(snapshot.fields, "turns"),
        |history.items| > lim.maxTurns, before);
      var merged, order := MergeHistory(lim, head, Last(history.items, lim.maxTurns), before);
      var t := TrimThread(lim, Reorder(merged, order));
      threads := Install(threads, id.s, t);
      TrimGlobal();
      o := Done(true, Contents());
    }

    method RecordEvent(name: string, params: Json) returns (o: Outcome)
      requires Valid()
      modifies this
      ensures Valid()
      ensures o == Record(lim, old(Contents()), name, params)
      ensures Contents() == Committed(o, old(Contents()))
    {
      hide StoreOk, Trim, CapThreads, Install, Bounded, ThreadOrNew, ThreadIdOf, MergeEvent, Tombstone, NotOf, Push,
        HeldCwd, Del, ThreadData;
      RecordOk(lim, Contents(), name, params);
      if !params.Obj? {
        return Done(false, Contents());
      }
      if !(1 <= |name| <= 256) {
        return Invalid;
      }
      var (p, clipped) := Bounded(lim.textLimit, params);
      var tid := ThreadIdOf(p);
      if name == "thread/deleted" && IsId(tid) {
        var cwd := Or(Lookup(ThreadData(p), "cwd"), HeldCwd(threads, tid.s));
        events := NotOf(events, tid);
        at := at + 1;
        events := Push(lim, events, DeletedEvent(tid, at));
        threads := Install(threads, tid.s, Tombstone(tid.s, cwd, at));
        TrimGlobal();
        return Done(true, Contents());
      }
      if IsTombstone(threads, tid) {
        return Done(true, Contents());
      }
      at := at + 1;
      events := Push(lim, events, Event(at, name, p, tid, clipped));
      if !IsId(tid) {
        return Done(true, Contents());
      }
      if name == "thread/reverted" {
        threads := Del(threads, tid.s);
        return Done(true, Contents());
      }
      var merged := MergeEvent(lim, ThreadOrNew(threads, tid.s), name, p, clipped, at);
      var t := TrimThread(lim, merged);
      threads := Install(threads, tid.s, t);
      TrimGlobal();
      o := Done(true, Contents());
    }

    method PollEvents(cursor: int, expected: Option<string>, scope: string) returns (poll: Poll)
      ensures poll == EventsSince(Contents(), cursor, expected, scope)
    {
      hide InScope, DeletedScope, Gap;
      var gap := Gap(Contents(), cursor, expected, scope);
      var found: seq<Event> := [];
      if !gap {
        for i := 0 to |events|
          invariant found + After(events[i..], cursor, scope) == After(events, cursor, scope)
        {
          assert events[i..][1..] == events[i + 1..];
          hide Gap, EventsSince;
          ghost var rest, before := After(events[i + 1..], cursor, scope), found;
          var e := events[i];
          if e.at > cursor && InScope(e, scope) {
            found := found + [e];
            assert before + ([e] + rest) == found + rest;
          } else {
            assert [] + rest == rest;
          }
        }
        assert found + After([], cursor, scope) == found;
      }
      poll := Poll(generation, at, connected, gap, found);
    }
  }
}
