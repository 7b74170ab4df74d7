/** When a stored thread says it is truncated: exactly when something of it was cut, left out or evicted
    (ccc_server/codex_conversation.py:125-230, 273-314). */
module Truncation {
  import opened OrderedDict
  import opened Sequences
  import opened Json
  import opened Clipping
  import opened Conversation
  import opened Eviction
  import opened EvictionOrder
  import opened StoreOps
  import opened StoreInvariant
  import opened HydrateRace
  import opened Provenance
  import opened StoreHistory
  import opened DeltaText
  import opened EventWrites
  import opened ItemWrites

  // ---- a trim ----

  /** The flag says so if anything changed, and it is never taken back. */
  predicate Reports(t: Thread, u: Thread) {
    (u == t || u.truncated) && (t.truncated ==> u.truncated)
  }

  lemma {:induction false} CapTurnsReports(t: Thread, cap: nat)
    ensures Reports(t, CapTurns(t, cap))
    decreases |t.turns|
  {
    if |t.turns| > cap {
      DropShrinks(t);
      CapTurnsReports(DropTurn(t, OldestTurn(t)), cap);
    }
  }

  lemma {:induction false} CapItemsReports(t: Thread, q: string, cap: nat)
    ensures Reports(t, CapItems(t, q, cap))
    decreases |ItemsOf(t, q)|
  {
    if |ItemsOf(t, q)| > cap {
      DropItemShrinks(t, q);
      CapItemsReports(DropItem(t, q, OldestItem(ItemsOf(t, q))), q, cap);
    }
  }

  lemma {:induction false} CapAllReports(t: Thread, turnIds: seq<string>, cap: nat)
    ensures Reports(t, CapAllItems(t, turnIds, cap))
    decreases |turnIds|
  {
    if turnIds != [] {
      CapItemsReports(t, turnIds[0], cap);
      CapAllReports(CapItems(t, turnIds[0], cap), turnIds[1..], cap);
    }
  }

  lemma {:induction false} EvictReports(t: Thread, cs: seq<Candidate>, budget: nat)
    ensures Reports(t, EvictWhileOver(t, cs, budget))
    decreases |cs|
  {
    if cs != [] && t.bytes > budget {
      EvictReports(Evict(t, cs[0]), cs[1..], budget);
    }
  }

  lemma {:induction false} DropReports(t: Thread, budget: nat)
    ensures Reports(t, DropTurnsWhileOver(t, budget))
    decreases |t.turns|
  {
    if t.bytes > budget && t.turns != [] {
      DropShrinks(t);
      DropReports(DropTurn(t, OldestTurn(t)), budget);
    }
  }

  /** A trim sets the flag exactly when it removes something. */
  lemma {:induction false} TrimReports(lim: Limits, t: Thread)
    ensures Trim(lim, t).truncated <==> t.truncated || Trim(lim, t) != t
  {
    hide CapTurns, CapAllItems, EvictWhileOver, DropTurnsWhileOver, Sorted, Candidates;
    var a := CapTurns(t, lim.maxTurns);
    CapTurnsReports(t, lim.maxTurns);
    var u := Capped(lim, t);
    CapAllReports(a, Keys(a.turns), lim.maxItems);
    var w := EvictWhileOver(u, Sorted(Candidates(u)), lim.threadBytes);
    EvictReports(u, Sorted(Candidates(u)), lim.threadBytes);
    DropReports(w, lim.threadBytes);
  }

  // ---- storing items ----

  /** What is stored when `item` is sent over what is held. */
  function Combined(held: Option<Item>, item: Dict<string, Json>): Dict<string, Json> {
    if held.Some? then Merge(Fields(held.value.value), item) else item
  }

  /** The item is stored, and the copy stored is cut. */
  predicate StoreCuts(lim: Limits, held: Option<Item>, item: Dict<string, Json>, complete: bool) {
    && IsId(Lookup(Obj(item), "id")) && !(held.Some? && held.value.complete && !complete)
    && Bounded(lim.textLimit, Obj(Combined(held, item))).1
  }

  predicate PutCuts(lim: Limits, t: Thread, q: string, item: Dict<string, Json>, complete: bool) {
    var iid := Lookup(Obj(item), "id");
    Has(t.turns, q) && iid.Str? && StoreCuts(lim, ItemAtKey(t, q, iid.s), item, complete)
  }

  lemma {:induction false} PutReports(lim: Limits, t: Thread, q: string, item: Dict<string, Json>, complete: bool,
                                      at: int)
    ensures PutItem(lim, t, q, item, complete, at).truncated <==> t.truncated || PutCuts(lim, t, q, item, complete)
  {
    hide Bounded, Merge;
  }

  /** Storing one of the items, in their order, cuts it. */
  predicate ListCuts(lim: Limits, t: Thread, q: string, items: seq<Json>, complete: bool, at: int)
    decreases |items|
  {
    items != []
    && if !items[0].Obj? then ListCuts(lim, t, q, items[1..], complete, at)
       else
         || PutCuts(lim, t, q, items[0].fields, complete)
         || ListCuts(lim, PutItem(lim, t, q, items[0].fields, complete, at), q, items[1..], complete, at)
  }

  lemma {:induction false} PutItemsReport(lim: Limits, t: Thread, q: string, items: seq<Json>, complete: bool, at: int)
    ensures PutItems(lim, t, q, items, complete, at).truncated
      <==> t.truncated || ListCuts(lim, t, q, items, complete, at)
    decreases |items|
  {
    hide PutItem, PutCuts;
    if items != [] {
      if items[0].Obj? { PutReports(lim, t, q, items[0].fields, complete, at); }
      PutItemsReport(lim, if items[0].Obj? then PutItem(lim, t, q, items[0].fields, complete, at) else t, q, items[1..],
        complete, at);
    }
  }

  /** The event's items are cut as they are stored. */
  predicate EventCuts(lim: Limits, w: Thread, q: string, name: string, p: Json, at: int) {
    if name in {"turn/started", "turn/completed"} then
      ListCuts(lim, w, q, Items(Lookup(TurnData(p), "items")), name == "turn/completed", at)
    else if name in {"item/started", "item/completed"} then
      Lookup(p, "item").Obj? && PutCuts(lim, w, q, Lookup(p, "item").fields, name == "item/completed")
    else if "item/" <= name then
      var iid := Or(Lookup(p, "itemId"), Lookup(p, "item_id"));
      && iid.Str? && iid.s != ""
      && var held := ItemAtKey(w, q, iid.s);
         && !(held.Some? && held.value.complete)
         && DeltaItem(lim, held, iid.s, name, p).Some?
         && PutCuts(lim, w, q, DeltaItem(lim, held, iid.s, name, p).value, false)
    else false
  }

  lemma {:induction false} TurnItemsReport(lim: Limits, w: Thread, q: string, name: string, p: Json, at: int)
    ensures TurnItems(lim, w, q, name, p, at).truncated <==> w.truncated || EventCuts(lim, w, q, name, p, at)
  {
    hide PutItem, PutItems, DeltaItem, PutCuts, ListCuts, TurnData;
    if name in {"turn/started", "turn/completed"} {
      PutItemsReport(lim, w, q, Items(Or(Lookup(TurnData(p), "items"), Arr([]))), name == "turn/completed", at);
      assert Items(Or(Lookup(TurnData(p), "items"), Arr([]))) == Items(Lookup(TurnData(p), "items"));
    } else if name in {"item/started", "item/completed"} {
      var item := Lookup(p, "item");
      if item.Obj? { PutReports(lim, w, q, item.fields, name == "item/completed", at); }
    } else if "item/" <= name {
      DeltaStored(lim, w, q, name, p, at);
      var iid := Or(Lookup(p, "itemId"), Lookup(p, "item_id"));
      if iid.Str? && iid.s != "" {
        match DeltaItem(lim, ItemAtKey(w, q, iid.s), iid.s, name, p)
        case None =>
        case Some(item) => PutReports(lim, w, q, item, false, at);
      }
    }
  }

  lemma {:induction false} FlagsKept(t: Thread, fields: Dict<string, Json>, at: int, before: Option<int>, q: string,
                                     clipped: bool)
    ensures AssignThread(Flag(t, clipped), fields, at, before).truncated <==> t.truncated || clipped
    ensures OpenTurn(t, q).truncated == t.truncated && AssignTurn(t, q, fields, at, before).truncated == t.truncated
  {
    hide AssignAll;
  }

  lemma {:induction false} EventReports(lim: Limits, t: Thread, name: string, p: Json, clipped: bool, at: int)
    ensures MergeEvent(lim, t, name, p, clipped, at).truncated
      <==> || t.truncated || clipped
           || (IsId(TurnIdOf(p))
               && EventCuts(lim, Ready(t, name, p, clipped, at, TurnIdOf(p).s), TurnIdOf(p).s, name, p, at))
  {
    hide TurnItems, EventCuts, AssignThread, OpenTurn, AssignTurn, EventFields, TurnFields, TurnIdOf;
    var q := TurnIdOf(p);
    var u := AssignThread(Flag(t, clipped), EventFields(name, p), at, None);
    FlagsKept(t, EventFields(name, p), at, None, "", clipped);
    if IsId(q) {
      FlagsKept(u, [], at, None, q.s, false);
      FlagsKept(OpenTurn(u, q.s), TurnFields(name, p), at, None, q.s, false);
      TurnItemsReport(lim, Ready(t, name, p, clipped, at, q.s), q.s, name, p, at);
    }
  }

  // ---- one recorded event ----

  /** What an event's thread is before its trim. */
  function BeforeTrim(lim: Limits, s: Store, name: string, params: Json, tid: string): Thread {
    var (p, clipped) := Bounded(lim.textLimit, params);
    MergeEvent(lim, ThreadOrNew(s.threads, tid), name, p, clipped, s.at + 1)
  }

  /** A recorded event leaves its thread truncated exactly when it was, its parameters were cut, an item was cut as it
      was stored, or the trim removed something. */
  lemma {:induction false} RecordReports(lim: Limits, s: Store, name: string, params: Json, tid: string)
    requires StoreOk(lim, s) && Speaks(lim, s, name, params, tid)
    requires Has(Apply(lim, s, OpRecord(name, params)).threads, tid)
    ensures var (p, clipped) := Bounded(lim.textLimit, params);
      var t, u := ThreadOrNew(s.threads, tid), BeforeTrim(lim, s, name, params, tid);
      Get(Apply(lim, s, OpRecord(name, params)).threads, tid).value.truncated
      <==> || t.truncated || clipped || Trim(lim, u) != u
           || (IsId(TurnIdOf(p))
               && EventCuts(lim, Ready(t, name, p, clipped, s.at + 1, TurnIdOf(p).s), TurnIdOf(p).s, name, p, s.at + 1))
  {
    SpokenThread(lim, s, name, params, tid);
    var (p, clipped) := Bounded(lim.textLimit, params);
    EventReports(lim, ThreadOrNew(s.threads, tid), name, p, clipped, s.at + 1);
    assert BeforeTrim(lim, s, name, params, tid)
      == MergeEvent(lim, ThreadOrNew(s.threads, tid), name, p, clipped, s.at + 1);
    hide *;
    TrimReports(lim, BeforeTrim(lim, s, name, params, tid));
  }

  // ---- a snapshot ----

  predicate HydrateListCuts(lim: Limits, t: Thread, q: string, items: seq<Json>, complete: bool, b: int)
    decreases |items|
  {
    items != [] &&
    var u := HydrateItem(lim, t, q, items[0], complete, b);
    || (u != t && PutCuts(lim, t, q, Fields(items[0]), complete))
    || HydrateListCuts(lim, u, q, items[1..], complete, b)
  }

  lemma {:induction false} HydrateItemsReport(lim: Limits, t: Thread, q: string, items: seq<Json>, complete: bool,
                                              b: int)
    ensures HydrateItems(lim, t, q, items, complete, b).truncated
      <==> t.truncated || HydrateListCuts(lim, t, q, items, complete, b)
    decreases |items|
  {
    hide PutItem, PutCuts, ItemsOf;
    if items != [] {
      if items[0].Obj? { PutReports(lim, t, q, items[0].fields, complete, b); }
      HydrateItemsReport(lim, HydrateItem(lim, t, q, items[0], complete, b), q, items[1..], complete, b);
    }
  }

  /** A row's fields are cut, it lists more items than are kept, or one of those kept is cut as it is stored. */
  predicate RowCuts(lim: Limits, t: Thread, raw: Json, b: int)
    requires NamesTurn(raw)
  {
    var q, items := TurnName(raw), Or(Lookup(raw, "items"), Arr([]));
    var (meta, clipped) := Bounded(lim.textLimit, Obj(Without(raw.fields, "items")));
    || clipped
    || (items.Arr?
        && (|items.items| > lim.maxItems
            || HydrateListCuts(lim, AssignTurn(OpenTurn(t, q), q, Fields(meta), b, Some(b)), q,
                               Last(items.items, lim.maxItems), Finished(Lookup(raw, "status")), b)))
  }

  lemma {:induction false} RowReports(lim: Limits, t: Thread, raw: Json, b: int)
    requires NamesTurn(raw)
    ensures MergeTurn(lim, t, raw, b).truncated <==> t.truncated || RowCuts(lim, t, raw, b)
  {
    hide Bounded, HydrateItems, HydrateListCuts, AssignAll, OpenTurn;
    var q, items := TurnName(raw), Or(Lookup(raw, "items"), Arr([]));
    var (meta, clipped) := Bounded(lim.textLimit, Obj(Without(raw.fields, "items")));
    FlagsKept(t, [], b, None, q, false);
    var v := AssignTurn(OpenTurn(t, q), q, Fields(meta), b, Some(b));
    var w := AssignTurn(Flag(OpenTurn(t, q), clipped), q, Fields(meta), b, Some(b));
    assert w == Flag(v, clipped);
    if items.Arr? {
      var rows, complete := Last(items.items, lim.maxItems), Finished(Lookup(raw, "status"));
      HydrateItemsReport(lim, Flag(w, |items.items| > lim.maxItems), q, rows, complete, b);
      if !clipped && |items.items| <= lim.maxItems {
        assert Flag(w, false) == v;
      }
    }
  }

  /** A row of the history, or the trim after it, cuts or removes something. */
  predicate RowsCut(lim: Limits, t: Thread, rows: seq<Json>, b: int)
    decreases |rows|
  {
    rows != []
    && if !NamesTurn(rows[0]) then RowsCut(lim, t, rows[1..], b)
       else
         var u := MergeTurn(lim, t, rows[0], b);
         var trims := Lookup(rows[0], "items").Arr? || !Truthy(Lookup(rows[0], "items"));
         || RowCuts(lim, t, rows[0], b)
         || (trims && Trim(lim, u) != u)
         || RowsCut(lim, if trims then Trim(lim, u) else u, rows[1..], b)
  }

  lemma {:induction false} RowsReport(lim: Limits, t: Thread, rows: seq<Json>, b: int)
    ensures HydrateTurns(lim, t, rows, b).truncated <==> t.truncated || RowsCut(lim, t, rows, b)
    decreases |rows|
  {
    hide MergeTurn, Trim, RowCuts, NamesTurn, TurnName;
    if rows != [] {
      if NamesTurn(rows[0]) {
        var u := MergeTurn(lim, t, rows[0], b);
        RowReports(lim, t, rows[0], b);
        TrimReports(lim, u);
        RowsReport(lim, if SkipsTrim(rows[0]) then u else Trim(lim, u), rows[1..], b);
      } else {
        RowsReport(lim, t, rows[1..], b);
      }
    }
  }

  /** A snapshot leaves its thread truncated exactly when it was, its fields were cut, it listed more turns than are
      kept, one of those rows or its trim cut or removed something, or the last trim did. */
  lemma {:induction false} SnapshotReports(lim: Limits, t: Thread, head: Dict<string, Json>, history: seq<Json>, b: int)
    ensures var rows := Last(history, lim.maxTurns);
      var h := HydrateHead(lim, t, head, |history| > lim.maxTurns, b);
      var o := Reorder(HydrateTurns(lim, h, rows, b), HistoryOrder(rows));
      HydrateThread(lim, t, head, history, b).truncated
      <==> || t.truncated || Bounded(lim.textLimit, Obj(head)).1 || |history| > lim.maxTurns
           || RowsCut(lim, h, rows, b) || Trim(lim, o) != o
  {
    hide Bounded, Trim, HydrateTurns, HistoryOrder, Gather, AssignAll, RowsCut;
    var rows := Last(history, lim.maxTurns);
    var h := HydrateHead(lim, t, head, |history| > lim.maxTurns, b);
    RowsReport(lim, h, rows, b);
    TrimReports(lim, Reorder(HydrateTurns(lim, h, rows, b), HistoryOrder(rows)));
  }
}
