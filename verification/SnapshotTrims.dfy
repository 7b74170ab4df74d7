/** `hydrate` with its trims: exactly when a snapshot undoes something newer
    (ccc_server/codex_conversation.py:184-226). The loop trims after every history row, so an entry can be
    evicted by one row's trim and stored afresh, at the snapshot's cursor, by a later row. */
module SnapshotTrims {
  import opened OrderedDict
  import opened Json
  import opened Clipping
  import opened Conversation
  import opened Eviction
  import opened EvictionOrder
  import opened StoreOps
  import opened StoreInvariant
  import opened HydrateRace
  import opened Provenance
  import opened StoreHistory

  // ---- what the rows carry ----

  predicate IsItem(j: Json, k: string) {
    j.Obj? && IsId(Lookup(j, "id")) && Lookup(j, "id").s == k
  }

  predicate Lists(items: seq<Json>, k: string) {
    items != [] && (IsItem(items[0], k) || Lists(items[1..], k))
  }

  /** The items of one history row that the loop looks at. */
  function RowItems(lim: Limits, raw: Json): seq<Json> {
    Last(Items(Or(Lookup(raw, "items"), Arr([]))), lim.maxItems)
  }

  predicate RowLists(lim: Limits, raw: Json, q: string, k: string) {
    NamesTurn(raw) && TurnName(raw) == q && Lists(RowItems(lim, raw), k)
  }

  /** Some row carries item `k` of turn `q`. */
  predicate Writes(lim: Limits, rows: seq<Json>, q: string, k: string) {
    rows != [] && (RowLists(lim, rows[0], q, k) || Writes(lim, rows[1..], q, k))
  }

  /** Some row of a finished turn carries it. */
  predicate Finishes(lim: Limits, rows: seq<Json>, q: string, k: string) {
    rows != [] && ((RowLists(lim, rows[0], q, k) && Finished(Lookup(rows[0], "status")))
      || Finishes(lim, rows[1..], q, k))
  }

  // ---- one item through merges ----

  /** What writes at cursor `b` make of an item, given whether any carried it and whether any carried it as finished. */
  ghost predicate Follows(was: Option<Item>, end: Option<Item>, carried: bool, finished: bool, b: int) {
    && (finished ==> carried)
    && match was
       case None => if carried then end.Some? && end.value.at == b && end.value.complete == finished else end.None?
       case Some(i) =>
         if i.at > b then end == was
         else end.Some? && end.value.complete == (i.complete || finished) && (end.value.at == i.at || end.value.at == b)
  }

  lemma FollowsTrans(was: Option<Item>, mid: Option<Item>, end: Option<Item>, c: bool, f: bool, d: bool, g: bool,
                     b: int)
    requires Follows(was, mid, c, f, b) && Follows(mid, end, d, g, b)
    ensures Follows(was, end, c || d, f || g, b)
  {
  }

  lemma FollowsRefl(was: Option<Item>, b: int)
    ensures Follows(was, was, false, false, b)
  {
  }

  lemma {:induction false} PutItemFollows(lim: Limits, t: Thread, q: string, item: Dict<string, Json>, complete: bool,
                                          b: int, r: string, k: string)
    requires Has(t.turns, q)
    requires var iid := Lookup(Obj(item), "id");
      iid.Str? && ItemAtKey(t, q, iid.s).Some? ==> ItemAtKey(t, q, iid.s).value.at <= b
    ensures var u, hit := PutItem(lim, t, q, item, complete, b), r == q && IsItem(Obj(item), k);
      Has(u.turns, q) && Follows(ItemAtKey(t, r, k), ItemAtKey(u, r, k), hit, hit && complete, b)
  {
    hide Bounded, Merge, ItemSize;
    var iid := Lookup(Obj(item), "id");
    var turn := Get(t.turns, q).value;
    if iid.Str? {
      match NextItem(lim, Get(turn.items, iid.s), item, complete, b)
      case None =>
      case Some((entry, _)) =>
        var next := turn.(items := Put(turn.items, iid.s, entry));
        GetPut(t.turns, q, next, q);
        GetPut(t.turns, q, next, r);
        GetPut(turn.items, iid.s, entry, k);
    }
  }

  lemma {:induction false} HydrateItemsFollow(lim: Limits, t: Thread, q: string, items: seq<Json>, complete: bool,
                                              b: int, r: string, k: string)
    requires Has(t.turns, q)
    ensures var u, hit := HydrateItems(lim, t, q, items, complete, b), r == q && Lists(items, k);
      Follows(ItemAtKey(t, r, k), ItemAtKey(u, r, k), hit, hit && complete, b)
    decreases |items|
  {
    hide PutItem, Follows;
    var was := ItemAtKey(t, r, k);
    if items == [] {
      FollowsRefl(was, b);
    } else {
      var u, hit := HydrateItem(lim, t, q, items[0], complete, b), r == q && IsItem(items[0], k);
      HydrateItemFollows(lim, t, q, items[0], complete, b, r, k);
      HydrateItemsFollow(lim, u, q, items[1..], complete, b, r, k);
      var more := r == q && Lists(items[1..], k);
      FollowsTrans(was, ItemAtKey(u, r, k), ItemAtKey(HydrateItems(lim, u, q, items[1..], complete, b), r, k),
                   hit, hit && complete, more, more && complete, b);
    }
  }

  lemma {:induction false} HydrateItemFollows(lim: Limits, t: Thread, q: string, item: Json, complete: bool, b: int,
                                              r: string, k: string)
    requires Has(t.turns, q)
    ensures var u, hit := HydrateItem(lim, t, q, item, complete, b), r == q && IsItem(item, k);
      Has(u.turns, q) && Follows(ItemAtKey(t, r, k), ItemAtKey(u, r, k), hit, hit && complete, b)
  {
    hide PutItem;
    if item.Obj? {
      var iid := Lookup(item, "id");
      if !iid.Str? || ItemAtKey(t, q, iid.s).None? || ItemAtKey(t, q, iid.s).value.at <= b {
        PutItemFollows(lim, t, q, item.fields, complete, b, r, k);
      }
    }
  }

  lemma {:induction false} MergeTurnFollows(lim: Limits, tid: string, t: Thread, raw: Json, b: int, r: string,
                                            k: string)
    requires ThreadOk(tid, t) && NamesTurn(raw)
    ensures var hit := RowLists(lim, raw, r, k);
      Follows(ItemAtKey(t, r, k), ItemAtKey(MergeTurn(lim, t, raw, b), r, k), hit, hit
        && Finished(Lookup(raw, "status")), b)
  {
    hide Bounded, HydrateItems, Follows, OpenTurn, AssignTurn, ThreadOk, Lists;
    var q := TurnName(raw);
    var (meta, clipped) := Bounded(lim.textLimit, Obj(Without(raw.fields, "items")));
    OpenTurnOk(tid, t, q);
    OpenAssignItems(t, q, Fields(meta), b, Some(b), clipped, r);
    var o := Flag(OpenTurn(t, q), clipped);
    var u := AssignTurn(o, q, Fields(meta), b, Some(b));
    AssignTurnView(o, q, Fields(meta), b, Some(b), q, k);
    HasKey(o.turns, q);
    HasKey(u.turns, q);
    var items := Or(Lookup(raw, "items"), Arr([]));
    var was := ItemAtKey(t, r, k);
    if items.Arr? {
      var w := Flag(u, |items.items| > lim.maxItems);
      HydrateItemsFollow(lim, w, q, Last(items.items, lim.maxItems), Finished(Lookup(raw, "status")), b, r, k);
      assert ItemAtKey(w, r, k) == was;
    } else {
      FollowsRefl(was, b);
      NothingListed(k);
    }
  }

  lemma NothingListed(k: string)
    ensures !Lists([], k)
  {
  }

  // ---- a row and its trim ----

  function AfterRow(lim: Limits, t: Thread, raw: Json, b: int): Thread {
    if !NamesTurn(raw) then t
    else
      var u := MergeTurn(lim, t, raw, b);
      if SkipsTrim(raw) then u else Trim(lim, u)
  }

  /** The rows still to come when a trim last evicted item `k` of turn `q`, if one did. */
  function LostItem(lim: Limits, t: Thread, rows: seq<Json>, b: int, q: string, k: string): Option<seq<Json>>
    decreases |rows|
  {
    if rows == [] then None
    else
      var next := AfterRow(lim, t, rows[0], b);
      match LostItem(lim, next, rows[1..], b, q, k)
      case Some(rest) => Some(rest)
      case None =>
        if NamesTurn(rows[0]) && ItemAtKey(MergeTurn(lim, t, rows[0], b), q, k).Some? && ItemAtKey(next, q, k).None?
        then Some(rows[1..]) else None
  }

  /** The same for metadata key `k` of turn `q`. */
  function LostMeta(lim: Limits, t: Thread, rows: seq<Json>, b: int, q: string, k: string): Option<seq<Json>>
    decreases |rows|
  {
    if rows == [] then None
    else
      var next := AfterRow(lim, t, rows[0], b);
      match LostMeta(lim, next, rows[1..], b, q, k)
      case Some(rest) => Some(rest)
      case None =>
        if NamesTurn(rows[0]) && TurnMeta(MergeTurn(lim, t, rows[0], b), q, k).Some? && TurnMeta(next, q, k).None?
        then Some(rows[1..]) else None
  }

  lemma {:induction false} AfterRowOk(lim: Limits, tid: string, t: Thread, raw: Json, b: int)
    requires ThreadOk(tid, t)
    ensures ThreadOk(tid, AfterRow(lim, t, raw, b))
    ensures NamesTurn(raw) ==> SubThread(AfterRow(lim, t, raw, b), MergeTurn(lim, t, raw, b))
  {
    hide MergeTurn, Trim, ThreadOk, SubThread;
    if NamesTurn(raw) {
      var u := MergeTurn(lim, t, raw, b);
      MergeTurnOk(lim, tid, t, raw, b);
      TrimEstablishes(lim, tid, u);
      TrimOnlyRemoves(lim, tid, u);
      SubRefl(u);
    }
  }

  /** An item through the loop: what all its rows make of it, or, once evicted, what the rows after its last
      eviction make of nothing. */
  lemma {:induction false} ItemThroughRows(lim: Limits, tid: string, t: Thread, rows: seq<Json>, b: int, q: string,
                                           k: string)
    requires ThreadOk(tid, t)
    ensures var end := ItemAtKey(HydrateTurns(lim, t, rows, b), q, k);
      match LostItem(lim, t, rows, b, q, k)
      case None => Follows(ItemAtKey(t, q, k), end, Writes(lim, rows, q, k), Finishes(lim, rows, q, k), b)
      case Some(rest) => Follows(None, end, Writes(lim, rest, q, k), Finishes(lim, rest, q, k), b)
    decreases |rows|
  {
    hide MergeTurn, Trim, ThreadOk, Follows, RowLists, ItemAtKey;
    var was := ItemAtKey(t, q, k);
    FollowsRefl(was, b);
    if rows != [] {
      var raw, rest := rows[0], rows[1..];
      var next := AfterRow(lim, t, raw, b);
      AfterRowOk(lim, tid, t, raw, b);
      ItemThroughRows(lim, tid, next, rest, b, q, k);
      if NamesTurn(raw) {
        var u, hit := MergeTurn(lim, t, raw, b), RowLists(lim, raw, q, k);
        MergeTurnFollows(lim, tid, t, raw, b, q, k);
        assert GoneOrSame(ItemAtKey(next, q, k), ItemAtKey(u, q, k));
        if LostItem(lim, t, rows, b, q, k).None? {
          FollowsTrans(was, ItemAtKey(u, q, k), ItemAtKey(HydrateTurns(lim, next, rest, b), q, k), hit,
                       hit && Finished(Lookup(raw, "status")), Writes(lim, rest, q, k), Finishes(lim, rest, q, k), b);
        }
      } else {
        UnnamedRow(lim, raw, q, k);
      }
    }
  }

  lemma UnnamedRow(lim: Limits, raw: Json, q: string, k: string)
    requires !NamesTurn(raw)
    ensures !RowLists(lim, raw, q, k)
  {
  }

  /** A turn's metadata key through the loop, likewise. */
  lemma {:induction false} MetaThroughRows(lim: Limits, tid: string, t: Thread, rows: seq<Json>, b: int, q: string,
                                           k: string)
    requires ThreadOk(tid, t)
    ensures var end := TurnMeta(HydrateTurns(lim, t, rows, b), q, k);
      match LostMeta(lim, t, rows, b, q, k)
      case None => end == AfterRows(lim, TurnMeta(t, q, k), rows, q, k, b)
      case Some(rest) => end == AfterRows(lim, None, rest, q, k, b)
    decreases |rows|
  {
    hide MergeTurn, Trim, ThreadOk, AfterRows, TurnMeta, Settle, RowFields;
    var was := TurnMeta(t, q, k);
    if rows == [] {
      AfterNoRows(lim, was, q, k, b);
    } else {
      var raw, rest := rows[0], rows[1..];
      var next := AfterRow(lim, t, raw, b);
      AfterRowOk(lim, tid, t, raw, b);
      AfterRowsStep(lim, was, rows, q, k, b);
      MetaThroughRows(lim, tid, next, rest, b, q, k);
      if NamesTurn(raw) {
        MergeTurnView(lim, tid, t, raw, b, q, k);
        assert GoneOrSame(TurnMeta(next, q, k), TurnMeta(MergeTurn(lim, t, raw, b), q, k));
      }
    }
  }

  /** The rows never write the thread's own metadata; their trims may evict it. */
  lemma {:induction false} ThreadMetaThroughRows(lim: Limits, tid: string, t: Thread, rows: seq<Json>, b: int,
                                                 k: string)
    requires ThreadOk(tid, t)
    ensures GoneOrSame(Get(HydrateTurns(lim, t, rows, b).meta, k), Get(t.meta, k))
    decreases |rows|
  {
    hide MergeTurn, Trim, ThreadOk, Settle, RowFields;
    if rows != [] {
      var raw, rest := rows[0], rows[1..];
      var next := AfterRow(lim, t, raw, b);
      AfterRowOk(lim, tid, t, raw, b);
      ThreadMetaThroughRows(lim, tid, next, rest, b, k);
      if NamesTurn(raw) {
        MergeTurnView(lim, tid, t, raw, b, "", k);
        assert GoneOrSame(Get(next.meta, k), Get(MergeTurn(lim, t, raw, b).meta, k));
      }
    }
  }

  // ---- an entry written again ----

  lemma {:induction false} SettleStamps(held: Option<Meta>, k: string, fields: Dict<string, Json>, b: int)
    ensures var end := Settle(held, k, fields, b, Some(b));
      && (end == held || (end.Some? && end.value.at == b && end.value.size == MetaSize(k, end.value.value)))
      && (TooNew(held, Some(b)) ==> end == held)
      && (k == "id" && held.Some? ==> end.Some? && end.value.value == held.value.value)
    decreases |fields|
  {
    if fields != [] {
      var (key, value) := fields[0];
      SettleStamps(Some(Meta(value, b, MetaSize(k, value))), k, fields[1..], b);
      SettleStamps(held, k, fields[1..], b);
    }
  }

  lemma {:induction false} SettleId(held: Meta, q: string, fields: Dict<string, Json>, b: int)
    requires held.value == Str(q) && |q| <= 256 && 0 <= held.at <= b
    ensures var end := Settle(Some(held), "id", fields, b, Some(b));
      end.Some? && end.value.at == if ("id", Str(q)) in fields then b else held.at
    decreases |fields|
  {
    if fields != [] {
      var (key, value) := fields[0];
      assert ("id", Str(q)) in fields <==> fields[0] == ("id", Str(q)) || ("id", Str(q)) in fields[1..];
      SettleId(if key == "id" && value == Str(q) then Meta(value, b, MetaSize("id", value))
        else held, q, fields[1..], b);
    }
  }

  /** After an eviction, rows stamp what they write with the cursor; the identity restarts at 0 when none of them
      carries it unclipped. */
  lemma {:induction false} RewrittenAt(lim: Limits, rows: seq<Json>, q: string, k: string, b: int)
    requires |q| <= 256
    ensures var end := AfterRows(lim, None, rows, q, k, b);
      end.Some? ==>
        && (k != "id" ==> end.value.at == b)
        && (k == "id" ==> end.value == Meta(Str(q), end.value.at, MetaSize("id", Str(q)))
                          && end.value.at == if b >= 0 && ("id", Str(q)) in FieldsFor(lim, rows, q) then b else 0)
  {
    hide Settle, FieldsFor;
    SettleStamps(Opened(None, q, k), k, FieldsFor(lim, rows, q), b);
    if k == "id" && b >= 0 {
      SettleId(Opened(None, q, k).value, q, FieldsFor(lim, rows, q), b);
    }
  }

  // ---- the whole hydrate ----

  /** A trim evicted the item, a later row stored it again, and it had been newer than the cursor, or finished
      where no such row finishes it. */
  predicate ItemUndone(lim: Limits, h: Thread, rows: seq<Json>, b: int, q: string, k: string, was: Item) {
    var lost := LostItem(lim, h, rows, b, q, k);
    lost.Some? && Writes(lim, lost.value, q, k) && (was.at > b || (was.complete && !Finishes(lim, lost.value, q, k)))
  }

  /** A trim evicted the key, a later row names its turn again, and the key had been newer than the cursor; the
      identity also when it had been written and no such row carries it unclipped. */
  predicate MetaUndone(lim: Limits, h: Thread, rows: seq<Json>, b: int, q: string, k: string, was: Meta) {
    var lost := LostMeta(lim, h, rows, b, q, k);
    && lost.Some? && q in HistoryOrder(lost.value)
    && if k == "id" then was.at != 0 && (was.at > b || (was.at > 0 && ("id", Str(q)) !in FieldsFor(lim, lost.value, q)))
       else was.at > b
  }

  /** What a hydrate does to the entries of a thread that are still there afterwards. */
  ghost predicate AdvancesUnlessUndone(lim: Limits, t: Thread, u: Thread, h: Thread, rows: seq<Json>, b: int,
                                       q: string, k: string) {
    && (Get(u.meta, k).Some? ==> MetaAdvances(Get(t.meta, k), Get(u.meta, k), b))
    && (var was, after := ItemAtKey(t, q, k), ItemAtKey(u, q, k);
        was.Some? && after.Some? ==> (ItemAdvances(was, after, b) <==> !ItemUndone(lim, h, rows, b, q, k, was.value)))
    && (var was, after := TurnMeta(t, q, k), TurnMeta(u, q, k);
        was.Some? && after.Some? ==> (MetaAdvances(was, after, b) <==> !MetaUndone(lim, h, rows, b, q, k, was.value)))
  }

  lemma {:induction false} HydrateLeaves(lim: Limits, tid: string, t: Thread, head: Dict<string, Json>,
                                         history: seq<Json>, b: int, q: string, k: string)
    requires ThreadOk(tid, t)
    ensures var h := HydrateHead(lim, t, head, |history| > lim.maxTurns, b);
      var w := HydrateTurns(lim, h, Last(history, lim.maxTurns), b);
      var u := HydrateThread(lim, t, head, history, b);
      && ThreadOk(tid, h) && h.turns == t.turns
      && (Get(u.meta, k).Some? ==> MetaAdvances(Get(t.meta, k), Get(u.meta, k), b))
      && GoneOrSame(ItemAtKey(u, q, k), ItemAtKey(w, q, k))
      && GoneOrSame(TurnMeta(u, q, k), TurnMeta(w, q, k))
  {
    hide HydrateHead, HydrateTurns, Trim, Settle, ThreadOk, HeadFields, Reorder, HistoryOrder;
    var rows := Last(history, lim.maxTurns);
    var h := HydrateHead(lim, t, head, |history| > lim.maxTurns, b);
    HeadView(lim, tid, t, head, |history| > lim.maxTurns, b, k);
    SettleAdvances(Get(t.meta, k), k, HeadFields(lim, head), b);
    var w := HydrateTurns(lim, h, rows, b);
    HydrateTurnsOk(lim, tid, h, rows, b);
    ThreadMetaThroughRows(lim, tid, h, rows, b, k);
    var o := Reorder(w, HistoryOrder(rows));
    ReorderOk(tid, w, HistoryOrder(rows));
    SameMeta(w, HistoryOrder(rows));
    assert ItemsOf(o, q) == ItemsOf(w, q);
    TrimOnlyRemoves(lim, tid, o);
    assert GoneOrSame(Get(Trim(lim, o).meta, k), Get(o.meta, k));
    assert GoneOrSame(ItemAtKey(Trim(lim, o), q, k), ItemAtKey(o, q, k));
    assert GoneOrSame(TurnMeta(Trim(lim, o), q, k), TurnMeta(o, q, k));
  }

  lemma SameMeta(w: Thread, order: seq<string>)
    ensures Reorder(w, order).meta == w.meta
  {
  }

  /** `hydrate` never overwrites newer events, except where its own trims made it forget them: an entry that is
      still there afterwards has advanced if and only if it was not evicted by a row's trim and written again by
      a later row. The thread's own metadata always advances. */
  lemma {:induction false} HydrateAdvancesIff(lim: Limits, tid: string, t: Thread, head: Dict<string, Json>,
                                              history: seq<Json>, b: int, q: string, k: string)
    requires ThreadOk(tid, t)
    ensures AdvancesUnlessUndone(lim, t, HydrateThread(lim, t, head, history, b),
                                 HydrateHead(lim, t, head, |history| > lim.maxTurns, b), Last(history, lim.maxTurns),
                                   b, q, k)
  {
    hide HydrateHead, HydrateTurns, HydrateThread, LostItem, LostMeta, Writes, Finishes, ThreadOk, Settle, TurnMeta,
      ItemAtKey, FieldsFor, HistoryOrder;
    var rows := Last(history, lim.maxTurns);
    var h := HydrateHead(lim, t, head, |history| > lim.maxTurns, b);
    HydrateLeaves(lim, tid, t, head, history, b, q, k);
    ItemThroughRows(lim, tid, h, rows, b, q, k);
    SameTurnsSame(t, h, q, k);
    MetaAfterRows(lim, tid, t, h, rows, b, q, k);
  }

  lemma SameTurnsSame(t: Thread, h: Thread, q: string, k: string)
    requires t.turns == h.turns
    ensures ItemAtKey(t, q, k) == ItemAtKey(h, q, k) && TurnMeta(t, q, k) == TurnMeta(h, q, k)
  {
  }

  lemma {:induction false} MetaAfterRows(lim: Limits, tid: string, t: Thread, h: Thread, rows: seq<Json>, b: int,
                                         q: string, k: string)
    requires ThreadOk(tid, t) && ThreadOk(tid, h) && h.turns == t.turns
    ensures var was, after := TurnMeta(t, q, k), TurnMeta(HydrateTurns(lim, h, rows, b), q, k);
      was.Some? && after.Some? ==> (MetaAdvances(was, after, b) <==> !MetaUndone(lim, h, rows, b, q, k, was.value))
  {
    hide HydrateTurns, LostMeta, ThreadOk, Settle, TurnMeta, FieldsFor, HistoryOrder;
    var was := TurnMeta(t, q, k);
    MetaThroughRows(lim, tid, h, rows, b, q, k);
    SameTurnsSame(t, h, q, k);
    match LostMeta(lim, h, rows, b, q, k)
    case None =>
      SettleAdvances(Opened(was, q, k), k, FieldsFor(lim, rows, q), b);
    case Some(rest) =>
      TurnIdentity(tid, t, q);
      if was.Some? {
        NamedByTurn(t, q, k);
        RewrittenAt(lim, rest, q, k, b);
      }
  }

  lemma NamedByTurn(t: Thread, q: string, k: string)
    requires TurnMeta(t, q, k).Some?
    ensures Has(t.turns, q)
  {
  }

  lemma TurnIdentity(tid: string, t: Thread, q: string)
    requires ThreadOk(tid, t)
    ensures Has(t.turns, q) ==> |q| <= 256
    ensures var m := TurnMeta(t, q, "id"); m.Some? ==> m.value == Meta(Str(q), m.value.at, MetaSize("id", Str(q)))
  {
    if Has(t.turns, q) {
      assert TurnOk(q, Get(t.turns, q).value);
    }
  }

  /** A check on the snapshot alone: an item that no row after the first lists is never undone, and no key of a turn
      that no row after the first names. */
  lemma {:induction false} OnlyLaterRowsUndo(lim: Limits, h: Thread, rows: seq<Json>, b: int, q: string, k: string)
    ensures (exists was :: ItemUndone(lim, h, rows, b, q, k, was)) ==> rows != [] && Writes(lim, rows[1..], q, k)
    ensures (exists was :: MetaUndone(lim, h, rows, b, q, k, was)) ==> rows != [] && q in HistoryOrder(rows[1..])
  {
    LostLater(lim, h, rows, b, q, k);
  }

  lemma {:induction false} LostLater(lim: Limits, h: Thread, rows: seq<Json>, b: int, q: string, k: string)
    ensures var lost := LostItem(lim, h, rows, b, q, k);
      lost.Some? ==> rows != [] && (Writes(lim, lost.value, q, k) ==> Writes(lim, rows[1..], q, k))
    ensures var lost := LostMeta(lim, h, rows, b, q, k);
      lost.Some? ==> rows != [] && (q in HistoryOrder(lost.value) ==> q in HistoryOrder(rows[1..]))
    decreases |rows|
  {
    hide AfterRow, RowLists, MergeTurn, ItemAtKey, TurnMeta;
    if rows != [] {
      LostLater(lim, AfterRow(lim, h, rows[0], b), rows[1..], b, q, k);
    }
  }

  /** When no row's trim has anything to evict, nothing is lost on the way. */
  lemma {:induction false} QuietRowsLoseNothing(lim: Limits, t: Thread, rows: seq<Json>, b: int, q: string, k: string)
    requires QuietRows(lim, t, rows, b)
    ensures LostItem(lim, t, rows, b, q, k).None? && LostMeta(lim, t, rows, b, q, k).None?
    decreases |rows|
  {
    hide MergeTurn, Trim, Fits, ItemAtKey, TurnMeta;
    if rows != [] {
      if NamesTurn(rows[0]) {
        TrimIdle(lim, MergeTurn(lim, t, rows[0], b));
      }
      QuietRowsLoseNothing(lim, AfterRow(lim, t, rows[0], b), rows[1..], b, q, k);
    }
  }

  /** A snapshot read at `b` whose rows evict nothing: what it leaves is not older than before, is not un-completed,
      and is untouched if its provenance was above `b`. Only the final trim may remove entries. */
  lemma {:induction false} QuietSnapshotNeverOverwritesNewer(lim: Limits, tid: string, t: Thread,
                                                             head: Dict<string, Json>, history: seq<Json>, b: int,
                                                               q: string, k: string)
    requires ThreadOk(tid, t)
    requires QuietRows(lim, HydrateHead(lim, t, head, |history| > lim.maxTurns, b), Last(history, lim.maxTurns), b)
    ensures var u := HydrateThread(lim, t, head, history, b);
      && (Get(u.meta, k).None? || MetaAdvances(Get(t.meta, k), Get(u.meta, k), b))
      && (TurnMeta(u, q, k).None? || MetaAdvances(TurnMeta(t, q, k), TurnMeta(u, q, k), b))
      && (ItemAtKey(u, q, k).None? || ItemAdvances(ItemAtKey(t, q, k), ItemAtKey(u, q, k), b))
  {
    hide HydrateHead, HydrateThread, QuietRows, LostItem, LostMeta, ThreadOk, TurnMeta, ItemAtKey;
    HydrateAdvancesIff(lim, tid, t, head, history, b, q, k);
    QuietRowsLoseNothing(lim, HydrateHead(lim, t, head, |history| > lim.maxTurns, b), Last(history, lim.maxTurns), b,
      q, k);
  }

  lemma HeldOk(lim: Limits, s: Store, tid: string)
    requires StoreOk(lim, s) && Has(s.threads, tid)
    ensures ThreadOk(tid, Get(s.threads, tid).value)
  {
    assert StoredOk(lim, tid, Get(s.threads, tid).value);
  }

  /** The same for the store: what one `hydrate` call leaves of a thread it changes. */
  lemma {:induction false} HydrateCallAdvancesIff(lim: Limits, s: Store, snapshot: Json, b: int,
                                                  expected: Option<string>, tid: string, q: string, k: string)
    requires StoreOk(lim, s) && Has(s.threads, tid)
    ensures var t, after := Get(s.threads, tid).value,
      Get(Apply(lim, s, OpHydrate(snapshot, b, expected)).threads, tid);
      var head, history := Without(Fields(snapshot), "turns"), Items(Or(Lookup(snapshot, "turns"), Arr([])));
      after.None? || after.value == t ||
      (&& Lookup(snapshot, "id") == Str(tid)
       && AdvancesUnlessUndone(lim, t, after.value, HydrateHead(lim, t, head, |history| > lim.maxTurns, b),
          Last(history, lim.maxTurns), b, q, k))
  {
    hide Apply, ThreadOk, HydrateThread, HydrateHead, AdvancesUnlessUndone, IsTombstone, TableOk;
    StoreOkDistinct(lim, s);
    HydrateOutcome(lim, s, snapshot, b, expected, tid);
    HeldOk(lim, s, tid);
    if snapshot.Obj? {
      HydrateAdvancesIff(lim, tid, Get(s.threads, tid).value, Without(snapshot.fields, "turns"),
                         Items(Or(Lookup(snapshot, "turns"), Arr([]))), b, q, k);
    }
  }
}
