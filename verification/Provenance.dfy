/** What merging may do to an entry the store already holds, and what trimming may do
    (ccc_server/codex_conversation.py:112-230, 267-269). */
module Provenance {
  import opened OrderedDict
  import opened Sequences
  import opened Json
  import opened Clipping
  import opened Conversation
  import opened Eviction
  import opened StoreOps
  import opened StoreInvariant
  import opened HydrateRace

  // ---- when nothing has to go ----

  ghost predicate Fits(lim: Limits, t: Thread) {
    WithinCaps(lim, t) && t.bytes <= lim.threadBytes
  }

  lemma {:induction false} CapAllIdle(t: Thread, keys: seq<string>, cap: nat)
    requires forall k :: |ItemsOf(t, k)| <= cap
    ensures CapAllItems(t, keys, cap) == t
    decreases |keys|
  {
    if keys != [] {
      assert |ItemsOf(t, keys[0])| <= cap;
      CapAllIdle(t, keys[1..], cap);
    }
  }

  /** A thread within its limits is left alone. */
  lemma TrimIdle(lim: Limits, t: Thread)
    requires Fits(lim, t)
    ensures Trim(lim, t) == t
  {
    CapAllIdle(t, Keys(t.turns), lim.maxItems);
  }

  ghost predicate QuietRows(lim: Limits, t: Thread, rows: seq<Json>, b: int)
    decreases |rows|
  {
    rows == [] ||
    if NamesTurn(rows[0]) then
      var u := MergeTurn(lim, t, rows[0], b); Fits(lim, u) && QuietRows(lim, u, rows[1..], b)
    else QuietRows(lim, t, rows[1..], b)
  }

  /** No trim of this hydrate evicts anything. */
  ghost predicate QuietHydrate(lim: Limits, t: Thread, head: Dict<string, Json>, history: seq<Json>, b: int) {
    && QuietRows(lim, HydrateHead(lim, t, head, |history| > lim.maxTurns, b), Last(history, lim.maxTurns), b)
    && Fits(lim, PureHydrate(lim, t, head, history, b))
  }

  lemma {:induction false} QuietRowsMerge(lim: Limits, t: Thread, rows: seq<Json>, b: int)
    requires QuietRows(lim, t, rows, b)
    ensures HydrateTurns(lim, t, rows, b) == MergeRows(lim, t, rows, b)
    decreases |rows|
  {
    hide MergeTurn, Trim, Fits;
    if rows != [] {
      if NamesTurn(rows[0]) {
        var u := MergeTurn(lim, t, rows[0], b);
        TrimIdle(lim, u);
        QuietRowsMerge(lim, u, rows[1..], b);
      } else {
        QuietRowsMerge(lim, t, rows[1..], b);
      }
    }
  }

  lemma QuietHydrateIsPure(lim: Limits, t: Thread, head: Dict<string, Json>, history: seq<Json>, b: int)
    requires QuietHydrate(lim, t, head, history, b)
    ensures HydrateThread(lim, t, head, history, b) == PureHydrate(lim, t, head, history, b)
  {
    hide Trim, HydrateHead, Reorder, Fits;
    QuietRowsMerge(lim, HydrateHead(lim, t, head, |history| > lim.maxTurns, b), Last(history, lim.maxTurns), b);
    TrimIdle(lim, PureHydrate(lim, t, head, history, b));
  }

  /** The thread after its events, each followed by its trim. */
  function Events(lim: Limits, t: Thread, events: seq<Live>): Thread
    decreases |events|
  {
    if events == [] then t
    else Events(lim, Trim(lim, MergeEvent(lim, t, events[0].name, events[0].params, events[0].clipped, events[0].at)),
      events[1..])
  }

  ghost predicate QuietEvents(lim: Limits, t: Thread, events: seq<Live>)
    decreases |events|
  {
    events == [] ||
    (var u := MergeEvent(lim, t, events[0].name, events[0].params, events[0].clipped, events[0].at);
     Fits(lim, u) && QuietEvents(lim, u, events[1..]))
  }

  lemma {:induction false} QuietEventsArePure(lim: Limits, t: Thread, events: seq<Live>)
    requires QuietEvents(lim, t, events)
    ensures Events(lim, t, events) == PureEvents(lim, t, events)
    decreases |events|
  {
    hide MergeEvent, Trim, Fits;
    if events != [] {
      var u := MergeEvent(lim, t, events[0].name, events[0].params, events[0].clipped, events[0].at);
      TrimIdle(lim, u);
      QuietEventsArePure(lim, u, events[1..]);
    }
  }

  /** Late hydrate equals early hydrate: when neither order evicts anything, a snapshot read at `b`
      and applied after newer events shows the same metadata values, the same provenance and the same
      turn order as when it is applied before them. */
  lemma LateHydrateEqualsEarlyHydrate(lim: Limits, tid: string, t: Thread, events: seq<Live>,
                                      head: Dict<string, Json>, history: seq<Json>, b: int)
    requires ThreadOk(tid, t) && forall i :: 0 <= i < |events| ==> events[i].at > b
    requires QuietEvents(lim, t, events) && QuietHydrate(lim, PureEvents(lim, t, events), head, history, b)
    requires QuietHydrate(lim, t, head, history, b) && QuietEvents(lim, PureHydrate(lim, t, head, history, b), events)
    ensures SameView(HydrateThread(lim, Events(lim, t, events), head, history, b),
                     Events(lim, HydrateThread(lim, t, head, history, b), events))
  {
    hide HydrateThread, PureHydrate, PureEvents, Events, SameView, ThreadOk;
    QuietEventsArePure(lim, t, events);
    QuietHydrateIsPure(lim, PureEvents(lim, t, events), head, history, b);
    QuietHydrateIsPure(lim, t, head, history, b);
    QuietEventsArePure(lim, PureHydrate(lim, t, head, history, b), events);
    LateEqualsEarly(lim, tid, t, events, head, history, b);
  }

  // ---- items ----

  function ItemAtKey(t: Thread, q: string, i: string): Option<Item> {
    Get(ItemsOf(t, q), i)
  }

  /** `after` is what a merge may make of `was`: never forgotten, never older, never un-completed,
      and untouched when its provenance is above `floor`. */
  ghost predicate ItemAdvances(was: Option<Item>, after: Option<Item>, floor: int) {
    was.Some? ==>
      && after.Some?
      && was.value.at <= after.value.at
      && (was.value.complete ==> after.value.complete)
      && (was.value.at > floor ==> after == was)
  }

  ghost predicate ItemsAdvance(t: Thread, u: Thread, floor: int) {
    forall q, i :: ItemAdvances(ItemAtKey(t, q, i), ItemAtKey(u, q, i), floor)
  }

  lemma AdvanceRefl(t: Thread, floor: int)
    ensures ItemsAdvance(t, t, floor)
  {
  }

  lemma AdvanceTrans(t: Thread, u: Thread, w: Thread, floor: int)
    requires ItemsAdvance(t, u, floor) && ItemsAdvance(u, w, floor)
    ensures ItemsAdvance(t, w, floor)
  {
    forall q, i ensures ItemAdvances(ItemAtKey(t, q, i), ItemAtKey(w, q, i), floor) {
      assert ItemAdvances(ItemAtKey(t, q, i), ItemAtKey(u, q, i), floor);
      assert ItemAdvances(ItemAtKey(u, q, i), ItemAtKey(w, q, i), floor);
    }
  }

  /** Storing an item whose stored version, if any, is not newer than the write. */
  lemma PutItemAdvances(lim: Limits, t: Thread, q: string, item: Dict<string, Json>, complete: bool, at: int,
                        floor: int)
    requires var iid := Lookup(Obj(item), "id");
      iid.Str? && ItemAtKey(t, q, iid.s).Some? ==>
        ItemAtKey(t, q, iid.s).value.at <= at && ItemAtKey(t, q, iid.s).value.at <= floor
    ensures ItemsAdvance(t, PutItem(lim, t, q, item, complete, at), floor)
  {
    hide Bounded, Merge, ItemSize;
    var u := PutItem(lim, t, q, item, complete, at);
    var iid := Lookup(Obj(item), "id");
    if Has(t.turns, q) && iid.Str? {
      var turn := Get(t.turns, q).value;
      match NextItem(lim, Get(turn.items, iid.s), item, complete, at)
      case None =>
      case Some((entry, _)) =>
        var next := turn.(items := Put(turn.items, iid.s, entry));
        forall r, i ensures ItemAdvances(ItemAtKey(t, r, i), ItemAtKey(u, r, i), floor) {
          GetPut(t.turns, q, next, r);
          GetPut(turn.items, iid.s, entry, i);
        }
    }
  }

  lemma SameItemsAdvance(t: Thread, u: Thread, floor: int)
    requires forall q :: ItemsOf(t, q) == ItemsOf(u, q)
    ensures ItemsAdvance(t, u, floor)
  {
  }

  lemma OpenAssignItems(t: Thread, q: string, fields: Dict<string, Json>, at: int, before: Option<int>, clipped: bool,
                        r: string)
    ensures ItemsOf(AssignTurn(Flag(OpenTurn(t, q), clipped), q, fields, at, before), r) == ItemsOf(t, r)
  {
    var blank := Turn([], []);
    if !Has(t.turns, q) {
      GetPut(t.turns, q, blank, q);
      GetPut(t.turns, q, blank, r);
      var o := t.(turns := Put(t.turns, q, blank));
      AssignTurnItems(o, q, [("id", Str(q))], 0, None, r);
    }
    AssignTurnItems(Flag(OpenTurn(t, q), clipped), q, fields, at, before, r);
  }

  lemma AssignTurnItems(t: Thread, q: string, fields: Dict<string, Json>, at: int, before: Option<int>, r: string)
    ensures ItemsOf(AssignTurn(t, q, fields, at, before), r) == ItemsOf(t, r)
  {
    match Get(t.turns, q)
    case None =>
    case Some(turn) =>
      var (bytes, meta) := AssignAll(t.bytes, turn.meta, fields, at, before);
      GetPut(t.turns, q, turn.(meta := meta), r);
  }

  // ---- a snapshot ----

  /** A metadata entry through a merge: kept, never older, untouched above `floor`. */
  ghost predicate MetaAdvances(was: Option<Meta>, after: Option<Meta>, floor: int) {
    was.Some? ==> after.Some? && was.value.at <= after.value.at && (was.value.at > floor ==> after == was)
  }

  lemma {:induction false} SettleAdvances(held: Option<Meta>, k: string, fields: Dict<string, Json>, b: int)
    ensures MetaAdvances(held, Settle(held, k, fields, b, Some(b)), b)
    decreases |fields|
  {
    if fields != [] {
      var (key, value) := fields[0];
      if key == k && !Refuses(held, k, value) && !TooNew(held, Some(b)) {
        SettleAdvances(Some(Meta(value, b, MetaSize(k, value))), k, fields[1..], b);
      } else {
        SettleAdvances(held, k, fields[1..], b);
      }
    }
  }

  // ---- an event ----

  /** Every provenance in the thread is at most `n`. */
  ghost predicate UpTo(t: Thread, n: int) {
    && (forall k :: Get(t.meta, k).Some? ==> Get(t.meta, k).value.at <= n)
    && (forall q, k :: TurnMeta(t, q, k).Some? ==> TurnMeta(t, q, k).value.at <= n)
    && (forall q, i :: ItemAtKey(t, q, i).Some? ==> ItemAtKey(t, q, i).value.at <= n)
  }

  ghost predicate ItemsUpTo(t: Thread, n: int) {
    forall q, i :: ItemAtKey(t, q, i).Some? ==> ItemAtKey(t, q, i).value.at <= n
  }

  lemma PutItemUpTo(lim: Limits, t: Thread, q: string, item: Dict<string, Json>, complete: bool, at: int)
    requires ItemsUpTo(t, at)
    ensures ItemsUpTo(PutItem(lim, t, q, item, complete, at), at)
    ensures ItemsAdvance(t, PutItem(lim, t, q, item, complete, at), at)
  {
    PutItemAdvances(lim, t, q, item, complete, at, at);
    hide Bounded, Merge, ItemSize, ItemsAdvance;
    var u := PutItem(lim, t, q, item, complete, at);
    var iid := Lookup(Obj(item), "id");
    if Has(t.turns, q) && iid.Str? {
      var turn := Get(t.turns, q).value;
      match NextItem(lim, Get(turn.items, iid.s), item, complete, at)
      case None =>
      case Some((entry, _)) =>
        var next := turn.(items := Put(turn.items, iid.s, entry));
        forall r, i | ItemAtKey(u, r, i).Some? ensures ItemAtKey(u, r, i).value.at <= at {
          GetPut(t.turns, q, next, r);
          GetPut(turn.items, iid.s, entry, i);
          assert ItemAtKey(t, r, i).Some? ==> ItemAtKey(t, r, i).value.at <= at;
        }
    }
  }

  lemma {:induction false} PutItemsUpTo(lim: Limits, t: Thread, q: string, items: seq<Json>, complete: bool, at: int)
    requires ItemsUpTo(t, at)
    ensures ItemsUpTo(PutItems(lim, t, q, items, complete, at), at)
    ensures ItemsAdvance(t, PutItems(lim, t, q, items, complete, at), at)
    decreases |items|
  {
    hide PutItem, ItemsUpTo, ItemsAdvance;
    AdvanceRefl(t, at);
    if items != [] {
      var u := if items[0].Obj? then PutItem(lim, t, q, items[0].fields, complete, at) else t;
      if items[0].Obj? {
        PutItemUpTo(lim, t, q, items[0].fields, complete, at);
      }
      PutItemsUpTo(lim, u, q, items[1..], complete, at);
      AdvanceTrans(t, u, PutItems(lim, u, q, items[1..], complete, at), at);
    }
  }

  lemma TurnItemsUpTo(lim: Limits, t: Thread, q: string, name: string, p: Json, at: int)
    requires ItemsUpTo(t, at)
    ensures ItemsUpTo(TurnItems(lim, t, q, name, p, at), at)
    ensures ItemsAdvance(t, TurnItems(lim, t, q, name, p, at), at)
  {
    hide PutItem, PutItems, DeltaItem, ItemsUpTo, ItemsAdvance;
    AdvanceRefl(t, at);
    PutItemsUpTo(lim, t, q, Items(Or(Lookup(TurnData(p), "items"), Arr([]))), name == "turn/completed", at);
    var item := Lookup(p, "item");
    if item.Obj? {
      PutItemUpTo(lim, t, q, item.fields, name == "item/completed", at);
    }
    if StartsWith(name, "item/") {
      var iid := Or(Lookup(p, "itemId"), Lookup(p, "item_id"));
      if iid.Str? {
        match DeltaItem(lim, Get(ItemsOf(t, q), iid.s), iid.s, name, p)
        case None =>
        case Some(delta) => PutItemUpTo(lim, t, q, delta, false, at);
      }
    }
  }

  lemma {:induction false} SettleUpTo(held: Option<Meta>, k: string, fields: Dict<string, Json>, at: int)
    requires held.Some? ==> held.value.at <= at
    ensures var after := Settle(held, k, fields, at, None);
      (after.Some? ==> after.value.at <= at) && (held.Some? ==> after.Some? && held.value.at <= after.value.at)
    decreases |fields|
  {
    if fields != [] {
      var (key, value) := fields[0];
      SettleUpTo(held, k, fields[1..], at);
      SettleUpTo(Some(Meta(value, at, MetaSize(k, value))), k, fields[1..], at);
    }
  }

  lemma EventItems(lim: Limits, t: Thread, name: string, p: Json, clipped: bool, at: int)
    requires ItemsUpTo(t, at)
    ensures ItemsUpTo(MergeEvent(lim, t, name, p, clipped, at), at)
    ensures ItemsAdvance(t, MergeEvent(lim, t, name, p, clipped, at), at)
  {
    hide TurnItems, AssignAll, EventFields, TurnFields, ItemsAdvance, AssignTurn, OpenTurn, TurnIdOf;
    var u := AssignThread(Flag(t, clipped), EventFields(name, p), at, None);
    SameItemsAdvance(t, u, at);
    var turnId := TurnIdOf(p);
    if IsId(turnId) {
      var w := AssignTurn(OpenTurn(u, turnId.s), turnId.s, TurnFields(name, p), at, None);
      forall r ensures ItemsOf(w, r) == ItemsOf(u, r) {
        FlagOff(OpenTurn(u, turnId.s));
        OpenAssignItems(u, turnId.s, TurnFields(name, p), at, None, false, r);
      }
      SameItemsAdvance(u, w, at);
      AdvanceTrans(t, u, w, at);
      TurnItemsUpTo(lim, w, turnId.s, name, p, at);
      AdvanceTrans(t, w, TurnItems(lim, w, turnId.s, name, p, at), at);
    }
  }

  lemma FlagOff(t: Thread)
    ensures Flag(t, false) == t
  {
  }

  /** An event numbered above everything the thread holds: provenance only grows, and no completed item
      becomes incomplete. */
  lemma EventOnlyAdvances(lim: Limits, tid: string, t: Thread, name: string, p: Json, clipped: bool, at: int,
                          q: string, k: string)
    requires ThreadOk(tid, t) && UpTo(t, at) && at >= 0
    ensures var u := MergeEvent(lim, t, name, p, clipped, at);
      && UpTo(u, at)
      && MetaAdvances(Get(t.meta, k), Get(u.meta, k), at)
      && MetaAdvances(TurnMeta(t, q, k), TurnMeta(u, q, k), at)
      && ItemAdvances(ItemAtKey(t, q, k), ItemAtKey(u, q, k), at)
  {
    hide MergeEvent, ThreadOk, Settle, EventFields, TurnFields, TurnIdOf;
    var u := MergeEvent(lim, t, name, p, clipped, at);
    EventItems(lim, t, name, p, clipped, at);
    forall j ensures Get(u.meta, j).Some? ==> Get(u.meta, j).value.at <= at {
      EventView(lim, tid, t, name, p, clipped, at, q, j);
      SettleUpTo(Get(t.meta, j), j, EventFields(name, p), at);
    }
    forall r, j ensures TurnMeta(u, r, j).Some? ==> TurnMeta(u, r, j).value.at <= at {
      EventView(lim, tid, t, name, p, clipped, at, r, j);
      SettleUpTo(Opened(TurnMeta(t, r, j), r, j), j, TurnFields(name, p), at);
    }
    EventView(lim, tid, t, name, p, clipped, at, q, k);
    SettleUpTo(Get(t.meta, k), k, EventFields(name, p), at);
    SettleUpTo(Opened(TurnMeta(t, q, k), q, k), k, TurnFields(name, p), at);
  }
}
