/** A snapshot read that races with live events: applying it after newer events gives the
    same metadata, provenance and turn order as applying it before them
    (ccc_server/codex_conversation.py:112-123, 184-230). */
module HydrateRace {
  import opened OrderedDict
  import opened Sequences
  import opened Json
  import opened Clipping
  import opened Conversation
  import opened Eviction
  import opened StoreOps
  import opened StoreInvariant

  // ---- one metadata key, followed through assignments ----

  predicate Refuses(held: Option<Meta>, k: string, value: Json) {
    k == "id" && (!value.Str? || |value.s| > 256 || (held.Some? && held.value.value != value))
  }

  predicate TooNew(held: Option<Meta>, before: Option<int>) {
    before.Some? && (match held case None => 0 case Some(m) => m.at) > before.value
  }

  /** What key `k` holds after assigning `fields`, given what it held. */
  function Settle(held: Option<Meta>, k: string, fields: Dict<string, Json>, at: int, before: Option<int>): Option<Meta>
    decreases |fields|
  {
    if fields == [] then held
    else
      var (key, value) := fields[0];
      if key == k && !Refuses(held, k, value) && !TooNew(held, before)
      then Settle(Some(Meta(value, at, MetaSize(k, value))), k, fields[1..], at, before)
      else Settle(held, k, fields[1..], at, before)
  }

  lemma {:induction false} AssignSettles(bytes: int, meta: Dict<string, Meta>, fields: Dict<string, Json>, at: int,
                                         before: Option<int>, k: string)
    ensures Get(AssignAll(bytes, meta, fields, at, before).1, k) == Settle(Get(meta, k), k, fields, at, before)
    decreases |fields|
  {
    if fields != [] {
      var (key, value) := fields[0];
      GetPut(meta, key, Meta(value, at, MetaSize(key, value)), k);
      AssignSettles(bytes + AssignCost(meta, key, value, before), Assign(meta, key, value, at, before), fields[1..],
        at, before, k);
    }
  }

  /** Provenance above the cursor blocks the snapshot; otherwise it writes as an event would. */
  lemma {:induction false} SnapshotSettle(held: Option<Meta>, k: string, fields: Dict<string, Json>, b: int)
    ensures Settle(held, k, fields, b, Some(b)) == if TooNew(held, Some(b)) then held
      else Settle(held, k, fields, b, None)
    decreases |fields|
  {
    if fields != [] {
      var (key, value) := fields[0];
      if key == k && !Refuses(held, k, value) && !TooNew(held, Some(b)) {
        SnapshotSettle(Some(Meta(value, b, MetaSize(k, value))), k, fields[1..], b);
      } else {
        SnapshotSettle(held, k, fields[1..], b);
      }
    }
  }

  /** What an unconditional write leaves depends on the old entry only through the fixed identity. */
  lemma {:induction false} EventSettle(held: Option<Meta>, other: Option<Meta>, k: string, fields: Dict<string, Json>,
                                       at: int)
    requires k == "id" ==> held.Some? && other.Some? && held.value.value == other.value.value
    ensures var a, b := Settle(held, k, fields, at, None), Settle(other, k, fields, at, None);
      && ((a == held && b == other) || (a == b && a.Some? && a.value.at == at))
      && (k == "id" ==> a.Some? && b.Some? && a.value.value == held.value.value && b.value.value == held.value.value)
    decreases |fields|
  {
    if fields != [] {
      var (key, value) := fields[0];
      var entry := Some(Meta(value, at, MetaSize(k, value)));
      if key == k && !Refuses(held, k, value) {
        EventSettle(entry, entry, k, fields[1..], at);
      } else {
        EventSettle(held, other, k, fields[1..], at);
      }
    }
  }

  /** The race on one key: snapshot after event equals event after snapshot. */
  lemma SettleCommutes(held: Option<Meta>, k: string, event: Dict<string, Json>, at: int,
                       snapshot: Dict<string, Json>, b: int)
    requires at > b && (k == "id" ==> held.Some?)
    ensures Settle(Settle(held, k, event, at, None), k, snapshot, b, Some(b))
         == Settle(Settle(held, k, snapshot, b, Some(b)), k, event, at, None)
  {
    var e, h := Settle(held, k, event, at, None), Settle(held, k, snapshot, b, Some(b));
    SnapshotSettle(held, k, snapshot, b);
    SnapshotSettle(e, k, snapshot, b);
    EventSettle(held, held, k, snapshot, b);
    EventSettle(held, h, k, event, at);
  }

  lemma {:induction false} SettleConcat(held: Option<Meta>, k: string, f: Dict<string, Json>, g: Dict<string, Json>,
                                        at: int, before: Option<int>)
    ensures Settle(Settle(held, k, f, at, before), k, g, at, before) == Settle(held, k, f + g, at, before)
    decreases |f|
  {
    if f == [] {
      assert f + g == g;
    } else {
      assert (f + g)[1..] == f[1..] + g;
      var (key, value) := f[0];
      var next := if key == k && !Refuses(held, k, value) && !TooNew(held, before)
        then Some(Meta(value, at, MetaSize(k, value))) else held;
      SettleConcat(next, k, f[1..], g, at, before);
    }
  }

  // ---- what a thread shows ----

  function TurnMeta(t: Thread, q: string, k: string): Option<Meta> {
    match Get(t.turns, q) case None => None case Some(turn) => Get(turn.meta, k)
  }

  /** Equal metadata values and provenance, for the thread and every turn, and equal turn order. */
  ghost predicate SameView(t: Thread, u: Thread) {
    && (forall k :: Get(t.meta, k) == Get(u.meta, k))
    && Keys(t.turns) == Keys(u.turns)
    && (forall q, k :: TurnMeta(t, q, k) == TurnMeta(u, q, k))
  }

  // ---- order ----

  /** Append the keys not yet present, in order. */
  function Uniq(acc: seq<string>, keys: seq<string>): seq<string>
    decreases |keys|
  {
    if keys == [] then acc else Uniq(if keys[0] in acc then acc else acc + [keys[0]], keys[1..])
  }

  lemma {:induction false} UniqConcat(acc: seq<string>, a: seq<string>, b: seq<string>)
    ensures Uniq(acc, a + b) == Uniq(Uniq(acc, a), b)
    decreases |a|
  {
    if a == [] {
      assert a + b == b;
    } else {
      assert (a + b)[1..] == a[1..] + b;
      UniqConcat(if a[0] in acc then acc else acc + [a[0]], a[1..], b);
    }
  }

  lemma {:induction false} UniqHas(acc: seq<string>, keys: seq<string>, k: string)
    ensures k in Uniq(acc, keys) <==> k in acc || k in keys
    decreases |keys|
  {
    if keys != [] {
      UniqHas(if keys[0] in acc then acc else acc + [keys[0]], keys[1..], k);
    }
  }

  lemma {:induction false} UniqIdle(acc: seq<string>, keys: seq<string>)
    requires forall k :: k in keys ==> k in acc
    ensures Uniq(acc, keys) == acc
    decreases |keys|
  {
    if keys != [] {
      assert keys[0] in acc;
      UniqIdle(acc, keys[1..]);
    }
  }

  /** Deduplicating twice, with more keys in between, is deduplicating once. */
  lemma {:induction false} UniqNested(acc: seq<string>, keys: seq<string>, more: seq<string>)
    ensures Uniq(acc, Uniq(keys, more)) == Uniq(acc, keys + more)
    decreases |more|
  {
    if more == [] {
      assert keys + more == keys;
    } else {
      var k := more[0];
      var next := if k in keys then keys else keys + [k];
      assert Uniq(keys, more) == Uniq(next, more[1..]);
      hide Uniq;
      UniqNested(acc, next, more[1..]);
      assert keys + more == (keys + [k]) + more[1..];
      UniqConcat(acc, next, more[1..]);
      UniqConcat(acc, keys + [k], more[1..]);
      if k in keys { UniqAgain(acc, keys, k); }
    }
  }

  lemma {:induction false} UniqAgain(acc: seq<string>, keys: seq<string>, k: string)
    requires k in keys
    ensures Uniq(acc, keys + [k]) == Uniq(acc, keys)
  {
    hide Uniq;
    UniqConcat(acc, keys, [k]);
    UniqHas(acc, keys, k);
    UniqIdle(Uniq(acc, keys), [k]);
  }

  // ---- untrimmed merges ----

  function MergeRows(lim: Limits, t: Thread, rows: seq<Json>, b: int): Thread
    decreases |rows|
  {
    if rows == [] then t
    else MergeRows(lim, if NamesTurn(rows[0]) then MergeTurn(lim, t, rows[0], b) else t, rows[1..], b)
  }

  function PureHydrate(lim: Limits, t: Thread, head: Dict<string, Json>, history: seq<Json>, b: int): Thread {
    var rows := Last(history, lim.maxTurns);
    Reorder(MergeRows(lim, HydrateHead(lim, t, head, |history| > lim.maxTurns, b), rows, b), HistoryOrder(rows))
  }

  /** The metadata fields a history row carries. */
  function RowFields(lim: Limits, raw: Json): Dict<string, Json>
    requires raw.Obj?
  {
    Fields(Bounded(lim.textLimit, Obj(Without(raw.fields, "items"))).0)
  }

  /** All fields the snapshot carries for turn `q`, in order. */
  function FieldsFor(lim: Limits, rows: seq<Json>, q: string): Dict<string, Json> {
    if rows == [] then []
    else
      (if NamesTurn(rows[0]) && TurnName(rows[0]) == q then RowFields(lim, rows[0]) else [])
      + FieldsFor(lim, rows[1..], q)
  }

  /** The identity a turn has as soon as it is opened. */
  function Opened(held: Option<Meta>, q: string, k: string): Option<Meta> {
    if held.None? && k == "id" then Some(Meta(Str(q), 0, MetaSize("id", Str(q)))) else held
  }

  lemma PutTurnMeta(t: Thread, q: string, turn: Turn, r: string, k: string)
    ensures TurnMeta(t.(turns := Put(t.turns, q, turn)), r, k) == if r == q then Get(turn.meta, k)
      else TurnMeta(t, r, k)
  {
    GetPut(t.turns, q, turn, r);
  }

  lemma OpenTurnView(tid: string, t: Thread, q: string, r: string, k: string)
    requires ThreadOk(tid, t) && |q| <= 256
    ensures Keys(OpenTurn(t, q).turns) == Uniq(Keys(t.turns), [q])
    ensures TurnMeta(OpenTurn(t, q), r, k) == if r == q then Opened(TurnMeta(t, q, k), q, k) else TurnMeta(t, r, k)
    ensures OpenTurn(t, q).meta == t.meta
  {
    HasKey(t.turns, q);
    if Has(t.turns, q) {
      assert TurnOk(q, Get(t.turns, q).value);
    } else {
      var blank := Turn([], []);
      GetPut(t.turns, q, blank, q);
      FreshIdentity(t.bytes, q);
      var meta := AssignAll(t.bytes, [], [("id", Str(q))], 0, None).1;
      PutTwice(t.turns, q, blank, Turn(meta, []));
      PutTurnMeta(t, q, Turn(meta, []), r, k);
      PutKeys(t.turns, q, Turn(meta, []));
      assert meta[1..] == [];
    }
  }

  lemma AssignTurnView(t: Thread, q: string, fields: Dict<string, Json>, at: int, before: Option<int>, r: string,
                       k: string)
    requires Has(t.turns, q)
    ensures var u := AssignTurn(t, q, fields, at, before);
      && Keys(u.turns) == Keys(t.turns) && u.meta == t.meta
      && TurnMeta(u, r, k) == if r == q then Settle(TurnMeta(t, q, k), k, fields, at, before) else TurnMeta(t, r, k)
  {
    var turn := Get(t.turns, q).value;
    var (bytes, meta) := AssignAll(t.bytes, turn.meta, fields, at, before);
    AssignSettles(t.bytes, turn.meta, fields, at, before, k);
    PutTurnMeta(t, q, turn.(meta := meta), r, k);
    PutKeys(t.turns, q, turn.(meta := meta));
  }

  /** Items never touch metadata or turn order. */
  ghost predicate MetaKept(t: Thread, u: Thread) {
    t.meta == u.meta && Keys(t.turns) == Keys(u.turns) && forall q, k :: TurnMeta(t, q, k) == TurnMeta(u, q, k)
  }

  lemma PutItemView(lim: Limits, t: Thread, q: string, item: Dict<string, Json>, complete: bool, at: int)
    ensures MetaKept(t, PutItem(lim, t, q, item, complete, at))
  {
    var u := PutItem(lim, t, q, item, complete, at);
    var iid := Lookup(Obj(item), "id");
    if Has(t.turns, q) && iid.Str? {
      var turn := Get(t.turns, q).value;
      match NextItem(lim, Get(turn.items, iid.s), item, complete, at)
      case None =>
      case Some((entry, _)) =>
        var next := turn.(items := Put(turn.items, iid.s, entry));
        PutKeys(t.turns, q, next);
        forall r, k ensures TurnMeta(t, r, k) == TurnMeta(u, r, k) {
          PutTurnMeta(t, q, next, r, k);
        }
    }
  }

  lemma HydrateItemsView(lim: Limits, t: Thread, q: string, items: seq<Json>, complete: bool, b: int)
    ensures MetaKept(t, HydrateItems(lim, t, q, items, complete, b))
    decreases |items|
  {
    hide PutItem, Bounded;
    if items != [] {
      if items[0].Obj? {
        PutItemView(lim, t, q, items[0].fields, complete, b);
      }
      HydrateItemsView(lim, HydrateItem(lim, t, q, items[0], complete, b), q, items[1..], complete, b);
    }
  }

  lemma PutItemsView(lim: Limits, t: Thread, q: string, items: seq<Json>, complete: bool, at: int)
    ensures MetaKept(t, PutItems(lim, t, q, items, complete, at))
    decreases |items|
  {
    hide PutItem, Bounded;
    if items != [] {
      if items[0].Obj? {
        PutItemView(lim, t, q, items[0].fields, complete, at);
        PutItemsView(lim, PutItem(lim, t, q, items[0].fields, complete, at), q, items[1..], complete, at);
      } else {
        PutItemsView(lim, t, q, items[1..], complete, at);
      }
    }
  }

  lemma TurnItemsView(lim: Limits, t: Thread, q: string, name: string, p: Json, at: int)
    ensures MetaKept(t, TurnItems(lim, t, q, name, p, at))
  {
    hide PutItem, PutItems, DeltaItem, MetaKept;
    PutItemsView(lim, t, q, Items(Or(Lookup(TurnData(p), "items"), Arr([]))), name == "turn/completed", at);
    var item := Lookup(p, "item");
    if item.Obj? {
      PutItemView(lim, t, q, item.fields, name == "item/completed", at);
    }
    KeptRefl(t);
    if StartsWith(name, "item/") {
      DeltaView(lim, t, q, name, p, at);
    }
  }

  lemma KeptRefl(t: Thread)
    ensures MetaKept(t, t)
  {
  }

  lemma DeltaView(lim: Limits, t: Thread, q: string, name: string, p: Json, at: int)
    requires StartsWith(name, "item/")
    ensures MetaKept(t, Delta(lim, t, q, name, p, at))
  {
    hide PutItem, DeltaItem, MetaKept;
    KeptRefl(t);
    var iid := Or(Lookup(p, "itemId"), Lookup(p, "item_id"));
    if iid.Str? {
      match DeltaItem(lim, Get(ItemsOf(t, q), iid.s), iid.s, name, p)
      case None =>
      case Some(item) => PutItemView(lim, t, q, item, false, at);
    }
  }

  /** What merging one history row shows. */
  lemma MergeTurnView(lim: Limits, tid: string, t: Thread, raw: Json, b: int, r: string, k: string)
    requires ThreadOk(tid, t) && NamesTurn(raw)
    ensures var u, q := MergeTurn(lim, t, raw, b), TurnName(raw);
      && u.meta == t.meta && Keys(u.turns) == Uniq(Keys(t.turns), [q])
      && TurnMeta(u, r, k) == if r == q
         then Settle(Opened(TurnMeta(t, q, k), q, k), k, RowFields(lim, raw), b, Some(b)) else TurnMeta(t, r, k)
  {
    hide Bounded, HydrateItems, Settle;
    var q := TurnName(raw);
    var (meta, clipped) := Bounded(lim.textLimit, Obj(Without(raw.fields, "items")));
    OpenTurnView(tid, t, q, r, k);
    OpenTurnOk(tid, t, q);
    var o := Flag(OpenTurn(t, q), clipped);
    AssignTurnView(o, q, Fields(meta), b, Some(b), r, k);
    var u := AssignTurn(o, q, Fields(meta), b, Some(b));
    var items := Or(Lookup(raw, "items"), Arr([]));
    if items.Arr? {
      var w := Flag(u, |items.items| > lim.maxItems);
      HydrateItemsView(lim, w, q, Last(items.items, lim.maxItems), Finished(Lookup(raw, "status")), b);
    }
  }

  /** Turn `q` after the whole history: opened if the history names it, then written by all its rows. */
  function AfterRows(lim: Limits, held: Option<Meta>, rows: seq<Json>, q: string, k: string, b: int): Option<Meta> {
    if q in HistoryOrder(rows) then Settle(Opened(held, q, k), k, FieldsFor(lim, rows, q), b, Some(b)) else held
  }

  /** One more row in front. */
  lemma {:induction false} AfterRowsStep(lim: Limits, held: Option<Meta>, rows: seq<Json>, q: string, k: string, b: int)
    requires rows != []
    ensures AfterRows(lim, held, rows, q, k, b) == AfterRows(lim,
      if NamesTurn(rows[0]) && TurnName(rows[0]) == q
        then Settle(Opened(held, q, k), k, RowFields(lim, rows[0]), b, Some(b)) else held,
      rows[1..], q, k, b)
  {
    hide RowFields, Settle;
    var raw, rest := rows[0], rows[1..];
    if NamesTurn(raw) && TurnName(raw) == q {
      var first := Opened(held, q, k);
      SettleKeepsId(first, k, RowFields(lim, raw), b, Some(b));
      SettleConcat(first, k, RowFields(lim, raw), FieldsFor(lim, rest, q), b, Some(b));
      if q !in HistoryOrder(rest) {
        NoFieldsFor(lim, rest, q);
        assert RowFields(lim, raw) + [] == RowFields(lim, raw);
      }
    } else {
      assert [] + FieldsFor(lim, rest, q) == FieldsFor(lim, rest, q);
      assert [] + HistoryOrder(rest) == HistoryOrder(rest);
    }
  }

  lemma {:induction false} MergeRowsView(lim: Limits, tid: string, t: Thread, rows: seq<Json>, b: int, q: string,
                                         k: string)
    requires ThreadOk(tid, t)
    ensures var u := MergeRows(lim, t, rows, b);
      && ThreadOk(tid, u) && u.meta == t.meta
      && Keys(u.turns) == Uniq(Keys(t.turns), HistoryOrder(rows))
      && TurnMeta(u, q, k) == AfterRows(lim, TurnMeta(t, q, k), rows, q, k, b)
    decreases |rows|
  {
    hide MergeTurn, RowFields, ThreadOk, Settle, AfterRows, Uniq, NamesTurn, TurnName, TurnMeta;
    if rows == [] {
      UniqIdle(Keys(t.turns), []);
      AfterNoRows(lim, TurnMeta(t, q, k), q, k, b);
    } else {
      var raw, rest := rows[0], rows[1..];
      AfterRowsStep(lim, TurnMeta(t, q, k), rows, q, k, b);
      if NamesTurn(raw) {
        var u, name := MergeTurn(lim, t, raw, b), TurnName(raw);
        MergeTurnOk(lim, tid, t, raw, b);
        MergeTurnView(lim, tid, t, raw, b, q, k);
        MergeRowsView(lim, tid, u, rest, b, q, k);
        UniqConcat(Keys(t.turns), [name], HistoryOrder(rest));
        assert HistoryOrder(rows) == [name] + HistoryOrder(rest);
      } else {
        MergeRowsView(lim, tid, t, rest, b, q, k);
        assert HistoryOrder(rows) == [] + HistoryOrder(rest) == HistoryOrder(rest);
      }
    }
  }

  lemma {:induction false} AfterNoRows(lim: Limits, held: Option<Meta>, q: string, k: string, b: int)
    ensures AfterRows(lim, held, [], q, k, b) == held
  {
  }

  lemma {:induction false} SettleKeepsId(held: Option<Meta>, k: string, fields: Dict<string, Json>, at: int,
                                         before: Option<int>)
    ensures held.Some? ==> Settle(held, k, fields, at, before).Some?
    decreases |fields|
  {
    if fields != [] {
      var (key, value) := fields[0];
      SettleKeepsId(held, k, fields[1..], at, before);
      SettleKeepsId(Some(Meta(value, at, MetaSize(k, value))), k, fields[1..], at, before);
    }
  }

  lemma {:induction false} NoFieldsFor(lim: Limits, rows: seq<Json>, q: string)
    requires q !in HistoryOrder(rows)
    ensures FieldsFor(lim, rows, q) == []
  {
    if rows != [] {
      NoFieldsFor(lim, rows[1..], q);
    }
  }

  lemma {:induction false} GatherKeys(acc: Dict<string, Turn>, keys: seq<string>, turns: Dict<string, Turn>)
    requires forall k :: k in keys ==> Has(turns, k)
    ensures Keys(Gather(acc, keys, turns)) == Uniq(Keys(acc), keys)
    decreases |keys|
  {
    if keys != [] {
      assert Has(turns, keys[0]);
      var turn := Get(turns, keys[0]).value;
      PutKeys(acc, keys[0], turn);
      HasKey(acc, keys[0]);
      GatherKeys(Put(acc, keys[0], turn), keys[1..], turns);
    }
  }

  /** What the whole hydrate shows. */
  lemma HydrateView(lim: Limits, tid: string, t: Thread, head: Dict<string, Json>, history: seq<Json>, b: int,
                    q: string, k: string)
    requires ThreadOk(tid, t)
    ensures var u, rows := PureHydrate(lim, t, head, history, b), Last(history, lim.maxTurns);
      && ThreadOk(tid, u)
      && Get(u.meta, k) == Settle(Get(t.meta, k), k, HeadFields(lim, head), b, Some(b))
      && Keys(u.turns) == Uniq([], HistoryOrder(rows) + Keys(t.turns))
      && TurnMeta(u, q, k) == AfterRows(lim, TurnMeta(t, q, k), rows, q, k, b)
  {
    hide Bounded, ThreadOk, Settle, AfterRows, MergeTurn, MergeRows, HydrateHead, HeadFields, HistoryOrder, Uniq;
    var rows := Last(history, lim.maxTurns);
    var order := HistoryOrder(rows);
    var h := HydrateHead(lim, t, head, |history| > lim.maxTurns, b);
    HeadView(lim, tid, t, head, |history| > lim.maxTurns, b, k);
    var w := MergeRows(lim, h, rows, b);
    MergeRowsView(lim, tid, h, rows, b, q, k);
    ReorderOk(tid, w, order);
    forall x | x in order + Keys(w.turns) ensures Has(w.turns, x) {
      UniqHas(Keys(h.turns), order, x);
      HasKey(w.turns, x);
    }
    GatherKeys([], order + Keys(w.turns), w.turns);
    var keys := Keys(t.turns);
    UniqConcat([], order, Uniq(keys, order));
    UniqNested(Uniq([], order), keys, order);
    UniqConcat([], order, keys + order);
    assert order + (keys + order) == (order + keys) + order;
    UniqConcat([], order + keys, order);
    forall x | x in order ensures x in Uniq([], order + keys) {
      UniqHas([], order + keys, x);
    }
    UniqIdle(Uniq([], order + keys), order);
  }

  function HeadFields(lim: Limits, head: Dict<string, Json>): Dict<string, Json> {
    Without(Fields(Bounded(lim.textLimit, Obj(head)).0), "turns")
  }

  lemma HeadView(lim: Limits, tid: string, t: Thread, head: Dict<string, Json>, overlong: bool, b: int, k: string)
    requires ThreadOk(tid, t)
    ensures var h := HydrateHead(lim, t, head, overlong, b);
      && ThreadOk(tid, h) && h.turns == t.turns
      && Get(h.meta, k) == Settle(Get(t.meta, k), k, HeadFields(lim, head), b, Some(b))
  {
    hide Bounded, Settle;
    var (bounded, clipped) := Bounded(lim.textLimit, Obj(head));
    var f := Flag(t, clipped || overlong);
    AssignThreadOk(tid, f, Without(Fields(bounded), "turns"), b, Some(b));
    AssignSettles(f.bytes, f.meta, Without(Fields(bounded), "turns"), b, Some(b), k);
  }

  /** The turn an event names, as a list of zero or one keys. */
  function EventTurns(p: Json): seq<string> {
    var q := TurnIdOf(p); if IsId(q) then [q.s] else []
  }

  function AfterEvent(held: Option<Meta>, name: string, p: Json, q: string, k: string, at: int): Option<Meta> {
    if q in EventTurns(p) then Settle(Opened(held, q, k), k, TurnFields(name, p), at, None) else held
  }

  /** What one event shows. */
  lemma EventView(lim: Limits, tid: string, t: Thread, name: string, p: Json, clipped: bool, at: int, q: string,
                  k: string)
    requires ThreadOk(tid, t)
    ensures var u := MergeEvent(lim, t, name, p, clipped, at);
      && ThreadOk(tid, u)
      && Get(u.meta, k) == Settle(Get(t.meta, k), k, EventFields(name, p), at, None)
      && Keys(u.turns) == Uniq(Keys(t.turns), EventTurns(p))
      && TurnMeta(u, q, k) == AfterEvent(TurnMeta(t, q, k), name, p, q, k, at)
  {
    hide EventFields, TurnFields, TurnItems, Settle, TurnIdOf, OpenTurn, AssignTurn, AssignAll;
    MergeEventOk(lim, tid, t, name, p, clipped, at);
    var f := Flag(t, clipped);
    AssignThreadOk(tid, f, EventFields(name, p), at, None);
    AssignSettles(f.bytes, f.meta, EventFields(name, p), at, None, k);
    var u := AssignThread(f, EventFields(name, p), at, None);
    if IsId(TurnIdOf(p)) {
      EventTurnView(lim, tid, u, TurnIdOf(p).s, name, p, at, q, k);
    }
  }

  /** What the turn of an event shows. */
  lemma {:induction false} EventTurnView(lim: Limits, tid: string, u: Thread, r: string, name: string, p: Json, at: int,
                                         q: string, k: string)
    requires ThreadOk(tid, u) && |r| <= 256
    ensures var w := TurnItems(lim, AssignTurn(OpenTurn(u, r), r, TurnFields(name, p), at, None), r, name, p, at);
      && w.meta == u.meta && Keys(w.turns) == Uniq(Keys(u.turns), [r])
      && TurnMeta(w, q, k) == if q == r then Settle(Opened(TurnMeta(u, r, k), r, k), k, TurnFields(name, p), at, None)
                              else TurnMeta(u, q, k)
  {
    hide TurnFields, TurnItems, Settle, OpenTurn, AssignTurn, Uniq, TurnMeta;
    OpenTurnView(tid, u, r, q, k);
    OpenTurnOk(tid, u, r);
    AssignTurnView(OpenTurn(u, r), r, TurnFields(name, p), at, None, q, k);
    TurnItemsView(lim, AssignTurn(OpenTurn(u, r), r, TurnFields(name, p), at, None), r, name, p, at);
  }

  // ---- the race ----

  /** An event as the store sees it: bounded parameters and the number it was given. */
  datatype Live = Live(name: string, params: Json, clipped: bool, at: int)

  function PureEvents(lim: Limits, t: Thread, events: seq<Live>): Thread
    decreases |events|
  {
    if events == [] then t
    else PureEvents(lim, MergeEvent(lim, t, events[0].name, events[0].params, events[0].clipped, events[0].at),
      events[1..])
  }

  lemma TurnRace(lim: Limits, held: Option<Meta>, e: Live, rows: seq<Json>, q: string, k: string, b: int)
    requires e.at > b
    ensures AfterRows(lim, AfterEvent(held, e.name, e.params, q, k, e.at), rows, q, k, b)
         == AfterEvent(AfterRows(lim, held, rows, q, k, b), e.name, e.params, q, k, e.at)
  {
    hide TurnFields, FieldsFor, HistoryOrder, EventTurns, Settle;
    var first := Opened(held, q, k);
    var f := FieldsFor(lim, rows, q);
    SettleCommutes(first, k, TurnFields(e.name, e.params), e.at, f, b);
    SettleKeepsId(first, k, TurnFields(e.name, e.params), e.at, None);
    SettleKeepsId(first, k, f, b, Some(b));
  }

  /** One event. */
  lemma EventRace(lim: Limits, tid: string, t: Thread, e: Live, head: Dict<string, Json>, history: seq<Json>, b: int)
    requires ThreadOk(tid, t) && e.at > b
    ensures SameView(PureHydrate(lim, MergeEvent(lim, t, e.name, e.params, e.clipped, e.at), head, history, b),
                     MergeEvent(lim, PureHydrate(lim, t, head, history, b), e.name, e.params, e.clipped, e.at))
  {
    hide Settle, AfterRows, AfterEvent, EventFields, HeadFields, HistoryOrder, EventTurns, PureHydrate, MergeEvent;
    var rows := Last(history, lim.maxTurns);
    var m := MergeEvent(lim, t, e.name, e.params, e.clipped, e.at);
    var h := PureHydrate(lim, t, head, history, b);
    var late := PureHydrate(lim, m, head, history, b);
    var early := MergeEvent(lim, h, e.name, e.params, e.clipped, e.at);
    forall k ensures Get(late.meta, k) == Get(early.meta, k) {
      EventView(lim, tid, t, e.name, e.params, e.clipped, e.at, "", k);
      HydrateView(lim, tid, m, head, history, b, "", k);
      HydrateView(lim, tid, t, head, history, b, "", k);
      EventView(lim, tid, h, e.name, e.params, e.clipped, e.at, "", k);
      IdentityHeld(tid, t);
      SettleCommutes(Get(t.meta, k), k, EventFields(e.name, e.params), e.at, HeadFields(lim, head), b);
    }
    forall q, k ensures TurnMeta(late, q, k) == TurnMeta(early, q, k) {
      EventView(lim, tid, t, e.name, e.params, e.clipped, e.at, q, k);
      HydrateView(lim, tid, m, head, history, b, q, k);
      HydrateView(lim, tid, t, head, history, b, q, k);
      EventView(lim, tid, h, e.name, e.params, e.clipped, e.at, q, k);
      TurnRace(lim, TurnMeta(t, q, k), e, rows, q, k, b);
    }
    EventView(lim, tid, t, e.name, e.params, e.clipped, e.at, "", "");
    HydrateView(lim, tid, m, head, history, b, "", "");
    HydrateView(lim, tid, t, head, history, b, "", "");
    EventView(lim, tid, h, e.name, e.params, e.clipped, e.at, "", "");
    var order, keys, extra := HistoryOrder(rows), Keys(t.turns), EventTurns(e.params);
    UniqConcat([], order, Uniq(keys, extra));
    UniqNested(Uniq([], order), keys, extra);
    UniqConcat(Uniq([], order), keys, extra);
    UniqConcat([], order, keys);
  }

  lemma IdentityHeld(tid: string, t: Thread)
    requires ThreadOk(tid, t)
    ensures Get(t.meta, "id").Some?
  {
  }

  /** Events cannot tell apart two threads that show the same. */
  lemma {:induction false} EventsRespectView(lim: Limits, tid: string, t: Thread, u: Thread, events: seq<Live>)
    requires ThreadOk(tid, t) && ThreadOk(tid, u) && SameView(t, u)
    ensures SameView(PureEvents(lim, t, events), PureEvents(lim, u, events))
    decreases |events|
  {
    hide MergeEvent, ThreadOk, Settle, AfterEvent;
    if events != [] {
      var e := events[0];
      var t1 := MergeEvent(lim, t, e.name, e.params, e.clipped, e.at);
      var u1 := MergeEvent(lim, u, e.name, e.params, e.clipped, e.at);
      forall k ensures Get(t1.meta, k) == Get(u1.meta, k) {
        EventView(lim, tid, t, e.name, e.params, e.clipped, e.at, "", k);
        EventView(lim, tid, u, e.name, e.params, e.clipped, e.at, "", k);
      }
      forall q, k ensures TurnMeta(t1, q, k) == TurnMeta(u1, q, k) {
        EventView(lim, tid, t, e.name, e.params, e.clipped, e.at, q, k);
        EventView(lim, tid, u, e.name, e.params, e.clipped, e.at, q, k);
      }
      EventView(lim, tid, t, e.name, e.params, e.clipped, e.at, "", "");
      EventView(lim, tid, u, e.name, e.params, e.clipped, e.at, "", "");
      EventsRespectView(lim, tid, t1, u1, events[1..]);
    }
  }

  /** Any number of events: a late snapshot shows what an early one would have. */
  lemma {:induction false} LateEqualsEarly(lim: Limits, tid: string, t: Thread, events: seq<Live>,
                                           head: Dict<string, Json>, history: seq<Json>, b: int)
    requires ThreadOk(tid, t) && forall i :: 0 <= i < |events| ==> events[i].at > b
    ensures SameView(PureHydrate(lim, PureEvents(lim, t, events), head, history, b),
                     PureEvents(lim, PureHydrate(lim, t, head, history, b), events))
    decreases |events|
  {
    hide MergeEvent, PureHydrate, ThreadOk;
    if events != [] {
      var e := events[0];
      var m := MergeEvent(lim, t, e.name, e.params, e.clipped, e.at);
      var h := PureHydrate(lim, t, head, history, b);
      EventView(lim, tid, t, e.name, e.params, e.clipped, e.at, "", "");
      LateEqualsEarly(lim, tid, m, events[1..], head, history, b);
      EventRace(lim, tid, t, e, head, history, b);
      HydrateView(lim, tid, t, head, history, b, "", "");
      HydrateView(lim, tid, m, head, history, b, "", "");
      EventView(lim, tid, h, e.name, e.params, e.clipped, e.at, "", "");
      EventsRespectView(lim, tid, PureHydrate(lim, m, head, history, b),
        MergeEvent(lim, h, e.name, e.params, e.clipped, e.at), events[1..]);
    }
  }
}
