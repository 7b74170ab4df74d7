/** The data of `CodexConversationStore` (ccc_server/codex_conversation.py) and what its
    private helpers `_metadata`, `_thread`, `_turn` and `_put_item` compute.

    The three dictionaries `meta`, `meta_seq` and `meta_sizes` always have the same keys
    in the same order (every write and every pop touches all three), so one entry holds
    value, provenance and size together. */
module Conversation {
  import opened OrderedDict
  import opened Json
  import opened Clipping

  /** Constructor arguments after `max(1, ...)`; `pyStr` is Python's `str()` on a JSON value. */
  datatype Limits = Limits(
    eventCapacity: nat, maxThreads: nat, textLimit: nat,
    maxTurns: nat, maxItems: nat, threadBytes: nat, pyStr: Json -> string)

  ghost predicate LimitsOk(lim: Limits) {
    && lim.eventCapacity >= 1 && lim.maxThreads >= 1 && lim.textLimit >= 1
    && lim.maxTurns >= 1 && lim.maxItems >= 1 && lim.threadBytes >= 1024
  }

  datatype Meta = Meta(value: Json, at: int, size: nat)
  datatype Item = Item(value: Json, complete: bool, size: nat, at: int)
  datatype Turn = Turn(meta: Dict<string, Meta>, items: Dict<string, Item>)
  datatype Thread = Thread(meta: Dict<string, Meta>, turns: Dict<string, Turn>, truncated: bool, bytes: int)

  // ---- _metadata ----

  function MetaSize(key: string, value: Json): nat {
    DumpLen(Obj([(key, value)])) + 64
  }

  /** The identity of a thread or turn is fixed by its first writer. */
  predicate RejectsId(meta: Dict<string, Meta>, key: string, value: Json) {
    key == "id" &&
    (!value.Str? || |value.s| > 256 || (Has(meta, "id") && Get(meta, "id").value.value != value))
  }

  function Provenance(meta: Dict<string, Meta>, key: string): int {
    match Get(meta, key) case None => 0 case Some(m) => m.at
  }

  predicate Skips(meta: Dict<string, Meta>, key: string, value: Json, before: Option<int>) {
    RejectsId(meta, key, value) || (before.Some? && Provenance(meta, key) > before.value)
  }

  function Assign(meta: Dict<string, Meta>, key: string, value: Json, at: int,
                  before: Option<int>): Dict<string, Meta> {
    if Skips(meta, key, value, before) then meta else Put(meta, key, Meta(value, at, MetaSize(key, value)))
  }

  /** What one assignment adds to the thread's byte count. */
  function AssignCost(meta: Dict<string, Meta>, key: string, value: Json, before: Option<int>): int {
    if Skips(meta, key, value, before) then 0
    else MetaSize(key, value) - match Get(meta, key) case None => 0 case Some(m) => m.size
  }

  function AssignAll(bytes: int, meta: Dict<string, Meta>, fields: Dict<string, Json>, at: int,
                     before: Option<int>): (int, Dict<string, Meta>)
    decreases |fields|
  {
    if fields == [] then (bytes, meta)
    else
      var (key, value) := fields[0];
      AssignAll(bytes + AssignCost(meta, key, value, before), Assign(meta, key, value, at, before), fields[1..], at,
        before)
  }

  function AssignThread(t: Thread, fields: Dict<string, Json>, at: int, before: Option<int>): Thread {
    var (bytes, meta) := AssignAll(t.bytes, t.meta, fields, at, before);
    t.(bytes := bytes, meta := meta)
  }

  function AssignTurn(t: Thread, turnId: string, fields: Dict<string, Json>, at: int, before: Option<int>): Thread {
    match Get(t.turns, turnId)
    case None => t
    case Some(turn) =>
      var (bytes, meta) := AssignAll(t.bytes, turn.meta, fields, at, before);
      t.(bytes := bytes, turns := Put(t.turns, turnId, turn.(meta := meta)))
  }

  // ---- _thread and _turn ----

  function NewThread(tid: string): Thread {
    AssignThread(Thread([], [], false, 64), [("id", Str(tid))], 0, None)
  }

  function OpenTurn(t: Thread, turnId: string): Thread {
    if Has(t.turns, turnId) then t
    else AssignTurn(t.(turns := Put(t.turns, turnId, Turn([], []))), turnId, [("id", Str(turnId))], 0, None)
  }

  // ---- _put_item ----

  function ItemSize(value: Json): nat {
    DumpLen(value) + 64
  }

  /** The stored entry that `item` produces over what the turn already holds, or None when it is refused. */
  function NextItem(lim: Limits, previous: Option<Item>, item: Dict<string, Json>, complete: bool,
                    at: int): Option<(Item, bool)> {
    if !IsId(Lookup(Obj(item), "id")) then None
    else if previous.Some? && previous.value.complete && !complete then None
    else
      var merged := if previous.Some? then Merge(Fields(previous.value.value), item) else item;
      var (bounded, clipped) := Bounded(lim.textLimit, Obj(merged));
      Some((Item(bounded, complete, ItemSize(bounded), at), clipped))
  }

  function PutItem(lim: Limits, t: Thread, turnId: string, item: Dict<string, Json>, complete: bool, at: int): Thread {
    var iid := Lookup(Obj(item), "id");
    match Get(t.turns, turnId)
    case None => t
    case Some(turn) =>
      if !iid.Str? then t
      else
        var previous := Get(turn.items, iid.s);
        match NextItem(lim, previous, item, complete, at)
        case None => t
        case Some((entry, clipped)) =>
          t.(bytes := t.bytes + entry.size - (match previous case None => 0 case Some(p) => p.size),
             truncated := t.truncated || clipped,
             turns := Put(t.turns, turnId, turn.(items := Put(turn.items, iid.s, entry))))
  }

  function Flag(t: Thread, clipped: bool): Thread {
    t.(truncated := t.truncated || clipped)
  }

  predicate Deleted(t: Thread) {
    match Get(t.meta, "deleted") case None => false case Some(m) => Truthy(m.value)
  }

  // ---- exact accounting ----

  function MetaCost(m: Meta): int { m.size }
  function ItemCost(i: Item): int { i.size }
  function TurnCost(turn: Turn): int { Sum(turn.meta, MetaCost) + Sum(turn.items, ItemCost) }

  /** 64 plus the sizes of every metadata field and item the thread still holds. */
  function ThreadBytes(t: Thread): int {
    64 + Sum(t.meta, MetaCost) + Sum(t.turns, TurnCost)
  }

  ghost predicate HasIdentity(meta: Dict<string, Meta>, id: string) {
    match Get(meta, "id") case None => false case Some(m) => m.value == Str(id) && m.size == MetaSize("id", Str(id))
  }

  ghost predicate TurnOk(turnId: string, turn: Turn) {
    |turnId| <= 256 && Distinct(turn.meta) && Distinct(turn.items) && HasIdentity(turn.meta, turnId)
  }

  ghost predicate TurnsOk(turns: Dict<string, Turn>) {
    Distinct(turns) && forall k :: Has(turns, k) ==> TurnOk(k, Get(turns, k).value)
  }

  /** What every stored thread satisfies between operations. */
  ghost predicate ThreadOk(tid: string, t: Thread) {
    && |tid| <= 256
    && Distinct(t.meta)
    && HasIdentity(t.meta, tid)
    && TurnsOk(t.turns)
    && t.bytes == ThreadBytes(t)
  }

  lemma {:induction false} AssignAllOk(bytes: int, meta: Dict<string, Meta>, fields: Dict<string, Json>, at: int,
                                       before: Option<int>, id: string)
    requires Distinct(meta)
    ensures var (b, m) := AssignAll(bytes, meta, fields, at, before);
      && Distinct(m)
      && b - Sum(m, MetaCost) == bytes - Sum(meta, MetaCost)
      && (HasIdentity(meta, id) ==> HasIdentity(m, id))
    decreases |fields|
  {
    if fields != [] {
      var (key, value) := fields[0];
      var next := Assign(meta, key, value, at, before);
      if !Skips(meta, key, value, before) {
        var entry := Meta(value, at, MetaSize(key, value));
        PutDistinct(meta, key, entry);
        SumPut(meta, key, entry, MetaCost);
        GetPut(meta, key, entry, "id");
      }
      AssignAllOk(bytes + AssignCost(meta, key, value, before), next, fields[1..], at, before, id);
    }
  }

  lemma AssignThreadOk(tid: string, t: Thread, fields: Dict<string, Json>, at: int, before: Option<int>)
    requires ThreadOk(tid, t)
    ensures ThreadOk(tid, AssignThread(t, fields, at, before))
  {
    AssignAllOk(t.bytes, t.meta, fields, at, before, tid);
  }

  /** Replacing one turn moves the byte total by the difference of the two turns. */
  lemma PutTurnOk(tid: string, t: Thread, turnId: string, turn: Turn, bytes: int, truncated: bool)
    requires ThreadOk(tid, t) && TurnOk(turnId, turn)
    requires bytes == t.bytes + TurnCost(turn) - Share(t.turns, turnId, TurnCost)
    ensures ThreadOk(tid, t.(bytes := bytes, truncated := truncated, turns := Put(t.turns, turnId, turn)))
  {
    PutDistinct(t.turns, turnId, turn);
    SumPut(t.turns, turnId, turn, TurnCost);
    forall k | Has(Put(t.turns, turnId, turn), k) ensures TurnOk(k, Get(Put(t.turns, turnId, turn), k).value) {
      GetPut(t.turns, turnId, turn, k);
    }
  }

  lemma AssignTurnOk(tid: string, t: Thread, turnId: string, fields: Dict<string, Json>, at: int, before: Option<int>)
    requires ThreadOk(tid, t)
    ensures ThreadOk(tid, AssignTurn(t, turnId, fields, at, before))
  {
    match Get(t.turns, turnId)
    case None =>
    case Some(turn) =>
      assert Has(t.turns, turnId);
      AssignAllOk(t.bytes, turn.meta, fields, at, before, turnId);
      var (bytes, meta) := AssignAll(t.bytes, turn.meta, fields, at, before);
      PutTurnOk(tid, t, turnId, turn.(meta := meta), bytes, t.truncated);
  }

  /** A fresh dictionary that receives its identity has it, whatever the byte count was. */
  lemma FreshIdentity(bytes: int, id: string)
    requires |id| <= 256
    ensures AssignAll(bytes, [], [("id", Str(id))], 0, None)
      == (bytes + MetaSize("id", Str(id)), [("id", Meta(Str(id), 0, MetaSize("id", Str(id))))])
    ensures Sum(AssignAll(bytes, [], [("id", Str(id))], 0, None).1, MetaCost) == MetaSize("id", Str(id))
  {
    var f: Dict<string, Json> := [("id", Str(id))];
    var none: Dict<string, Meta> := [];
    assert f[1..] == [];
    assert !Skips(none, "id", Str(id), None);
    var m := AssignAll(bytes, [], f, 0, None).1;
    assert |m| == 1 && m[1..] == [];
  }

  lemma NewThreadOk(tid: string)
    requires |tid| <= 256
    ensures ThreadOk(tid, NewThread(tid))
    ensures NewThread(tid).turns == [] && !NewThread(tid).truncated
  {
    FreshIdentity(64, tid);
  }

  lemma OpenTurnOk(tid: string, t: Thread, turnId: string)
    requires ThreadOk(tid, t) && |turnId| <= 256
    ensures ThreadOk(tid, OpenTurn(t, turnId)) && Has(OpenTurn(t, turnId).turns, turnId)
  {
    if !Has(t.turns, turnId) {
      var blank := Turn([], []);
      GetPut(t.turns, turnId, blank, turnId);
      FreshIdentity(t.bytes, turnId);
      var (bytes, meta) := AssignAll(t.bytes, blank.meta, [("id", Str(turnId))], 0, None);
      PutTurnOk(tid, t, turnId, Turn(meta, []), bytes, t.truncated);
      GetPut(t.turns, turnId, Turn(meta, []), turnId);
      PutTwice(t.turns, turnId, blank, Turn(meta, []));
    }
  }

  lemma PutItemOk(lim: Limits, tid: string, t: Thread, turnId: string, item: Dict<string, Json>, complete: bool,
                  at: int)
    requires ThreadOk(tid, t)
    ensures ThreadOk(tid, PutItem(lim, t, turnId, item, complete, at))
    ensures Keys(PutItem(lim, t, turnId, item, complete, at).turns) == Keys(t.turns)
  {
    var iid := Lookup(Obj(item), "id");
    match Get(t.turns, turnId)
    case None =>
    case Some(turn) =>
      assert Has(t.turns, turnId);
      if iid.Str? {
        var previous := Get(turn.items, iid.s);
        match NextItem(lim, previous, item, complete, at)
        case None =>
        case Some((entry, clipped)) =>
          PutDistinct(turn.items, iid.s, entry);
          SumPut(turn.items, iid.s, entry, ItemCost);
          var bytes := PutItem(lim, t, turnId, item, complete, at).bytes;
          PutTurnOk(tid, t, turnId, turn.(items := Put(turn.items, iid.s, entry)), bytes, t.truncated || clipped);
          PutKeys(t.turns, turnId, turn.(items := Put(turn.items, iid.s, entry)));
      }
  }
}
