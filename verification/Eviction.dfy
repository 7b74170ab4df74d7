/** `CodexConversationStore._trim` and `_trim_global` (ccc_server/codex_conversation.py:96-165):
    which entries go when a thread, or the store, is over its limits. */
module Eviction {
  import opened OrderedDict
  import opened Conversation

  // ---- newest provenance ----

  function Max(a: int, b: int): int {
    if a >= b then a else b
  }

  /** `max([*f(values), 0])`. */
  function MaxOver<V>(d: Dict<string, V>, f: V -> int): (m: int)
    ensures m >= 0
    ensures forall i :: 0 <= i < |d| ==> f(d[i].1) <= m
    ensures m == 0 || exists i :: 0 <= i < |d| && f(d[i].1) == m
  {
    if d == [] then 0
    else
      var m := Max(f(d[0].1), MaxOver(d[1..], f));
      assert forall i :: 0 < i < |d| ==> d[i] == d[1..][i - 1];
      m
  }

  /** `min(d, key=...)`: the first key, in dictionary order, with the least rank. */
  function MinAt<V>(d: Dict<string, V>, f: V -> int): (i: nat)
    requires d != []
    ensures i < |d|
    ensures forall j :: 0 <= j < |d| ==> f(d[i].1) <= f(d[j].1)
    ensures forall j :: 0 <= j < i ==> f(d[i].1) < f(d[j].1)
  {
    if |d| == 1 then 0
    else
      var j := MinAt(d[1..], f);
      assert forall k :: 0 < k < |d| ==> d[k] == d[1..][k - 1];
      if f(d[0].1) <= f(d[j + 1].1) then 0 else j + 1
  }

  function MetaAt(m: Meta): int { m.at }
  function ItemAt(i: Item): int { i.at }

  function TurnAt(turn: Turn): int {
    Max(MaxOver(turn.meta, MetaAt), MaxOver(turn.items, ItemAt))
  }

  function ThreadAt(t: Thread): int {
    Max(MaxOver(t.meta, MetaAt), MaxOver(t.turns, TurnAt))
  }

  // ---- the four stages of _trim ----

  function DropTurn(t: Thread, key: string): Thread {
    t.(bytes := t.bytes - Share(t.turns, key, TurnCost), turns := Del(t.turns, key), truncated := true)
  }

  function OldestTurn(t: Thread): string
    requires t.turns != []
  {
    t.turns[MinAt(t.turns, TurnAt)].0
  }

  lemma DropShrinks(t: Thread)
    requires t.turns != []
    ensures |DropTurn(t, OldestTurn(t)).turns| == |t.turns| - 1
  {
    GetIndex(t.turns, OldestTurn(t));
    var i := DelParts(t.turns, OldestTurn(t));
  }

  function CapTurns(t: Thread, cap: nat): Thread
    decreases |t.turns|
  {
    if |t.turns| <= cap then t
    else
      DropShrinks(t);
      CapTurns(DropTurn(t, OldestTurn(t)), cap)
  }

  function DropItem(t: Thread, turnId: string, key: string): Thread {
    match Get(t.turns, turnId)
    case None => t
    case Some(turn) =>
      t.(bytes := t.bytes - Share(turn.items, key, ItemCost),
         turns := Put(t.turns, turnId, turn.(items := Del(turn.items, key))),
         truncated := true)
  }

  function ItemsOf(t: Thread, turnId: string): Dict<string, Item> {
    match Get(t.turns, turnId) case None => [] case Some(turn) => turn.items
  }

  function OldestItem(items: Dict<string, Item>): string
    requires items != []
  {
    items[MinAt(items, ItemAt)].0
  }

  lemma DropItemShrinks(t: Thread, turnId: string)
    requires ItemsOf(t, turnId) != []
    ensures var u := DropItem(t, turnId, OldestItem(ItemsOf(t, turnId)));
      |ItemsOf(u, turnId)| == |ItemsOf(t, turnId)| - 1
  {
    var turn := Get(t.turns, turnId).value;
    var key := OldestItem(turn.items);
    GetIndex(turn.items, key);
    var i := DelParts(turn.items, key);
    GetPut(t.turns, turnId, turn.(items := Del(turn.items, key)), turnId);
  }

  function CapItems(t: Thread, turnId: string, cap: nat): Thread
    decreases |ItemsOf(t, turnId)|
  {
    var items := ItemsOf(t, turnId);
    if |items| <= cap then t
    else
      DropItemShrinks(t, turnId);
      CapItems(DropItem(t, turnId, OldestItem(items)), turnId, cap)
  }

  function CapAllItems(t: Thread, turnIds: seq<string>, cap: nat): Thread
    decreases |turnIds|
  {
    if turnIds == [] then t else CapAllItems(CapItems(t, turnIds[0], cap), turnIds[1..], cap)
  }

  /** An evictable entry: an item of a turn, or a metadata field of a turn or (`turn` None) of the thread. */
  datatype Candidate = Candidate(at: int, isItem: bool, turn: Option<string>, key: string)

  function ItemCandidates(turnId: string, items: Dict<string, Item>): (cs: seq<Candidate>)
    ensures |cs| == |items|
    ensures forall i :: 0 <= i < |items| ==> cs[i] == Candidate(items[i].1.at, true, Some(turnId), items[i].0)
  {
    if items == [] then []
    else [Candidate(items[0].1.at, true, Some(turnId), items[0].0)] + ItemCandidates(turnId, items[1..])
  }

  function MetaCandidates(turn: Option<string>, meta: Dict<string, Meta>): seq<Candidate> {
    if meta == [] then []
    else
      (if meta[0].0 == "id" then [] else [Candidate(meta[0].1.at, false, turn, meta[0].0)])
      + MetaCandidates(turn, meta[1..])
  }

  function TurnItemCandidates(turns: Dict<string, Turn>): seq<Candidate> {
    if turns == [] then [] else ItemCandidates(turns[0].0, turns[0].1.items) + TurnItemCandidates(turns[1..])
  }

  function TurnMetaCandidates(turns: Dict<string, Turn>): seq<Candidate> {
    if turns == [] then [] else MetaCandidates(Some(turns[0].0), turns[0].1.meta) + TurnMetaCandidates(turns[1..])
  }

  function Candidates(t: Thread): seq<Candidate> {
    TurnItemCandidates(t.turns) + MetaCandidates(None, t.meta) + TurnMetaCandidates(t.turns)
  }

  /** Insertion before the first entry that is not older: repeated from the right it sorts stably. */
  function Insert(c: Candidate, cs: seq<Candidate>): seq<Candidate> {
    if cs == [] || c.at <= cs[0].at then [c] + cs else [cs[0]] + Insert(c, cs[1..])
  }

  /** `sorted(candidates, key=lambda row: row[0])`. */
  function Sorted(cs: seq<Candidate>): seq<Candidate> {
    if cs == [] then [] else Insert(cs[0], Sorted(cs[1..]))
  }

  function Evict(t: Thread, c: Candidate): Thread {
    if c.isItem then
      if c.turn.None? then t else DropItem(t, c.turn.value, c.key)
    else match c.turn
      case None =>
        t.(bytes := t.bytes - Share(t.meta, c.key, MetaCost), meta := Del(t.meta, c.key), truncated := true)
      case Some(turnId) =>
        match Get(t.turns, turnId)
        case None => t
        case Some(turn) =>
          t.(bytes := t.bytes - Share(turn.meta, c.key, MetaCost),
             turns := Put(t.turns, turnId, turn.(meta := Del(turn.meta, c.key))),
             truncated := true)
  }

  function EvictWhileOver(t: Thread, cs: seq<Candidate>, budget: nat): Thread
    decreases |cs|
  {
    if cs == [] || t.bytes <= budget then t else EvictWhileOver(Evict(t, cs[0]), cs[1..], budget)
  }

  function DropTurnsWhileOver(t: Thread, budget: nat): Thread
    decreases |t.turns|
  {
    if t.bytes <= budget || t.turns == [] then t
    else
      DropShrinks(t);
      DropTurnsWhileOver(DropTurn(t, OldestTurn(t)), budget)
  }

  function Capped(lim: Limits, t: Thread): Thread {
    var u := CapTurns(t, lim.maxTurns);
    CapAllItems(u, Keys(u.turns), lim.maxItems)
  }

  function Trim(lim: Limits, t: Thread): Thread {
    var u := Capped(lim, t);
    if u.bytes <= lim.threadBytes then u
    else DropTurnsWhileOver(EvictWhileOver(u, Sorted(Candidates(u)), lim.threadBytes), lim.threadBytes)
  }

  // ---- accounting survives every stage ----

  lemma DelTurnsOk(turns: Dict<string, Turn>, key: string)
    requires TurnsOk(turns)
    ensures TurnsOk(Del(turns, key))
  {
    DelDistinct(turns, key);
    forall k | Has(Del(turns, key), k) ensures TurnOk(k, Get(Del(turns, key), k).value) {
      GetDel(turns, key, k);
    }
  }

  lemma DropTurnOk(tid: string, t: Thread, key: string)
    requires ThreadOk(tid, t)
    ensures ThreadOk(tid, DropTurn(t, key))
  {
    DelTurnsOk(t.turns, key);
    SumDel(t.turns, key, TurnCost);
  }

  lemma DropItemOk(tid: string, t: Thread, turnId: string, key: string)
    requires ThreadOk(tid, t)
    ensures ThreadOk(tid, DropItem(t, turnId, key))
    ensures Keys(DropItem(t, turnId, key).turns) == Keys(t.turns)
  {
    match Get(t.turns, turnId)
    case None =>
    case Some(turn) =>
      assert Has(t.turns, turnId);
      DelDistinct(turn.items, key);
      SumDel(turn.items, key, ItemCost);
      var next := turn.(items := Del(turn.items, key));
      PutTurnOk(tid, t, turnId, next, t.bytes - Share(turn.items, key, ItemCost), true);
      PutKeys(t.turns, turnId, next);
  }

  lemma EvictOk(tid: string, t: Thread, c: Candidate)
    requires ThreadOk(tid, t) && (!c.isItem ==> c.key != "id")
    ensures ThreadOk(tid, Evict(t, c))
    ensures Keys(Evict(t, c).turns) == Keys(t.turns)
  {
    if c.isItem {
      if c.turn.Some? {
        DropItemOk(tid, t, c.turn.value, c.key);
      }
    } else {
      match c.turn
      case None =>
        DelDistinct(t.meta, c.key);
        SumDel(t.meta, c.key, MetaCost);
        GetDel(t.meta, c.key, "id");
      case Some(turnId) =>
        match Get(t.turns, turnId)
        case None =>
        case Some(turn) =>
          assert Has(t.turns, turnId);
          DelDistinct(turn.meta, c.key);
          SumDel(turn.meta, c.key, MetaCost);
          GetDel(turn.meta, c.key, "id");
          var next := turn.(meta := Del(turn.meta, c.key));
          PutTurnOk(tid, t, turnId, next, t.bytes - Share(turn.meta, c.key, MetaCost), true);
          PutKeys(t.turns, turnId, next);
    }
  }

  lemma {:induction false} CapTurnsOk(tid: string, t: Thread, cap: nat)
    requires ThreadOk(tid, t)
    ensures ThreadOk(tid, CapTurns(t, cap))
    ensures |CapTurns(t, cap).turns| <= cap
    decreases |t.turns|
  {
    if |t.turns| > cap {
      DropTurnOk(tid, t, OldestTurn(t));
      DropShrinks(t);
      CapTurnsOk(tid, DropTurn(t, OldestTurn(t)), cap);
    }
  }

  lemma {:induction false} CapItemsOk(tid: string, t: Thread, turnId: string, cap: nat)
    requires ThreadOk(tid, t)
    ensures ThreadOk(tid, CapItems(t, turnId, cap))
    ensures Keys(CapItems(t, turnId, cap).turns) == Keys(t.turns)
    ensures forall k :: |ItemsOf(CapItems(t, turnId, cap), k)| <= if k == turnId then cap else |ItemsOf(t, k)|
    decreases |ItemsOf(t, turnId)|
  {
    var items := ItemsOf(t, turnId);
    if |items| > cap {
      var key := OldestItem(items);
      DropItemShrinks(t, turnId);
      DropItemOk(tid, t, turnId, key);
      var turn := Get(t.turns, turnId).value;
      forall k | k != turnId ensures ItemsOf(DropItem(t, turnId, key), k) == ItemsOf(t, k) {
        GetPut(t.turns, turnId, turn.(items := Del(turn.items, key)), k);
      }
      CapItemsOk(tid, DropItem(t, turnId, key), turnId, cap);
    }
  }

  lemma {:induction false} CapAllItemsOk(tid: string, t: Thread, turnIds: seq<string>, cap: nat)
    requires ThreadOk(tid, t)
    ensures ThreadOk(tid, CapAllItems(t, turnIds, cap))
    ensures Keys(CapAllItems(t, turnIds, cap).turns) == Keys(t.turns)
    ensures forall k :: |ItemsOf(CapAllItems(t, turnIds, cap), k)| <= |ItemsOf(t, k)|
    ensures forall k :: k in turnIds ==> |ItemsOf(CapAllItems(t, turnIds, cap), k)| <= cap
    decreases |turnIds|
  {
    if turnIds != [] {
      CapItemsOk(tid, t, turnIds[0], cap);
      var u := CapItems(t, turnIds[0], cap);
      assert forall k :: |ItemsOf(u, k)| <= |ItemsOf(t, k)| by {
        forall k ensures |ItemsOf(u, k)| <= |ItemsOf(t, k)| {
          if k == turnIds[0] && |ItemsOf(t, k)| <= cap { assert u == t; }
        }
      }
      CapAllItemsOk(tid, u, turnIds[1..], cap);
      var w := CapAllItems(u, turnIds[1..], cap);
      forall k | k in turnIds ensures |ItemsOf(w, k)| <= cap {
        if k != turnIds[0] {
          assert k in turnIds[1..];
        }
      }
    }
  }

  lemma {:induction false} HasKey<V>(d: Dict<string, V>, k: string)
    ensures Has(d, k) <==> k in Keys(d)
  {
    GetIndex(d, k);
    if Has(d, k) {
      var i :| 0 <= i < |d| && d[i].0 == k;
      assert Keys(d)[i] == k;
    }
    if k in Keys(d) {
      var i :| 0 <= i < |d| && Keys(d)[i] == k;
      assert d[i].0 == k;
    }
  }

  lemma CappedOk(lim: Limits, tid: string, t: Thread)
    requires ThreadOk(tid, t)
    ensures ThreadOk(tid, Capped(lim, t)) && WithinCaps(lim, Capped(lim, t))
  {
    var u := CapTurns(t, lim.maxTurns);
    CapTurnsOk(tid, t, lim.maxTurns);
    CapAllItemsOk(tid, u, Keys(u.turns), lim.maxItems);
    var w := Capped(lim, t);
    forall k ensures |ItemsOf(w, k)| <= lim.maxItems {
      HasKey(u.turns, k);
    }
    assert |Keys(w.turns)| == |Keys(u.turns)|;
  }

  ghost predicate WithinCaps(lim: Limits, t: Thread) {
    |t.turns| <= lim.maxTurns && forall k :: |ItemsOf(t, k)| <= lim.maxItems
  }
}
