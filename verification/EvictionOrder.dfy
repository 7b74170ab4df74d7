/** What `_trim` and `_trim_global` guarantee about the entries they keep and the entries they drop. */
module EvictionOrder {
  import opened OrderedDict
  import opened Json
  import opened Conversation
  import opened Eviction

  // ---- the sort ----

  ghost predicate Ascending(cs: seq<Candidate>) {
    forall i, j :: 0 <= i < j < |cs| ==> cs[i].at <= cs[j].at
  }

  /** The subsequence with one provenance: equal subsequences mean ties keep their order. */
  function At(cs: seq<Candidate>, at: int): seq<Candidate> {
    if cs == [] then [] else (if cs[0].at == at then [cs[0]] else []) + At(cs[1..], at)
  }

  lemma AscendingCons(c: Candidate, cs: seq<Candidate>)
    requires Ascending(cs) && forall x :: x in cs ==> c.at <= x.at
    ensures Ascending([c] + cs)
  {
  }

  lemma {:induction false} InsertKeeps(c: Candidate, cs: seq<Candidate>)
    ensures multiset(Insert(c, cs)) == multiset([c] + cs)
  {
    if cs != [] && c.at > cs[0].at {
      InsertKeeps(c, cs[1..]);
      assert cs == [cs[0]] + cs[1..];
    }
  }

  lemma AtCons(c: Candidate, cs: seq<Candidate>, at: int)
    ensures At([c] + cs, at) == (if c.at == at then [c] else []) + At(cs, at)
  {
    assert ([c] + cs)[1..] == cs;
  }

  lemma {:induction false} InsertIsStable(c: Candidate, cs: seq<Candidate>, at: int)
    ensures At(Insert(c, cs), at) == At([c] + cs, at)
  {
    if cs != [] && c.at > cs[0].at {
      var x, rest := cs[0], cs[1..];
      calc {
        At(Insert(c, cs), at);
        At([x] + Insert(c, rest), at);
        { AtCons(x, Insert(c, rest), at); }
        (if x.at == at then [x] else []) + At(Insert(c, rest), at);
        { InsertIsStable(c, rest, at); AtCons(c, rest, at); }
        (if c.at == at then [c] else []) + ((if x.at == at then [x] else []) + At(rest, at));
        { AtCons(c, cs, at); }
        At([c] + cs, at);
      }
    }
  }

  lemma {:induction false} InsertSorts(c: Candidate, cs: seq<Candidate>)
    requires Ascending(cs)
    ensures Ascending(Insert(c, cs))
  {
    if cs == [] || c.at <= cs[0].at {
      AscendingCons(c, cs);
    } else {
      InsertSorts(c, cs[1..]);
      var r := Insert(c, cs[1..]);
      forall x | x in r ensures cs[0].at <= x.at {
        InsertKeeps(c, cs[1..]);
        assert x in multiset(r);
        assert x == c || x in cs[1..];
      }
      AscendingCons(cs[0], r);
    }
  }

  /** `sorted` orders by provenance, loses and invents nothing, and is stable. */
  lemma {:induction false} SortedIsStableSort(cs: seq<Candidate>, at: int)
    ensures Ascending(Sorted(cs))
    ensures multiset(Sorted(cs)) == multiset(cs)
    ensures At(Sorted(cs), at) == At(cs, at)
  {
    if cs != [] {
      SortedIsStableSort(cs[1..], at);
      InsertSorts(cs[0], Sorted(cs[1..]));
      InsertKeeps(cs[0], Sorted(cs[1..]));
      InsertIsStable(cs[0], Sorted(cs[1..]), at);
      AtCons(cs[0], Sorted(cs[1..]), at);
      AtCons(cs[0], cs[1..], at);
      assert cs == [cs[0]] + cs[1..];
    }
  }

  /** Items come first, then the thread's own fields, then the turns' fields. */
  function Rank(c: Candidate): nat {
    if c.isItem then 0 else if c.turn.None? then 1 else 2
  }

  ghost predicate RanksAscend(cs: seq<Candidate>) {
    forall i, j :: 0 <= i < j < |cs| ==> Rank(cs[i]) <= Rank(cs[j])
  }

  lemma {:induction false} AtFrom(cs: seq<Candidate>, at: int)
    ensures forall c :: c in At(cs, at) ==> c in cs
  {
    if cs != [] { AtFrom(cs[1..], at); }
  }

  lemma {:induction false} RanksTail(cs: seq<Candidate>)
    requires RanksAscend(cs) && cs != []
    ensures RanksAscend(cs[1..]) && forall c :: c in cs[1..] ==> Rank(cs[0]) <= Rank(c)
  {
    hide Rank;
    forall i, j | 0 <= i < j < |cs[1..]| ensures Rank(cs[1..][i]) <= Rank(cs[1..][j]) {
      assert Rank(cs[i + 1]) <= Rank(cs[j + 1]);
    }
    forall c | c in cs[1..] ensures Rank(cs[0]) <= Rank(c) {
      var k :| 0 <= k < |cs[1..]| && cs[1..][k] == c;
      assert Rank(cs[0]) <= Rank(cs[k + 1]);
    }
  }

  lemma {:induction false} RanksCons(c: Candidate, cs: seq<Candidate>)
    requires RanksAscend(cs) && forall d :: d in cs ==> Rank(c) <= Rank(d)
    ensures RanksAscend([c] + cs)
  {
    hide Rank;
  }

  lemma {:induction false} AtRanks(cs: seq<Candidate>, at: int)
    requires RanksAscend(cs)
    ensures RanksAscend(At(cs, at))
  {
    if cs != [] {
      var rest := At(cs[1..], at);
      assert At(cs, at) == if cs[0].at == at then [cs[0]] + rest else [] + rest;
      assert [] + rest == rest;
      hide At, Rank, RanksAscend;
      RanksTail(cs);
      AtRanks(cs[1..], at);
      AtFrom(cs[1..], at);
      RanksCons(cs[0], rest);
    }
  }

  lemma {:induction false} CandidateRanks(turns: Dict<string, Turn>)
    ensures forall c :: c in TurnItemCandidates(turns) ==> Rank(c) == 0
    ensures forall c :: c in TurnMetaCandidates(turns) ==> Rank(c) == 2
  {
    if turns != [] {
      CandidateRanks(turns[1..]);
      MetaRanks(Some(turns[0].0), turns[0].1.meta);
    }
  }

  lemma {:induction false} MetaRanks(turn: Option<string>, meta: Dict<string, Meta>)
    ensures forall c :: c in MetaCandidates(turn, meta) ==> Rank(c) == if turn.None? then 1 else 2
  {
    if meta != [] { MetaRanks(turn, meta[1..]); }
  }

  /** Among entries of equal provenance items are evicted first, then the thread's fields, then its turns' fields. */
  lemma {:induction false} TiesByRank(t: Thread, at: int)
    ensures RanksAscend(At(Sorted(Candidates(t)), at))
  {
    SortedIsStableSort(Candidates(t), at);
    hide Sorted, At, Rank;
    var a, b, c := TurnItemCandidates(t.turns), MetaCandidates(None, t.meta), TurnMetaCandidates(t.turns);
    CandidateRanks(t.turns);
    MetaRanks(None, t.meta);
    assert Candidates(t) == a + b + c;
    forall i, j | 0 <= i < j < |a + b + c| ensures Rank((a + b + c)[i]) <= Rank((a + b + c)[j]) {
      var x, y := (a + b + c)[i], (a + b + c)[j];
      assert if i < |a| then x in a else if i < |a| + |b| then x in b else x in c;
      assert if j < |a| then y in a else if j < |a| + |b| then y in b else y in c;
    }
    AtRanks(Candidates(t), at);
  }

  lemma SortedMembers(cs: seq<Candidate>, c: Candidate)
    ensures c in Sorted(cs) <==> c in cs
  {
    SortedIsStableSort(cs, 0);
    assert c in Sorted(cs) <==> c in multiset(Sorted(cs));
  }

  // ---- candidates are exactly the entries held ----

  ghost predicate HoldsMeta(meta: Dict<string, Meta>, c: Candidate) {
    Get(meta, c.key).Some? && Get(meta, c.key).value.at == c.at
  }

  ghost predicate HoldsItem(items: Dict<string, Item>, c: Candidate) {
    Get(items, c.key).Some? && Get(items, c.key).value.at == c.at
  }

  /** Thread `t` holds the entry that `c` describes. */
  ghost predicate Holds(t: Thread, c: Candidate) {
    match c.turn
    case None => !c.isItem && HoldsMeta(t.meta, c)
    case Some(turnId) =>
      match Get(t.turns, turnId)
      case None => false
      case Some(turn) => if c.isItem then HoldsItem(turn.items, c) else HoldsMeta(turn.meta, c)
  }

  ghost predicate SameSlot(c: Candidate, d: Candidate) {
    c.isItem == d.isItem && c.turn == d.turn && c.key == d.key
  }

  lemma {:induction false} MetaCandidatesExact(turn: Option<string>, meta: Dict<string, Meta>, c: Candidate)
    requires Distinct(meta)
    ensures c in MetaCandidates(turn, meta) <==> !c.isItem && c.turn == turn && c.key != "id" && HoldsMeta(meta, c)
  {
    if meta != [] {
      MetaCandidatesExact(turn, meta[1..], c);
      GetIndex(meta[1..], meta[0].0);
    }
  }

  lemma {:induction false} ItemCandidatesExact(turnId: string, items: Dict<string, Item>, c: Candidate)
    requires Distinct(items)
    ensures c in ItemCandidates(turnId, items) <==> c.isItem && c.turn == Some(turnId) && HoldsItem(items, c)
  {
    if items != [] {
      ItemCandidatesExact(turnId, items[1..], c);
      GetIndex(items[1..], items[0].0);
    }
  }

  lemma {:induction false} TurnsTail(turns: Dict<string, Turn>)
    requires TurnsOk(turns) && turns != []
    ensures TurnsOk(turns[1..]) && !Has(turns[1..], turns[0].0) && TurnOk(turns[0].0, turns[0].1)
  {
    GetIndex(turns[1..], turns[0].0);
    assert Has(turns, turns[0].0);
    forall k | Has(turns[1..], k) ensures TurnOk(k, Get(turns[1..], k).value) {
      assert Has(turns, k);
    }
  }

  lemma {:induction false} TurnCandidatesExact(turns: Dict<string, Turn>, c: Candidate)
    requires TurnsOk(turns)
    ensures c in TurnItemCandidates(turns) <==>
      c.isItem && c.turn.Some? && Has(turns, c.turn.value) && HoldsItem(Get(turns, c.turn.value).value.items, c)
    ensures c in TurnMetaCandidates(turns) <==>
      !c.isItem && c.key != "id" && c.turn.Some? && Has(turns, c.turn.value)
        && HoldsMeta(Get(turns, c.turn.value).value.meta, c)
  {
    if turns != [] {
      TurnsTail(turns);
      TurnCandidatesExact(turns[1..], c);
      ItemCandidatesExact(turns[0].0, turns[0].1.items, c);
      MetaCandidatesExact(Some(turns[0].0), turns[0].1.meta, c);
    }
  }

  lemma CandidatesExact(tid: string, t: Thread, c: Candidate)
    requires ThreadOk(tid, t)
    ensures c in Candidates(t) <==> Holds(t, c) && (c.isItem || c.key != "id")
  {
    TurnCandidatesExact(t.turns, c);
    MetaCandidatesExact(None, t.meta, c);
  }

  // ---- evicting one entry removes that entry and nothing else ----

  lemma EvictRemovesOne(tid: string, t: Thread, d: Candidate, c: Candidate)
    requires ThreadOk(tid, t)
    ensures Holds(Evict(t, d), c) <==> Holds(t, c) && !SameSlot(c, d)
  {
    match d.turn
    case None => GetDel(t.meta, d.key, c.key);
    case Some(turnId) =>
      match Get(t.turns, turnId)
      case None =>
      case Some(turn) =>
        assert Has(t.turns, turnId);
        GetDel(turn.meta, d.key, c.key);
        GetDel(turn.items, d.key, c.key);
        var next := if d.isItem then turn.(items := Del(turn.items, d.key)) else turn.(meta := Del(turn.meta, d.key));
        if c.turn.Some? {
          GetPut(t.turns, turnId, next, c.turn.value);
        }
  }

  function EvictAll(t: Thread, cs: seq<Candidate>): Thread
    decreases |cs|
  {
    if cs == [] then t else EvictAll(Evict(t, cs[0]), cs[1..])
  }

  lemma {:induction false} EvictAllRemoves(tid: string, t: Thread, cs: seq<Candidate>, c: Candidate)
    requires ThreadOk(tid, t)
    requires forall d :: d in cs ==> d.isItem || d.key != "id"
    ensures ThreadOk(tid, EvictAll(t, cs)) && Keys(EvictAll(t, cs).turns) == Keys(t.turns)
    ensures Holds(EvictAll(t, cs), c) <==> Holds(t, c) && forall d :: d in cs ==> !SameSlot(c, d)
    decreases |cs|
  {
    if cs != [] {
      EvictOk(tid, t, cs[0]);
      EvictRemovesOne(tid, t, cs[0], c);
      EvictAllRemoves(tid, Evict(t, cs[0]), cs[1..], c);
      assert forall d :: d in cs <==> d == cs[0] || d in cs[1..];
    }
  }

  // ---- the shortest sufficient prefix ----

  /** How many candidates byte pressure evicts. */
  function EvictCount(t: Thread, cs: seq<Candidate>, budget: nat): nat
    decreases |cs|
  {
    if cs == [] || t.bytes <= budget then 0 else 1 + EvictCount(Evict(t, cs[0]), cs[1..], budget)
  }

  /** Byte pressure evicts a prefix of the sorted candidates: it is enough (or everything),
      and no shorter prefix would have been. */
  lemma {:induction false} ShortestSufficientPrefix(t: Thread, cs: seq<Candidate>, budget: nat)
    ensures var k := EvictCount(t, cs, budget);
      && k <= |cs|
      && EvictWhileOver(t, cs, budget) == EvictAll(t, cs[..k])
      && (k < |cs| ==> EvictAll(t, cs[..k]).bytes <= budget)
      && forall j :: 0 <= j < k ==> EvictAll(t, cs[..j]).bytes > budget
    decreases |cs|
  {
    var k := EvictCount(t, cs, budget);
    if k > 0 {
      var u := Evict(t, cs[0]);
      ShortestSufficientPrefix(u, cs[1..], budget);
      forall j | 0 < j <= k ensures cs[..j][1..] == cs[1..][..j - 1]
        && EvictAll(t, cs[..j]) == EvictAll(u, cs[1..][..j - 1]) {
        assert cs[..j][1..] == cs[1..][..j - 1];
      }
      forall j | 0 <= j < k ensures EvictAll(t, cs[..j]).bytes > budget {
        if j > 0 {
          assert EvictAll(u, cs[1..][..j - 1]).bytes > budget;
        }
      }
    }
  }

  /** The entries of `t` that are not identity fields. */
  ghost predicate Evictable(t: Thread, c: Candidate) {
    Holds(t, c) && (c.isItem || c.key != "id")
  }

  lemma SortedCandidates(tid: string, t: Thread)
    requires ThreadOk(tid, t)
    ensures forall c :: c in Sorted(Candidates(t)) <==> Evictable(t, c)
  {
    forall c ensures c in Sorted(Candidates(t)) <==> Evictable(t, c) {
      SortedMembers(Candidates(t), c);
      CandidatesExact(tid, t, c);
    }
  }

  lemma AcrossTheCut(cs: seq<Candidate>, k: nat, d: Candidate, kept: Candidate)
    requires Ascending(cs) && k <= |cs| && d in cs[..k] && kept in cs && kept !in cs[..k]
    ensures d.at <= kept.at
  {
    var i :| 0 <= i < k && cs[..k][i] == d;
    var j :| 0 <= j < |cs| && cs[j] == kept;
    assert j >= k;
  }

  /** Nothing evicted under byte pressure is newer than anything kept. */
  lemma EvictedIsOlder(lim: Limits, tid: string, t: Thread, gone: Candidate, kept: Candidate)
    requires ThreadOk(tid, t)
    requires var r := EvictWhileOver(t, Sorted(Candidates(t)), lim.threadBytes);
      Holds(t, gone) && !Holds(r, gone) && Evictable(r, kept)
    ensures gone.at <= kept.at
  {
    var cs := Sorted(Candidates(t));
    var k := EvictCount(t, cs, lim.threadBytes);
    ShortestSufficientPrefix(t, cs, lim.threadBytes);
    SortedIsStableSort(Candidates(t), 0);
    SortedCandidates(tid, t);
    assert forall d :: d in cs[..k] ==> d in cs;
    EvictAllRemoves(tid, t, cs[..k], gone);
    EvictAllRemoves(tid, t, cs[..k], kept);
    var d :| d in cs[..k] && SameSlot(gone, d);
    assert d in cs && Holds(t, d);
    assert d.at == gone.at;
    assert kept in cs[..k] ==> SameSlot(kept, kept);
    AcrossTheCut(cs, k, d, kept);
  }

  // ---- after a trim ----

  /** Only the thread's own identity is left. */
  ghost predicate OnlyId(t: Thread) {
    t.turns == [] && forall k :: Has(t.meta, k) ==> k == "id"
  }

  ghost predicate Trimmed(lim: Limits, t: Thread) {
    WithinCaps(lim, t) && (t.bytes <= lim.threadBytes || OnlyId(t))
  }

  lemma DropTurnKeepsCaps(lim: Limits, t: Thread, key: string)
    requires TurnsOk(t.turns) && WithinCaps(lim, t)
    ensures WithinCaps(lim, DropTurn(t, key))
  {
    DelDistinct(t.turns, key);
    forall k ensures |ItemsOf(DropTurn(t, key), k)| <= lim.maxItems {
      GetDel(t.turns, key, k);
      assert |ItemsOf(t, k)| <= lim.maxItems;
    }
  }

  lemma {:induction false} DropTurnsOk(lim: Limits, tid: string, t: Thread, budget: nat)
    requires ThreadOk(tid, t) && WithinCaps(lim, t)
    ensures var r := DropTurnsWhileOver(t, budget);
      ThreadOk(tid, r) && WithinCaps(lim, r) && r.meta == t.meta && (r.bytes <= budget || r.turns == [])
    decreases |t.turns|
  {
    if t.bytes > budget && t.turns != [] {
      var key := OldestTurn(t);
      DropTurnOk(tid, t, key);
      DropShrinks(t);
      DropTurnKeepsCaps(lim, t, key);
      DropTurnsOk(lim, tid, DropTurn(t, key), budget);
    }
  }

  lemma EvictKeepsCaps(lim: Limits, tid: string, t: Thread, cs: seq<Candidate>)
    requires ThreadOk(tid, t) && WithinCaps(lim, t)
    requires forall d :: d in cs ==> d.isItem || d.key != "id"
    ensures WithinCaps(lim, EvictAll(t, cs))
    decreases |cs|
  {
    if cs != [] {
      var d := cs[0];
      var u := Evict(t, d);
      EvictOk(tid, t, d);
      assert |Keys(u.turns)| == |Keys(t.turns)|;
      forall k ensures |ItemsOf(u, k)| <= |ItemsOf(t, k)| {
        if d.turn.Some? && Has(t.turns, d.turn.value) {
          var turn := Get(t.turns, d.turn.value).value;
          DelDistinct(turn.items, d.key);
          GetPut(t.turns, d.turn.value, if d.isItem then turn.(items := Del(turn.items, d.key))
            else turn.(meta := Del(turn.meta, d.key)), k);
        }
      }
      EvictKeepsCaps(lim, tid, u, cs[1..]);
    }
  }

  /** After a trim the caps hold, the byte count is exact, and either the thread is within its
      budget or only the thread id is left. */
  lemma TrimEstablishes(lim: Limits, tid: string, t: Thread)
    requires ThreadOk(tid, t)
    ensures ThreadOk(tid, Trim(lim, t)) && Trimmed(lim, Trim(lim, t))
  {
    hide Capped, Sorted, Candidates, ThreadOk, Evict;
    CappedOk(lim, tid, t);
    var u := Capped(lim, t);
    if u.bytes > lim.threadBytes {
      var cs := Sorted(Candidates(u));
      SortedCandidates(tid, u);
      ShortestSufficientPrefix(u, cs, lim.threadBytes);
      var k := EvictCount(u, cs, lim.threadBytes);
      var w := EvictAll(u, cs[..k]);
      assert forall d :: d in cs[..k] ==> d in cs;
      EvictAllRemoves(tid, u, cs[..k], Candidate(0, false, None, "id"));
      EvictKeepsCaps(lim, tid, u, cs[..k]);
      DropTurnsOk(lim, tid, w, lim.threadBytes);
      var r := Trim(lim, t);
      assert r == DropTurnsWhileOver(w, lim.threadBytes);
      if r.bytes > lim.threadBytes {
        assert w.bytes > lim.threadBytes;
        assert cs[..k] == cs;
        OnlyIdLeft(tid, u, cs);
      }
    }
  }

  /** When every candidate went, the thread's own metadata is its id. */
  lemma {:induction false} OnlyIdLeft(tid: string, u: Thread, cs: seq<Candidate>)
    requires ThreadOk(tid, u) && cs == Sorted(Candidates(u))
    ensures forall key :: Has(EvictAll(u, cs).meta, key) ==> key == "id"
  {
    hide Sorted, Candidates, ThreadOk, Evict;
    SortedCandidates(tid, u);
    var w := EvictAll(u, cs);
    forall key | Has(w.meta, key) ensures key == "id" {
      var c := Candidate(Get(w.meta, key).value.at, false, None, key);
      EvictAllRemoves(tid, u, cs, c);
      assert Holds(w, c);
      assert c in cs ==> SameSlot(c, c);
    }
  }

  const LARGEST_IDENTITY := 64 + 64 + 10 + 6 * 256

  lemma {:induction false} SumOfOne(meta: Dict<string, Meta>, id: string)
    requires Distinct(meta) && HasIdentity(meta, id) && forall k :: Has(meta, k) ==> k == "id"
    ensures Sum(meta, MetaCost) == MetaSize("id", Str(id))
  {
    assert meta != [];
    assert Has(meta, meta[0].0);
    if |meta| > 1 {
      GetAt(meta, 1);
      assert Has(meta, meta[1].0);
    }
    assert meta[1..] == [];
  }

  /** With any budget of at least 1674 bytes the budget is always met: an identity of at most
      256 characters takes no more than that, so the "only the id is left" case never exceeds it. */
  lemma BudgetIsMet(lim: Limits, tid: string, t: Thread)
    requires ThreadOk(tid, t) && Trimmed(lim, t) && lim.threadBytes >= LARGEST_IDENTITY
    ensures t.bytes <= lim.threadBytes
  {
    if OnlyId(t) {
      SumOfOne(t.meta, tid);
      assert t.bytes == 64 + MetaSize("id", Str(tid));
      var f: Dict<string, Json> := [("id", Str(tid))];
      assert f[1..] == [];
      assert EscapedLen("id") == 2 by {
        assert "id"[1..] == "d" && "d"[1..] == "";
      }
      assert DumpFieldsLen(f) == 2 + 2 + 2 + DumpLen(Str(tid));
    }
  }

  // ---- the two caps ----

  /** A turn dropped for the turn cap is no newer than any turn kept, and kept turns are untouched. */
  lemma {:induction false} OldestTurnsGo(t: Thread, cap: nat, gone: string, kept: string)
    requires Distinct(t.turns)
    ensures var out := CapTurns(t, cap).turns;
      && (Has(out, kept) ==> Get(out, kept) == Get(t.turns, kept))
      && (Has(t.turns, gone) && !Has(out, gone) && Has(out, kept)
          ==> TurnAt(Get(t.turns, gone).value) <= TurnAt(Get(t.turns, kept).value))
    decreases |t.turns|
  {
    if |t.turns| > cap {
      var i := MinAt(t.turns, TurnAt);
      var key := t.turns[i].0;
      DropShrinks(t);
      DelDistinct(t.turns, key);
      GetDel(t.turns, key, gone);
      GetDel(t.turns, key, kept);
      GetAt(t.turns, i);
      OldestTurnsGo(DropTurn(t, key), cap, gone, kept);
      if Has(t.turns, kept) {
        GetIndex(t.turns, kept);
        var j :| 0 <= j < |t.turns| && t.turns[j] == (kept, Get(t.turns, kept).value);
        assert TurnAt(t.turns[i].1) <= TurnAt(t.turns[j].1);
      }
    }
  }

  /** An item dropped for the item cap of its turn is no newer than any item kept there. */
  lemma {:induction false} OldestItemsGo(t: Thread, turnId: string, cap: nat, gone: string, kept: string)
    requires Distinct(ItemsOf(t, turnId))
    ensures var items, out := ItemsOf(t, turnId), ItemsOf(CapItems(t, turnId, cap), turnId);
      && (Has(out, kept) ==> Get(out, kept) == Get(items, kept))
      && (Has(items, gone) && !Has(out, gone) && Has(out, kept)
          ==> Get(items, gone).value.at <= Get(items, kept).value.at)
    decreases |ItemsOf(t, turnId)|
  {
    var items := ItemsOf(t, turnId);
    if |items| > cap {
      var i := MinAt(items, ItemAt);
      var key := items[i].0;
      var turn := Get(t.turns, turnId).value;
      DropItemShrinks(t, turnId);
      GetPut(t.turns, turnId, turn.(items := Del(items, key)), turnId);
      DelDistinct(items, key);
      GetDel(items, key, gone);
      GetDel(items, key, kept);
      GetAt(items, i);
      OldestItemsGo(DropItem(t, turnId, key), turnId, cap, gone, kept);
      if Has(items, kept) {
        GetIndex(items, kept);
        var j :| 0 <= j < |items| && items[j] == (kept, Get(items, kept).value);
        assert ItemAt(items[i].1) <= ItemAt(items[j].1);
      }
    }
  }
}
